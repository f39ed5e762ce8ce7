/**
 * Token issuing and checking. The signature library is not modelled: signing
 * is a function `sign` from claims to a token and verification an oracle
 * `verify` from a token to `Invalid` or `Valid(decoded)`, both supplied by
 * the caller. The secret, the algorithm and the one-hour expiry are hidden
 * inside these two functions.
 */
module Tokens {
  import opened Directory

  type Token = string

  /** The payload signed at login: the user's id and role. */
  datatype Claims = Claims(userId: int, perfil: string)

  /** What the verifier answers for a token. */
  datatype Verification = Invalid | Valid(decoded: Claims)

  function ClaimsOf(u: User): Claims {
    Claims(u.id, u.perfil)
  }

  /**
   * Signs the claims `{userId, perfil}` of the user: any verifier that
   * accepts what `sign` issues decodes the token to the user's id and role.
   */
  function GenerateToken(u: User, sign: Claims -> Token): (t: Token)
    ensures forall verify {:trigger Honest(sign, verify)} :: Honest(sign, verify) ==>
      t != [] && verify(t) == Valid(Claims(u.id, u.perfil))
  {
    sign(ClaimsOf(u))
  }

  /**
   * The verifier accepts what the signer issued and gives back the signed
   * claims, and the signer never issues an empty token (a signed token has
   * a header, a payload and a signature). This describes verification while
   * the token is within its one-hour lifetime; expiry is not modelled.
   */
  ghost predicate Honest(sign: Claims -> Token, verify: Token -> Verification) {
    forall c :: verify(sign(c)) == Valid(c) && sign(c) != []
  }
}
