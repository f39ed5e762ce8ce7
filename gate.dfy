/**
 * The authorisation gate: `verifyToken` (authentication) and
 * `protectRoute` (authentication, then an optional role check). Each guard
 * either ends the request with a response or lets it proceed. The `next()`
 * continuations that `verifyToken` and `protectRoute` call become a decision
 * function whose `Proceed` case carries the request with `user` filled in.
 */
module Gate {
  import opened Wrappers
  import opened Tokens
  import opened Http

  datatype GateOutcome = Halt(response: Response) | Proceed(request: Request)

  /** A token is supplied: the header is present and, being falsy otherwise, non-empty. */
  predicate HasToken(req: Request) {
    req.authorization.Some? && req.authorization.value != ""
  }

  /** The role check passes: no role is required (the empty string is falsy), or the roles agree. */
  predicate RoleAllows(perfilRequired: string, c: Claims) {
    perfilRequired == "" || c.perfil == perfilRequired
  }

  /** Authentication: 401 without a token, 400 for a token the verifier rejects, else proceed. */
  function VerifyToken(req: Request, verify: Token -> Verification): (r: GateOutcome)
    ensures r.Proceed? <==> HasToken(req) && verify(req.authorization.value).Valid?
    ensures r.Proceed? ==> r.request == req.(user := Some(verify(req.authorization.value).decoded))
    ensures r.Halt? && !HasToken(req) ==> r.response == Response(UNAUTHORIZED, Message(NO_TOKEN_MESSAGE))
    ensures r.Halt? && HasToken(req) ==> r.response == Response(BAD_REQUEST, Message(INVALID_TOKEN_MESSAGE))
  {
    if !HasToken(req) then Halt(Response(UNAUTHORIZED, Message(NO_TOKEN_MESSAGE)))
    else match verify(req.authorization.value)
      case Invalid => Halt(Response(BAD_REQUEST, Message(INVALID_TOKEN_MESSAGE)))
      case Valid(decoded) => Proceed(req.(user := Some(decoded)))
  }

  /** Authentication first; only a request that passed it meets the role check. */
  function ProtectRoute(perfilRequired: string, req: Request, verify: Token -> Verification): (r: GateOutcome)
    ensures r.Halt? ==> r.response.status in {UNAUTHORIZED, BAD_REQUEST, FORBIDDEN}
    ensures r.Halt? && r.response.status == UNAUTHORIZED <==> !HasToken(req)
    ensures r.Halt? && r.response.status == BAD_REQUEST <==>
      HasToken(req) && verify(req.authorization.value).Invalid?
    ensures r.Halt? && r.response.status == FORBIDDEN <==>
      HasToken(req) && verify(req.authorization.value).Valid?
      && !RoleAllows(perfilRequired, verify(req.authorization.value).decoded)
    ensures r.Halt? && r.response.status == FORBIDDEN ==> r.response.body == Message(DENIED_MESSAGE)
    ensures r.Proceed? <==>
      HasToken(req) && verify(req.authorization.value).Valid?
      && RoleAllows(perfilRequired, verify(req.authorization.value).decoded)
    ensures r.Proceed? ==> r.request == req.(user := Some(verify(req.authorization.value).decoded))
  {
    match VerifyToken(req, verify)
    case Halt(response) => Halt(response)
    case Proceed(authed) =>
      if perfilRequired != "" && authed.user.value.perfil != perfilRequired then
        Halt(Response(FORBIDDEN, Message(DENIED_MESSAGE)))
      else
        Proceed(authed)
  }

  /** Without a token the verifier is never asked: any two verifiers give the same outcome. */
  lemma MissingTokenSkipsVerifier(perfilRequired: string, req: Request, v1: Token -> Verification, v2: Token -> Verification)
    requires !HasToken(req)
    ensures ProtectRoute(perfilRequired, req, v1) == ProtectRoute(perfilRequired, req, v2)
    ensures ProtectRoute(perfilRequired, req, v1) == Halt(Response(UNAUTHORIZED, Message(NO_TOKEN_MESSAGE)))
  {
  }

  /** Whatever the verifier rejects is refused the same way whatever role the route requires. */
  lemma RejectionPrecedesRoleCheck(p1: string, p2: string, req: Request, verify: Token -> Verification)
    requires VerifyToken(req, verify).Halt?
    ensures ProtectRoute(p1, req, verify) == ProtectRoute(p2, req, verify) == VerifyToken(req, verify)
  {
  }

  /** With no required role the gate is exactly `verifyToken`. */
  lemma NoRoleIsVerifyToken(req: Request, verify: Token -> Verification)
    ensures ProtectRoute("", req, verify) == VerifyToken(req, verify)
  {
  }
}
