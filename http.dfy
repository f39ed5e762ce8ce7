/**
 * The slice of HTTP that the handlers touch: the `Authorization` header and
 * the identity attached by the gate on the way in, a status and a JSON body
 * on the way out.
 */
module Http {
  import opened Wrappers
  import opened Directory
  import opened Sanitizer
  import opened Tokens

  /**
   * An incoming request: the raw `Authorization` header (`None` when absent)
   * and `user`, the decoded claims the gate attaches (`None` until then).
   */
  datatype Request = Request(authorization: Option<string>, user: Option<Claims>)

  /** The JSON bodies the service sends. */
  datatype Body =
    | Message(message: string)
    | TokenBody(token: Token)
    | UserList(users: seq<PublicUser>)
    | Profile(id: int, perfil: string)
    | ContractList(contracts: seq<Contract>)

  /** A response; `res.json` alone sends status 200. */
  datatype Response = Response(status: nat, body: Body)

  const OK: nat := 200
  const BAD_REQUEST: nat := 400
  const UNAUTHORIZED: nat := 401
  const FORBIDDEN: nat := 403

  const NO_TOKEN_MESSAGE: string := "Token n\U{e3}o fornecido"
  const INVALID_TOKEN_MESSAGE: string := "Token inv\U{e1}lido"
  const DENIED_MESSAGE: string := "Permiss\U{e3}o negada"
  const BAD_CREDENTIALS_MESSAGE: string := "Usu\U{e1}rio ou senha incorretos"
}
