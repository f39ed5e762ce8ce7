/**
 * The four route handlers, each as a function of the request and of the
 * token oracles, and the end-to-end properties that tie login to the
 * guarded routes.
 */
module Routes {
  import opened Wrappers
  import opened Sanitizer
  import opened Directory
  import opened Tokens
  import opened Http
  import opened Gate

  /** The role that `/api/users` and `/api/contracts/:empresa` require. */
  const ADMIN: string := "admin"

  /** The login request body; a field that is absent or not a string is `None`. */
  datatype LoginBody = LoginBody(username: Option<string>, password: Option<string>)

  /**
   * What a handler does: send a response, or throw before sending one. The
   * response to a thrown error belongs to the framework and is not modelled.
   */
  datatype Handled = Sent(response: Response) | Threw

  /** `POST /api/auth/login`: a token for the first matching user, or 401. */
  function Login(users: seq<User>, body: LoginBody, sign: Claims -> Token): (r: Response)
    ensures r.status in {OK, UNAUTHORIZED}
    ensures r.status == UNAUTHORIZED <==>
      forall i :: 0 <= i < |users| ==> !Matches(users[i], body.username, body.password)
    ensures r.status == UNAUTHORIZED ==> r.body == Message(BAD_CREDENTIALS_MESSAGE)
    ensures r.status == OK ==>
      exists i :: 0 <= i < |users| && Matches(users[i], body.username, body.password)
        && (forall j :: 0 <= j < i ==> !Matches(users[j], body.username, body.password))
        && r.body == TokenBody(sign(Claims(users[i].id, users[i].perfil)))
  {
    match FindByCredentials(users, body.username, body.password)
    case None => Response(UNAUTHORIZED, Message(BAD_CREDENTIALS_MESSAGE))
    case Some(user) => Response(OK, TokenBody(GenerateToken(user, sign)))
  }

  /** `GET /api/users`: admins only; the whole directory without passwords. */
  function ListUsersRoute(req: Request, verify: Token -> Verification, users: seq<User>): (r: Response)
    ensures r.status == OK <==> ProtectRoute(ADMIN, req, verify).Proceed?
    ensures r.status == OK ==> r.body == UserList(ListUsers(users))
    ensures r.status != OK ==> r == ProtectRoute(ADMIN, req, verify).response
  {
    match ProtectRoute(ADMIN, req, verify)
    case Halt(response) => response
    case Proceed(_) => Response(OK, UserList(ListUsers(users)))
  }

  /**
   * `GET /api/me`: any authenticated user; the claimed id with the role the
   * directory holds for it. Throws when no user has the claimed id.
   */
  function Me(req: Request, verify: Token -> Verification, users: seq<User>): (r: Handled)
    ensures r.Threw? <==>
      HasToken(req) && verify(req.authorization.value).Valid?
      && forall i :: 0 <= i < |users| ==> users[i].id != verify(req.authorization.value).decoded.userId
    ensures r.Sent? && r.response.status != OK ==>
      VerifyToken(req, verify).Halt? && r.response == VerifyToken(req, verify).response
    ensures r.Sent? && r.response.status == OK ==>
      HasToken(req) && verify(req.authorization.value).Valid?
      && var id := verify(req.authorization.value).decoded.userId;
         exists i :: 0 <= i < |users| && users[i].id == id
           && (forall j :: 0 <= j < i ==> users[j].id != id)
           && r.response.body == Profile(id, users[i].perfil)
  {
    match VerifyToken(req, verify)
    case Halt(response) => Sent(response)
    case Proceed(authed) =>
      var userId := authed.user.value.userId;
      match FindById(users, userId)
      case None => Threw
      case Some(user) => Sent(Response(OK, Profile(userId, user.perfil)))
  }

  /** `GET /api/contracts/:empresa`: admins only; the contracts of the sanitised company. */
  function ContractsRoute(req: Request, verify: Token -> Verification, empresa: string): (r: Response)
    ensures r.status == OK <==> ProtectRoute(ADMIN, req, verify).Proceed?
    ensures r.status == OK ==> r.body == ContractList([Contract(Sanitize(empresa), "Contrato 1")])
    ensures r.status != OK ==> r == ProtectRoute(ADMIN, req, verify).response
  {
    match ProtectRoute(ADMIN, req, verify)
    case Halt(response) => response
    case Proceed(_) => Response(OK, ContractList(GetContracts(empresa)))
  }

  /** The request a client sends after logging in: the raw token as the whole `Authorization` header. */
  function WithToken(token: Token): Request {
    Request(Some(token), None)
  }

  /**
   * Logging in with a user's own credentials yields a token that the
   * verifier accepts with the claims `{userId, perfil}` of that user.
   */
  lemma LoginIssuesOwnClaims(users: seq<User>, i: int, sign: Claims -> Token, verify: Token -> Verification)
    requires UniqueUsernames(users) && Honest(sign, verify) && 0 <= i < |users|
    ensures var r := Login(users, LoginBody(Some(users[i].username), Some(users[i].password)), sign);
      r.status == OK && r.body.TokenBody? && HasToken(WithToken(r.body.token))
      && VerifyToken(WithToken(r.body.token), verify) == Proceed(Request(Some(r.body.token), Some(ClaimsOf(users[i]))))
  {
    OwnCredentialsFindSelf(users, i);
  }

  /** With that token, `/api/me` answers the user's own id and role. */
  lemma LoginThenMe(users: seq<User>, i: int, sign: Claims -> Token, verify: Token -> Verification)
    requires UniqueUsernames(users) && UniqueIds(users) && Honest(sign, verify) && 0 <= i < |users|
    ensures var r := Login(users, LoginBody(Some(users[i].username), Some(users[i].password)), sign);
      r.body.TokenBody?
      && Me(WithToken(r.body.token), verify, users) == Sent(Response(OK, Profile(users[i].id, users[i].perfil)))
  {
    LoginIssuesOwnClaims(users, i, sign, verify);
    OwnIdFindsSelf(users, i);
  }

  /** With that token, the listing is served to an admin and refused with 403 to anyone else. */
  lemma LoginThenListUsers(users: seq<User>, i: int, sign: Claims -> Token, verify: Token -> Verification)
    requires UniqueUsernames(users) && Honest(sign, verify) && 0 <= i < |users|
    ensures var r := Login(users, LoginBody(Some(users[i].username), Some(users[i].password)), sign);
      r.body.TokenBody?
      && ListUsersRoute(WithToken(r.body.token), verify, users)
         == if users[i].perfil == ADMIN then Response(OK, UserList(ListUsers(users)))
            else Response(FORBIDDEN, Message(DENIED_MESSAGE))
  {
    LoginIssuesOwnClaims(users, i, sign, verify);
  }

  /**
   * The mocked directory end to end: the admin logs in, `/api/me` answers
   * `{id: 1, perfil: "admin"}`, the listing shows both users without
   * passwords, and the other user is refused the listing.
   */
  lemma MockDirectoryScenario(sign: Claims -> Token, verify: Token -> Verification)
    requires Honest(sign, verify)
    ensures var admin := Login(USERS, LoginBody(Some("admin"), Some("senha123")), sign);
      admin.status == OK && admin.body.TokenBody?
      && Me(WithToken(admin.body.token), verify, USERS) == Sent(Response(OK, Profile(1, "admin")))
      && ListUsersRoute(WithToken(admin.body.token), verify, USERS)
         == Response(OK, UserList([PublicUser(1, "admin", "admin"), PublicUser(2, "user", "user")]))
    ensures var user := Login(USERS, LoginBody(Some("user"), Some("senha456")), sign);
      user.body.TokenBody?
      && ListUsersRoute(WithToken(user.body.token), verify, USERS) == Response(FORBIDDEN, Message(DENIED_MESSAGE))
    ensures Login(USERS, LoginBody(Some("admin"), Some("senha456")), sign)
            == Response(UNAUTHORIZED, Message(BAD_CREDENTIALS_MESSAGE))
  {
    MockDirectoryUnique();
    assert USERS[0].username == "admin" && USERS[0].password == "senha123";
    assert USERS[1].username == "user" && USERS[1].password == "senha456";
    LoginThenMe(USERS, 0, sign, verify);
    LoginThenListUsers(USERS, 0, sign, verify);
    LoginThenListUsers(USERS, 1, sign, verify);
    var listing := ListUsers(USERS);
    assert listing == [PublicUser(1, "admin", "admin"), PublicUser(2, "user", "user")];
  }
}
