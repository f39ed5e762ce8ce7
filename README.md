# Login, token gate and contract lookup of a small Express API

This project is a Dafny model of the logic in `index.js`, a small HTTP service. The service has four pieces of logic of its own:

- **Login.** It finds, in a fixed in-memory user list, the first user whose username and password both equal the ones posted. It answers 401 if there is none. Otherwise it answers with a token signed over the claims `{userId, perfil}`.
- **Gate.** `verifyToken` answers 401 when the `Authorization` header is missing or empty, and 400 when the token library rejects the token. Otherwise it attaches the decoded claims to the request as `req.user`. `protectRoute(perfil)` runs `verifyToken` first. It then answers 403 when a role is required and the claims carry a different one.
- **Projections.** `/api/users` (admin only) lists every user without the password. `/api/me` (any valid token) answers the claimed id together with the role the directory holds for that id.
- **Contract lookup.** `/api/contracts/:empresa` (admin only) deletes every character of the path segment outside `[a-zA-Z0-9]`. It then answers one mocked record for the result.

The token library is replaced by two functions that each route receives as parameters. `sign: Claims -> Token` stands for signing. `verify: Token -> Verification` is the verifier, which answers `Invalid` or `Valid(decoded)`. The end-to-end lemmas assume `Tokens.Honest(sign, verify)`: the verifier gives back exactly what was signed, and a signed token is never the empty string. `Honest` describes verification while a token is within its one-hour lifetime. The lemmas that log a user in with their own credentials also assume unique usernames, because `find` returns the first match. `Routes.LoginThenMe` also assumes unique ids.

Modules, one file each:

- `Wrappers` holds `Option`.
- `Sanitizer` holds the sanitiser and `getContracts`.
- `Directory` holds the user list, the `find` lookups and the listing.
- `Tokens` holds the claims, the verifier's answers and `generateToken`.
- `Http` holds the request, the response, the bodies and the messages.
- `Gate` holds `verifyToken` and `protectRoute`.
- `Routes` holds the four handlers and the end-to-end lemmas.

Every operation is a pure function. The source's early `return res.status(..).json(..)` becomes a `Halt(response)` result. Its assignment `req.user = decoded` followed by `next()` becomes a `Proceed(request)` result that carries the updated request record.

Four details of the code that the model keeps:

- The role field is named `perfil`.
- A required role that is the empty string counts as "no role required", because the code tests the role's truthiness.
- An empty `Authorization` header counts as a missing token (401), because the code tests `!token`.
- `/api/me` echoes the id from the claims. It takes only the role from the directory.

## Model

| member | source | states |
|---|---|---|
| Sanitizer.Sanitize | index.js:49 | the result contains only ASCII letters and digits, and it is never longer than the input |
| Sanitizer.SanitizeIsSubsequence | index.js:49 | the result is a subsequence of the input: characters are deleted, never reordered or added |
| Sanitizer.SanitizeCounts | index.js:49 | every ASCII letter or digit occurs in the result exactly as often as in the input; every other character, non-ASCII letters included, occurs zero times |
| Sanitizer.SanitizeUnique | index.js:49 | any alphanumeric subsequence of the input that keeps every letter and digit of the input is the sanitised string, so the result is exactly the alphanumeric subsequence |
| Sanitizer.SanitizeAppend | index.js:49 | sanitising a concatenation gives the concatenation of the sanitised parts, as a global replace does |
| Sanitizer.SanitizeFixedPoint | index.js:49 | a string made only of letters and digits is left unchanged |
| Sanitizer.SanitizeIdempotent | index.js:49 | sanitising an already sanitised string returns it unchanged |
| Sanitizer.SanitizeExample | index.js:49 | `"Acme & Co.!!"` sanitises to `"AcmeCo"` |
| Sanitizer.GetContracts | index.js:47-53 | exactly one record; its `empresa` is an alphanumeric subsequence of the argument that keeps each of its letters and digits; its `contrato` is `"Contrato 1"` |
| Sanitizer.GetContractsExample | index.js:47-53 | the lookup for `"Acme & Co.!!"` answers `[{empresa: "AcmeCo", contrato: "Contrato 1"}]` |
| Directory.FindIndex | index.js:57 | `Array.prototype.find` semantics: the position found satisfies the predicate and no earlier element does; there is no position exactly when no element satisfies it |
| Directory.FindByCredentials | index.js:57 | finds the first user in directory order whose username and password are both strictly equal to the posted ones; finds nobody exactly when no user matches both |
| Directory.FindById | index.js:71 | finds the first user in directory order with the given id; finds nobody exactly when no user has it |
| Directory.ListUsers | index.js:66 | same length and order as the directory; entry i carries user i's id, username and role, and the entry type has no password field |
| Directory.ListingIgnoresPasswords | index.js:66 | two directories that differ only in passwords produce the same listing |
| Directory.OwnCredentialsFindSelf | index.js:57 | with unique usernames, a user's own username and password find that user |
| Directory.OwnIdFindsSelf | index.js:71 | with unique ids, a user's own id finds that user |
| Directory.MockDirectoryUnique | index.js:15-18 | the two mocked users have distinct usernames and distinct ids |
| Gate.VerifyToken | index.js:24-34 | proceeds exactly when a non-empty token is present and the verifier accepts it, with the request unchanged except that `user` is the decoded claims; otherwise it answers 401 "Token não fornecido" when there is no token and 400 "Token inválido" when the verifier rejects it |
| Gate.ProtectRoute | index.js:36-45 | answers only 401, 400 or 403; 401 exactly when no token is present; 400 exactly when a token is present and rejected; 403 "Permissão negada" exactly when the token is valid and a non-empty required role differs from the claimed one; proceeds exactly otherwise, with `user` set to the decoded claims |
| Gate.MissingTokenSkipsVerifier | index.js:25-28 | without a token the outcome is 401 whichever verifier is supplied, so verification is never attempted |
| Gate.RejectionPrecedesRoleCheck | index.js:28-40 | when authentication halts, the gate answers the same for every required role, and that answer is `verifyToken`'s |
| Gate.NoRoleIsVerifyToken | index.js:39 | with no required role, the gate is exactly `verifyToken`: any valid token proceeds with `req.user` set to the decoded claims |
| Routes.Login | index.js:55-63 | answers only 200 or 401; 401 with "Usuário ou senha incorretos" and no token exactly when no user matches both fields; otherwise 200 with a token signed over `{userId, perfil}` of the first matching user |
| Tokens.GenerateToken | index.js:20-22 | signs the claims `{userId: u.id, perfil: u.perfil}`: every verifier that accepts what `sign` issues decodes the token, which is non-empty, to exactly those claims (`Routes.Login`'s ensures states the same claim shape directly, without going through this function) |
| Routes.LoginIssuesOwnClaims | index.js:20-22 | with unique usernames, logging in with a user's own credentials issues a token that the gate accepts with the claims `{userId: user.id, perfil: user.perfil}` |
| Routes.ListUsersRoute | index.js:65-67 | answers 200 exactly when the admin gate proceeds, and then the full password-free listing; otherwise the gate's own response |
| Routes.Me | index.js:69-73 | the gate's 401/400 response when verification halts; throws exactly when the token is valid and no user has the claimed id; otherwise 200 with the claimed id and the role of the first user with that id |
| Routes.ContractsRoute | index.js:75-80 | answers 200 exactly when the admin gate proceeds, and then the single contract record for the sanitised company; otherwise the gate's own response |
| Routes.LoginThenMe | index.js:55-73 | with unique usernames and ids, `/api/me` called with the token from a user's own login answers that user's id and role |
| Routes.LoginThenListUsers | index.js:36-67 | with unique usernames and the token from a user's own login, the listing is served to an admin and refused with 403 to any other role |
| Routes.MockDirectoryScenario | index.js:15-73 | on the mocked directory: the admin logs in, `/api/me` answers `{id: 1, perfil: "admin"}` and the listing shows both users without passwords; the other user is refused the listing; a wrong password is refused with 401 |

## Left out

- Signing and verification internals are not modelled: HS256, the secret, signature checking and the one-hour expiry. Verification depends on the wall clock and happens in a foreign library. Both are parameters here: `sign`, and the `verify` oracle.
- The decoded payload is modelled as `{userId, perfil}` only. The `iat` and `exp` fields the library adds are dropped. So are the differently shaped payloads that a token signed elsewhere with the same secret could carry, such as a missing `perfil` or a non-numeric `userId`.
- `sign` is one fixed function. Real signing embeds the issue time, so two logins by the same user can yield different tokens.
- The Express app, routing and path matching (`:empresa` URL decoding), `express.json`, `helmet`, `app.listen` and console logging are not modelled. They are framework and I/O plumbing.
- `dotenv` and the `SECRET_KEY`/`PORT` fallbacks are not modelled.
- The login body is modelled as two optional strings. A field that is absent or is not a string equals no stored string under `===`, so it is `None`. A request with no parsed body at all, where destructuring `req.body` throws, is not modelled.
- The callback style of `jwt.verify` and `next()` is left out. It is replaced by sequential decision functions, since the asynchrony carries no behaviour of its own.
- Routes.Me: when no user has the claimed id, the source dereferences `undefined` and throws. The model returns `Threw` and gives no status, because the status then comes from the framework's error handler.
- Sanitizer.Sanitize works on Unicode scalar values, while JavaScript matches the character class against UTF-16 code units. Both halves of a surrogate pair lie outside `[a-zA-Z0-9]`, so both forms delete exactly the same characters.
