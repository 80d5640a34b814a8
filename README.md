# Password-grant token service and model docs routes, in Dafny

This project models the token service of the test server (`modules/test/server/routes/auth.js`)
and the name ordering of its documentation routes (`modules/test/server/routes/docs.js`).

- `Authenticator.Authenticate` is the password grant. It checks the grant type, that the client
  exists, the client secret, the scope and the user's credentials, in that order. The first
  failing check decides the error. On success it signs the claims of the user and returns the
  token envelope: `token_type` "bearer", `expires_in` in seconds, and the requested scope.
- `Authenticator.GetToken` introspects a token at a given time. It returns `{active:false}`
  (`Inactive`) or the verified claims with `active:true` (`Active`). A verification error other
  than `JsonWebTokenError` is rethrown.
- `AuthorizationHeader.ParseBearer` reads `Authorization: Bearer <token>` the way the regular
  expression `^Bearer\s(.*?)$` with the `i` flag does.
- `Strategies.BearerVerify` and `Strategies.BasicVerify` are the passport callbacks. Each gives
  either an error or the identity put on the request.
- `Revocation.AccessTokenStore.Logout` is GET /logout. It sets the `expires` field of the stored
  AccessToken record of the presented token to the current time. This is imperative: the store
  is a class whose `records` map the method reassigns.
- `Docs.OrderByName` is the three-way comparator. `Docs.SortByName` sorts an array in place with
  it. `Docs.ListModels` builds the sorted models listing. `Docs.ShowModel` sorts a model's own
  attributes array in place and renders it.

Signing and verification are an abstract pair, `Tokens.Codec`. Its predicate `Sound()` says two
things. Verifying a signed payload gives that payload back. A string that is not three
dot-separated segments is rejected as `JsonWebTokenError`. Time (milliseconds), the token's GUID
and the configured `auth/timeout` are parameters. Clients and users are maps keyed by
`client_id` and by `name`. `client.hasScope` and `User.validateUser` are opaque boolean functions
held in `Store.Directory`.

Some consequences of the code that the model keeps:

- A wrong grant type, an unknown client and an unauthorised scope are BadRequest (400). A wrong
  secret and wrong user credentials are Unauthorized (401).
- Introspection rethrows verification errors other than `JsonWebTokenError`. It does not turn
  them into `{active:false}`.
- Neither introspection nor the Bearer strategy reads the AccessToken record that logout
  updates. The token's own `exp` claim is the only expiry. `GetToken` and `BearerVerify`
  therefore take no record store.
- Taking `Args.check` as a truthiness test (see "## Left out"), an absent or empty Authorization
  header is a 401 on /logout and a 400 on `getRequestToken`.

## Model

| member | source | states |
|---|---|---|
| `Authenticator.TimeoutMinutes` | modules/test/server/routes/auth.js:77 | the timeout is never 0: an unset setting or a setting of 0 gives 60 minutes, any other value is used as is |
| `Authenticator.TimeoutMillis` | modules/test/server/routes/auth.js:77-78 | the lifetime in milliseconds is non-zero and a whole number of seconds, so `parseInt(expirationTimeout / 1000)` is exactly minutes * 60 |
| `Authenticator.Payload` | modules/test/server/routes/auth.js:85-96 | the signed claims: `sub` is the user id, `username` and `preferred_username` are the user name, `name` is the description, the requested scope, `aud` "account", `typ` "Bearer", the issuer, the jti and `exp` |
| `Authenticator.Passes` | modules/test/server/routes/auth.js:60-74 | the condition of each check: grant type "password", client known, client secret equal, client holds the scope, validateUser true; the secret and scope checks pass only for a known client |
| `Authenticator.Rejection` | modules/test/server/routes/auth.js:60-75 | the error of each check: the secret and user-credential checks give 401, the other three give 400 |
| `Authenticator.FirstFailing` | modules/test/server/routes/auth.js:60-75 | reference definition of fail-fast order: every check before the returned position passes, and the check at that position fails |
| `Authenticator.Authenticate` | modules/test/server/routes/auth.js:59-104 | success implies every check passed and the user record exists; the envelope has `token_type` "bearer", the requested scope, `expires_in` = minutes * 60, and the token is the signature of the user's claims expiring at now + minutes * 60000 ms |
| `Authenticator.AuthenticateFollowsCheckOrder` | modules/test/server/routes/auth.js:60-82 | the error is that of the first failing check in the fixed order; when all pass, success iff the user record is found |
| `Authenticator.WrongPasswordIsUnauthorized` | modules/test/server/routes/auth.js:73-75 | with all client checks passing, bad user credentials give Unauthorized "Invalid user credentials", status 401 |
| `Errors.StatusCode` | modules/test/server/routes/auth.js:218 | the `statusCode` of each HTTP error class (400, 401, 403, 404, 498, 499); a rethrown error keeps its own |
| `Authenticator.TimeValue` | modules/test/server/routes/auth.js:147 | `new Date(exp).getTime()` is a number exactly when `exp` is present and within the range of dates, and then equals `exp` |
| `Authenticator.Expired` | modules/test/server/routes/auth.js:147 | a token is expired iff its `exp` is present, within the range of dates, and strictly before now; a NaN comparison is never an expiry |
| `Authenticator.GetToken` | modules/test/server/routes/auth.js:124-157 | `{active:false}` iff the token is rejected as JsonWebTokenError or its expiry is strictly before now; active with exactly the verified claims otherwise; every other rejection is rethrown with its name and status code |
| `Authenticator.InactiveIsMonotone` | modules/test/server/routes/auth.js:147-151 | a token inactive at some time is inactive at every later time |
| `Authenticator.MalformedTokenIsInactive` | modules/test/server/routes/auth.js:127-144 | with a sound codec, a token without a dot (such as "test-token") is inactive |
| `Authenticator.IssuedTokenIsActive` | modules/test/server/routes/auth.js:77-103 | a token just issued introspects as active up to its expiry, carrying the issued claims |
| `Authenticator.IssuedTokenExpires` | modules/test/server/routes/auth.js:147-151 | after its expiry an issued token introspects as inactive |
| `AuthorizationHeader.ParseBearer` | modules/test/server/routes/auth.js:111-116 | an absent or empty header is Missing; a token is found iff the header is "Bearer" in any ASCII case, one `\s` character and a remainder without line terminators, and the token is that remainder |
| `AuthorizationHeader.ParseRecoversToken` | modules/test/server/routes/auth.js:114-116 | any casing of the scheme and any space character give back a single-line token unchanged |
| `AuthorizationHeader.BearerHeaderRoundTrip` | modules/test/server/routes/auth.js:114-116 | parsing "Bearer " + token gives the token back when it is single-line |
| `AuthorizationHeader.MultiLineTokenIsMalformed` | modules/test/server/routes/auth.js:114-115 | a token containing a line terminator makes the header malformed |
| `AuthorizationHeader.GetRequestToken` | modules/test/server/routes/auth.js:109-116 | a missing header and a malformed header are both 400 with their own messages; otherwise the parsed token |
| `Strategies.BearerVerify` | modules/test/server/routes/auth.js:177-223 | a null token gives TokenRequired; an introspection error with status 404 gives TokenRequired "Token not found" and any other is passed on; inactive gives TokenExpired; an unknown user gives Forbidden; a disabled user gives Forbidden "account disabled"; success iff active, known and not disabled, with the identity of that user, the token and the token's scope |
| `Strategies.BasicVerify` | modules/test/server/routes/auth.js:229-246 | succeeds iff the client id is known and its secret matches, giving the Basic identity named by the client id; otherwise Forbidden "Invalid client credentials" |
| `Strategies.BasicMatchesClientQuery` | modules/test/server/routes/auth.js:230-238 | in a well-keyed store, the map lookup admits exactly the pairs for which some client record matches both `client_id` and `client_secret` |
| `Strategies.IssuedTokenAuthenticatesUser` | modules/test/server/routes/auth.js:187-215 | a token from the password grant yields, until it expires, the Bearer identity of the user who asked for it, with the requested scope, unless the account is disabled |
| `Strategies.DisabledAfterIssueIsForbidden` | modules/test/server/routes/auth.js:204-207 | disabling the user after issuance makes the Bearer strategy answer Forbidden "account disabled" while the token still introspects as active |
| `Strategies.ExpiredTokenIsRejected` | modules/test/server/routes/auth.js:191-193 | an issued token past its expiry gives TokenExpired |
| `Revocation.LogoutTarget` | modules/test/server/routes/auth.js:347-355 | a missing header is 401, a malformed one 400, a token without a stored record 400 "Invalid token."; otherwise the parsed token, which has a record |
| `Revocation.Revoke` | modules/test/server/routes/auth.js:356-357 | only the revoked record changes, and only its `expires`, which becomes now; the set of records is the same |
| `Revocation.AccessTokenStore.Logout` | modules/test/server/routes/auth.js:345-366 | fails exactly when the target cannot be determined, leaving the store as it was; otherwise answers 204 and the store becomes the revoked records |
| `Docs.Below` | modules/test/server/routes/docs.js:8-11 | JavaScript string `<`: a string is never below itself, and a proper prefix is below the longer string |
| `Docs.BelowTotal` | modules/test/server/routes/docs.js:8-13 | of two different names one is less than the other under JavaScript string comparison |
| `Docs.BelowTransitive` | modules/test/server/routes/docs.js:8-13 | string comparison is transitive |
| `Docs.BelowAsymmetric` | modules/test/server/routes/docs.js:8-13 | no two names are each less than the other |
| `Docs.OrderByName` | modules/test/server/routes/docs.js:7-15 | 1 iff a's name is greater, -1 iff it is smaller, 0 iff the names are equal |
| `Docs.OrderByNameAntisymmetric` | modules/test/server/routes/docs.js:7-15 | `orderByName(a, b) == -orderByName(b, a)` |
| `Docs.NeighboursInOrderSort` | modules/test/server/routes/docs.js:31 | neighbours in order under `orderByName` make the whole sequence ordered |
| `Docs.SortByName` | modules/test/server/routes/docs.js:31 | the array is sorted in place ascending by name and is a permutation of its old contents |
| `Docs.Summaries` | modules/test/server/routes/docs.js:40-46 | one entry per model name, carrying only the definition's name, inherits and implements |
| `Docs.ListModels` | modules/test/server/routes/docs.js:35-51 | the listing is a permutation of the summaries of the loader's model names, sorted ascending by name |
| `Docs.ShowModel` | modules/test/server/routes/docs.js:21-34 | a name that resolves to no model is NotFound; otherwise the model's attributes array is sorted in place by name, is a permutation of its old contents, and is what the page shows |

## Left out

- Key loading in the `Authenticator` constructor (`fs.readFileSync`, path resolution) is file I/O. RS256 signing and verification are cryptography. The codec is an abstract pair, and the model assumes only `Codec.Sound()`. So tampering with a token is not modelled.
- The GUID (`Guid.newGuid`) and the clock (`new Date()`) are parameters.
- The ORM queries are map lookups that always answer. A store failure (such as lost connectivity) is not modelled. So in `BearerVerify` the 404 branch of the catch is reachable only through a verification error that carries status 404.
- `client.hasScope` and `User.validateUser` (password hashing) are not part of this model. They are opaque boolean functions.
- jsonwebtoken's own checks of `exp` (read in seconds) and `nbf` are not modelled. Verification does not depend on the time, so `TokenExpiredError` is one of the rethrown rejections.
- The `info == null` branch of the Bearer callback cannot be reached, because `getToken` always returns an object. `GetToken` has no such result.
- `getRequestToken` passes two arguments to the one-argument `getToken`. `GetRequestToken` models the header handling only.
- The `continue` redirect of /logout is not modelled. Neither are passport registration, Express routing, `/token` and `/token_info` forwarding, `/me`, `/`, `/login` (GET and POST) and view rendering. `ModelView` is the data handed to the view.
- `Args.check` (from `@themost/common`) is not part of this model. `ParseBearer` and `LogoutTarget` take it to be a truthiness test on the header: an absent or empty header raises the HTTP error given to it.
- Missing request-body fields (`undefined`) are not modelled: the fields of a token request are strings.
- `auth/timeout` is an optional integer. A string or fractional setting read by `parseInt`, and a NaN result, are not modelled. Integers are unbounded, so JavaScript's 2^53 precision limit is not modelled.
- `BasicVerify`: the ORM's not-found value is taken to be `null`. The callback tests it with `=== null`, so an `undefined` result would pass the check. What the ORM returns is not part of this model.
- `Below` compares characters as Unicode scalar values. JavaScript compares UTF-16 code units, and the two orders differ between supplementary-plane characters and U+E000 to U+FFFF.
- `SortByName`: does not state stability. `Array.prototype.sort` is stable, and its engine algorithm is not modelled. The model is an insertion sort, proved to give a sorted permutation.
- `ListModels`: requires every listed name to have a definition. The schema loader lists only loaded definitions. A missing one would make the source throw a TypeError.
- The model classes, the server wiring (`app.js`, `standalone.js`), the type declarations and the tooling configuration are not part of this model.
