/**
 * The password-grant token service: `authenticate` issues a signed token after a
 * fixed sequence of checks, `getToken` introspects a presented token.
 */
module Authenticator {
  import opened Results
  import opened Errors
  import opened Tokens
  import opened Store

  /** The body of a POST /token request. */
  datatype TokenRequest = TokenRequest(
    clientId: string,
    clientSecret: string,
    username: string,
    password: string,
    grantType: string,
    scope: string)

  /** The response of a successful password grant. `expiresIn` is in seconds. */
  datatype TokenEnvelope = TokenEnvelope(accessToken: string, tokenType: string, expiresIn: int, scope: string)

  const DefaultTimeoutMinutes: int := 60
  const Audience: string := "account"
  const Issuer: string := "urn:themost-framework:test"

  /**
   * The configured `auth/timeout` in minutes. The source reads it as
   * `setting || 60`, so an absent setting and a setting of 0 both give 60.
   */
  function TimeoutMinutes(setting: Option<int>): (m: int)
    ensures m != 0
    ensures setting.None? ==> m == DefaultTimeoutMinutes
    ensures setting == Some(0) ==> m == DefaultTimeoutMinutes
    ensures setting.Some? && setting.value != 0 ==> m == setting.value
  {
    match setting
    case None => DefaultTimeoutMinutes
    case Some(v) => if v == 0 then DefaultTimeoutMinutes else v
  }

  /**
   * The token lifetime in milliseconds. It is a whole number of seconds, so
   * `parseInt(expirationTimeout / 1000)` is exact: minutes * 60.
   */
  function TimeoutMillis(setting: Option<int>): (ms: int)
    ensures ms != 0
    ensures ms % 1000 == 0 && ms / 1000 == TimeoutMinutes(setting) * 60
  {
    TimeoutMinutes(setting) * 60 * 1000
  }

  /** The claims signed into a token issued to `user`. */
  function Payload(user: User, scope: string, jti: string, expires: int): (c: Claims)
    ensures c.sub == user.id && c.jti == jti && c.exp == Some(expires)
    ensures c.username == user.name && c.preferredUsername == user.name && c.name == user.description
    ensures c.scope == scope && c.aud == Audience && c.typ == "Bearer" && c.iss == Issuer
  {
    Claims(user.id, jti, Audience, Some(expires), "Bearer", Issuer, scope, user.description, user.name, user.name)
  }

  // ---------------------------------------------------------------------------
  // The checks of `authenticate`, as an independent reference definition:
  // the first check of CheckOrder that fails decides the error.

  datatype Check = GrantIsPassword | ClientKnown | SecretMatches | ScopeGranted | UserValid

  const CheckOrder: seq<Check> := [GrantIsPassword, ClientKnown, SecretMatches, ScopeGranted, UserValid]

  /**
   * The condition each `Args.check` of `authenticate` tests. The secret and scope
   * checks read the client found by the lookup, so they pass only for a known client.
   */
  function Passes(check: Check, dir: Directory, request: TokenRequest): (b: bool)
    ensures check == GrantIsPassword ==> (b <==> request.grantType == "password")
    ensures check == ClientKnown ==> (b <==> request.clientId in dir.clients)
    ensures check == SecretMatches ==>
      (b <==> request.clientId in dir.clients && dir.clients[request.clientId].clientSecret == request.clientSecret)
    ensures check == ScopeGranted ==>
      (b <==> request.clientId in dir.clients && dir.hasScope(dir.clients[request.clientId], request.scope))
    ensures check == UserValid ==> (b <==> dir.validateUser(request.username, request.password))
  {
    match check
    case GrantIsPassword => request.grantType == "password"
    case ClientKnown => request.clientId in dir.clients
    case SecretMatches =>
      request.clientId in dir.clients && dir.clients[request.clientId].clientSecret == request.clientSecret
    case ScopeGranted =>
      request.clientId in dir.clients && dir.hasScope(dir.clients[request.clientId], request.scope)
    case UserValid => dir.validateUser(request.username, request.password)
  }

  /** The error each check raises when it fails. */
  function Rejection(check: Check): (e: Error)
    ensures StatusCode(e) == Some(if check in {SecretMatches, UserValid} then 401 else 400)
  {
    match check
    case GrantIsPassword => BadRequest("Invalid grant type. Expected grant type password")
    case ClientKnown => BadRequest("Invalid client.")
    case SecretMatches => Unauthorized("Invalid client credentials")
    case ScopeGranted => BadRequest("Invalid client scope.")
    case UserValid => Unauthorized("Invalid user credentials")
  }

  /** The position of the first check of `checks` that fails; |checks| when all pass. */
  function FirstFailing(checks: seq<Check>, dir: Directory, request: TokenRequest): (k: nat)
    ensures k <= |checks|
    ensures forall i :: 0 <= i < k ==> Passes(checks[i], dir, request)
    ensures k < |checks| ==> !Passes(checks[k], dir, request)
  {
    if checks == [] || !Passes(checks[0], dir, request) then 0
    else 1 + FirstFailing(checks[1..], dir, request)
  }

  // ---------------------------------------------------------------------------

  /**
   * `Authenticator.authenticate`: the password grant. `jti` is the fresh GUID of
   * the token and `now` the current time in milliseconds.
   */
  function Authenticate(codec: Codec, dir: Directory, timeout: Option<int>, request: TokenRequest,
                        jti: string, now: int): (r: Result<TokenEnvelope, Error>)
    ensures r.Success? ==>
      && (forall i :: 0 <= i < |CheckOrder| ==> Passes(CheckOrder[i], dir, request))
      && request.username in dir.users
    ensures r.Success? ==>
      && r.value.tokenType == "bearer"
      && r.value.scope == request.scope
      && r.value.expiresIn == TimeoutMinutes(timeout) * 60
      && r.value.accessToken == codec.sign(Payload(dir.users[request.username], request.scope, jti, now + TimeoutMillis(timeout)))
  {
    if request.grantType != "password" then
      Failure(BadRequest("Invalid grant type. Expected grant type password"))
    else if request.clientId !in dir.clients then
      Failure(BadRequest("Invalid client."))
    else
      var client := dir.clients[request.clientId];
      if client.clientSecret != request.clientSecret then
        Failure(Unauthorized("Invalid client credentials"))
      else if !dir.hasScope(client, request.scope) then
        Failure(BadRequest("Invalid client scope."))
      else if !dir.validateUser(request.username, request.password) then
        Failure(Unauthorized("Invalid user credentials"))
      else
        var expirationTimeout := TimeoutMillis(timeout);
        var expires := now + expirationTimeout;
        if request.username !in dir.users then
          // `user.id` on a null user
          Failure(Thrown("TypeError", None))
        else
          var user := dir.users[request.username];
          var accessToken := codec.sign(Payload(user, request.scope, jti, expires));
          Success(TokenEnvelope(accessToken, "bearer", expirationTimeout / 1000, request.scope))
  }

  /** `authenticate` fails with the error of the first failing check, and otherwise only on a missing user record. */
  lemma AuthenticateFollowsCheckOrder(codec: Codec, dir: Directory, timeout: Option<int>, request: TokenRequest,
                                      jti: string, now: int)
    ensures var r := Authenticate(codec, dir, timeout, request, jti, now);
      var k := FirstFailing(CheckOrder, dir, request);
      && (k < |CheckOrder| ==> r == Failure(Rejection(CheckOrder[k])))
      && (k == |CheckOrder| ==> (r.Success? <==> request.username in dir.users))
  {
    var k := FirstFailing(CheckOrder, dir, request);
    if k > 0 { assert Passes(CheckOrder[0], dir, request); }
    if k > 1 { assert Passes(CheckOrder[1], dir, request); }
    if k > 2 { assert Passes(CheckOrder[2], dir, request); }
    if k > 3 { assert Passes(CheckOrder[3], dir, request); }
    if k > 4 { assert Passes(CheckOrder[4], dir, request); }
  }

  /** A wrong password, with every client check passing, is a 401 and issues nothing. */
  lemma WrongPasswordIsUnauthorized(codec: Codec, dir: Directory, timeout: Option<int>, request: TokenRequest,
                                    jti: string, now: int)
    requires request.grantType == "password" && request.clientId in dir.clients
    requires dir.clients[request.clientId].clientSecret == request.clientSecret
    requires dir.hasScope(dir.clients[request.clientId], request.scope)
    requires !dir.validateUser(request.username, request.password)
    ensures Authenticate(codec, dir, timeout, request, jti, now) == Failure(Unauthorized("Invalid user credentials"))
    ensures StatusCode(Authenticate(codec, dir, timeout, request, jti, now).error) == Some(401)
  {
  }

  // ---------------------------------------------------------------------------
  // Introspection

  /** `{active: false}`, or the verified claims with `active: true`. */
  datatype Introspection = Inactive | Active(claims: Claims)

  /** The largest magnitude of a valid time value of a JavaScript Date. */
  const MaxTimeValue: int := 8_640_000_000_000_000

  /** `new Date(exp).getTime()`; None stands for NaN (no `exp`, or one outside the range of dates). */
  function TimeValue(exp: Option<int>): (t: Option<int>)
    ensures t.Some? <==> exp.Some? && -MaxTimeValue <= exp.value <= MaxTimeValue
    ensures t.Some? ==> t.value == exp.value
  {
    match exp
    case None => None
    case Some(e) => if -MaxTimeValue <= e <= MaxTimeValue then Some(e) else None
  }

  /** A comparison with NaN is false, so only a readable expiry strictly before `now` expires a token. */
  function Expired(c: Claims, now: int): (b: bool)
    ensures b <==> c.exp.Some? && -MaxTimeValue <= c.exp.value < now && c.exp.value <= MaxTimeValue
  {
    var t := TimeValue(c.exp);
    t.Some? && t.value < now
  }

  /** `Authenticator.getToken` at time `now` (milliseconds). */
  function GetToken(codec: Codec, accessToken: string, now: int): (r: Result<Introspection, Error>)
    ensures r == Success(Inactive) <==>
      match codec.verify(accessToken)
      case Rejected(e) => e.name == JsonWebTokenError
      case Verified(c) => Expired(c, now)
    ensures r.Success? && r.value.Active? <==>
      codec.verify(accessToken).Verified? && !Expired(codec.verify(accessToken).claims, now)
    ensures r.Success? && r.value.Active? ==> r.value.claims == codec.verify(accessToken).claims
    ensures r.Failure? ==>
      && codec.verify(accessToken).Rejected?
      && codec.verify(accessToken).error.name != JsonWebTokenError
      && r.error == Thrown(codec.verify(accessToken).error.name, codec.verify(accessToken).error.statusCode)
  {
    match codec.verify(accessToken)
    case Rejected(err) =>
      if err.name == JsonWebTokenError then Success(Inactive)
      else Failure(Thrown(err.name, err.statusCode))
    case Verified(decoded) =>
      if Expired(decoded, now) then Success(Inactive) else Success(Active(decoded))
  }

  /** Once a token is inactive it stays inactive at every later time. */
  lemma InactiveIsMonotone(codec: Codec, accessToken: string, now: int, later: int)
    requires now <= later
    requires GetToken(codec, accessToken, now) == Success(Inactive)
    ensures GetToken(codec, accessToken, later) == Success(Inactive)
  {
  }

  /** A string that is not a compact JWS, such as "test-token", introspects as inactive. */
  lemma MalformedTokenIsInactive(codec: Codec, accessToken: string, now: int)
    requires codec.Sound()
    requires '.' !in accessToken
    ensures GetToken(codec, accessToken, now) == Success(Inactive)
  {
  }

  /** A token just issued is active until its expiry, and introspection returns the issued claims. */
  lemma IssuedTokenIsActive(codec: Codec, dir: Directory, timeout: Option<int>, request: TokenRequest,
                            jti: string, now: int, later: int)
    requires codec.Sound()
    requires Authenticate(codec, dir, timeout, request, jti, now).Success?
    requires later <= now + TimeoutMillis(timeout)
    ensures request.username in dir.users
    ensures var user := dir.users[request.username];
      GetToken(codec, Authenticate(codec, dir, timeout, request, jti, now).value.accessToken, later)
        == Success(Active(Payload(user, request.scope, jti, now + TimeoutMillis(timeout))))
  {
  }

  /** After its expiry (a representable date) an issued token introspects as inactive. */
  lemma IssuedTokenExpires(codec: Codec, dir: Directory, timeout: Option<int>, request: TokenRequest,
                           jti: string, now: int, later: int)
    requires codec.Sound()
    requires Authenticate(codec, dir, timeout, request, jti, now).Success?
    requires -MaxTimeValue <= now + TimeoutMillis(timeout) <= MaxTimeValue
    requires now + TimeoutMillis(timeout) < later
    ensures GetToken(codec, Authenticate(codec, dir, timeout, request, jti, now).value.accessToken, later) == Success(Inactive)
  {
  }
}
