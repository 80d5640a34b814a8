/**
 * The two passport callbacks registered by `authRouter`: the Bearer strategy,
 * which resolves a presented token to a user, and the Basic strategy, which
 * checks a client_id/client_secret pair.
 */
module Strategies {
  import opened Results
  import opened Errors
  import opened Tokens
  import opened Store
  import opened Authenticator

  /** The identity handed to the request context. */
  datatype Identity =
    | BearerIdentity(name: string, authenticationProviderKey: int, authenticationToken: string, authenticationScope: string)
    | BasicIdentity(name: string)
  {
    function AuthenticationType(): string {
      if BearerIdentity? then "Bearer" else "Basic"
    }
  }

  const AccountDisabled: string := "Access is denied. User account is disabled."
  const TokenNotFound: string := "Token not found"
  const InvalidClientCredentials: string := "Invalid client credentials"

  /**
   * The Bearer strategy's callback for `token` at time `now`. The user is looked
   * up by the `username` claim; errors raised while introspecting reach the
   * promise's catch, which turns a 404 into TokenRequired.
   */
  function BearerVerify(codec: Codec, dir: Directory, token: Option<string>, now: int): (r: Result<Identity, Error>)
    ensures token.None? ==> r == Failure(TokenRequired(None))
    ensures r.Success? <==>
      && token.Some?
      && GetToken(codec, token.value, now).Success?
      && GetToken(codec, token.value, now).value.Active?
      && GetToken(codec, token.value, now).value.claims.username in dir.users
      && dir.users[GetToken(codec, token.value, now).value.claims.username].enabled != Some(false)
    ensures r.Success? ==>
      var claims := GetToken(codec, token.value, now).value.claims;
      var user := dir.users[claims.username];
      r.value == BearerIdentity(user.name, user.id, token.value, claims.scope)
    ensures token.Some? && GetToken(codec, token.value, now) == Success(Inactive) ==> r == Failure(TokenExpired)
    ensures token.Some? && GetToken(codec, token.value, now).Failure? ==>
      r == (var e := GetToken(codec, token.value, now).error;
            if StatusCode(e) == Some(404) then Failure(TokenRequired(Some(TokenNotFound))) else Failure(e))
    ensures token.Some? && GetToken(codec, token.value, now).Success? && GetToken(codec, token.value, now).value.Active? ==>
      var name := GetToken(codec, token.value, now).value.claims.username;
      && (name !in dir.users ==> r == Failure(Forbidden(None)))
      && (name in dir.users && dir.users[name].enabled == Some(false) ==> r == Failure(Forbidden(Some(AccountDisabled))))
    ensures r.Failure? && r.error.Forbidden? ==>
      && token.Some? && GetToken(codec, token.value, now).Success?
      && GetToken(codec, token.value, now).value.Active?
      && var name := GetToken(codec, token.value, now).value.claims.username;
         (name !in dir.users ==> r.error.detail == None)
         && (name in dir.users ==> dir.users[name].enabled == Some(false) && r.error.detail == Some(AccountDisabled))
  {
    match token
    case None => Failure(TokenRequired(None))
    case Some(t) =>
      match GetToken(codec, t, now)
      case Failure(err) =>
        if StatusCode(err) == Some(404) then Failure(TokenRequired(Some(TokenNotFound))) else Failure(err)
      case Success(Inactive) => Failure(TokenExpired)
      case Success(Active(info)) =>
        if info.username !in dir.users then Failure(Forbidden(None))
        else
          var user := dir.users[info.username];
          if user.enabled == Some(false) then Failure(Forbidden(Some(AccountDisabled)))
          else Success(BearerIdentity(user.name, user.id, t, info.scope))
  }

  /** The Basic strategy's callback: a client matching both the id and the secret. */
  function BasicVerify(dir: Directory, clientId: string, clientSecret: string): (r: Result<Identity, Error>)
    ensures r.Success? <==> clientId in dir.clients && dir.clients[clientId].clientSecret == clientSecret
    ensures r.Success? ==> r.value == BasicIdentity(clientId) && r.value.AuthenticationType() == "Basic"
    ensures r.Failure? ==> r.error == Forbidden(Some(InvalidClientCredentials))
  {
    if clientId in dir.clients && dir.clients[clientId].clientSecret == clientSecret then
      Success(BasicIdentity(clientId))
    else
      Failure(Forbidden(Some(InvalidClientCredentials)))
  }

  /** The Basic strategy admits exactly the pairs some stored client carries. */
  lemma BasicMatchesClientQuery(dir: Directory, clientId: string, clientSecret: string)
    requires dir.Valid()
    ensures BasicVerify(dir, clientId, clientSecret).Success? <==>
      exists c :: c in dir.clients.Values && c.clientId == clientId && c.clientSecret == clientSecret
  {
  }

  /**
   * A token issued by the password grant authenticates its user on a Bearer
   * route until it expires, as long as the account is not disabled.
   */
  lemma IssuedTokenAuthenticatesUser(codec: Codec, dir: Directory, timeout: Option<int>, request: TokenRequest,
                                     jti: string, now: int, later: int)
    requires codec.Sound() && dir.Valid()
    requires Authenticate(codec, dir, timeout, request, jti, now).Success?
    requires later <= now + TimeoutMillis(timeout)
    requires dir.users[request.username].enabled != Some(false)
    ensures var token := Authenticate(codec, dir, timeout, request, jti, now).value.accessToken;
      var user := dir.users[request.username];
      BearerVerify(codec, dir, Some(token), later) == Success(BearerIdentity(user.name, user.id, token, request.scope))
  {
  }

  /**
   * Disabling an account after a token was issued to it denies the token on a
   * Bearer route with the "account disabled" Forbidden, although the token still verifies.
   */
  lemma DisabledAfterIssueIsForbidden(codec: Codec, dir: Directory, timeout: Option<int>, request: TokenRequest,
                                      jti: string, now: int, later: int)
    requires codec.Sound() && dir.Valid()
    requires Authenticate(codec, dir, timeout, request, jti, now).Success?
    requires later <= now + TimeoutMillis(timeout)
    ensures var token := Authenticate(codec, dir, timeout, request, jti, now).value.accessToken;
      var user := dir.users[request.username];
      var disabled := dir.(users := dir.users[request.username := user.(enabled := Some(false))]);
      && GetToken(codec, token, later).Success? && GetToken(codec, token, later).value.Active?
      && BearerVerify(codec, disabled, Some(token), later) == Failure(Forbidden(Some(AccountDisabled)))
  {
  }

  /** An expired token is rejected with TokenExpired before any user lookup. */
  lemma ExpiredTokenIsRejected(codec: Codec, dir: Directory, timeout: Option<int>, request: TokenRequest,
                               jti: string, now: int, later: int)
    requires codec.Sound()
    requires Authenticate(codec, dir, timeout, request, jti, now).Success?
    requires -MaxTimeValue <= now + TimeoutMillis(timeout) <= MaxTimeValue
    requires now + TimeoutMillis(timeout) < later
    ensures var token := Authenticate(codec, dir, timeout, request, jti, now).value.accessToken;
      BearerVerify(codec, dir, Some(token), later) == Failure(TokenExpired)
  {
  }
}
