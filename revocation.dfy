/**
 * GET /logout: the stored AccessToken record of the presented bearer token is
 * marked expired at the current time and saved back.
 */
module Revocation {
  import opened Results
  import opened Errors
  import opened Store
  import opened AuthorizationHeader

  const NoContent: int := 204

  /** The record a logout request revokes, or the error it fails with. */
  function LogoutTarget(records: map<string, AccessToken>, header: Option<string>): (r: Result<string, Error>)
    ensures r.Success? <==> ParseBearer(header).Token? && ParseBearer(header).token in records
    ensures r.Success? ==> r.value == ParseBearer(header).token
    ensures ParseBearer(header).Missing? ==> r == Failure(Unauthorized("Missing client credentials."))
    ensures ParseBearer(header).Malformed? ==> r == Failure(BadRequest("Invalid authorization header."))
    ensures ParseBearer(header).Token? && ParseBearer(header).token !in records ==> r == Failure(BadRequest("Invalid token."))
  {
    match ParseBearer(header)
    case Missing => Failure(Unauthorized("Missing client credentials."))
    case Malformed => Failure(BadRequest("Invalid authorization header."))
    case Token(t) => if t in records then Success(t) else Failure(BadRequest("Invalid token."))
  }

  /** The records after the one stored for `token` expires at `now`: no other record and no other field changes. */
  function Revoke(records: map<string, AccessToken>, token: string, now: int): (r: map<string, AccessToken>)
    requires token in records
    ensures r.Keys == records.Keys
    ensures r[token].expires == now && r[token].accessToken == records[token].accessToken
    ensures forall k :: k in records && k != token ==> r[k] == records[k]
  {
    records[token := records[token].(expires := now)]
  }

  /** The store of AccessToken records, keyed by the token string. */
  class AccessTokenStore {
    var records: map<string, AccessToken>

    constructor (records: map<string, AccessToken>)
      ensures this.records == records
    {
      this.records := records;
    }

    /** GET /logout with the given Authorization header at time `now`; 204 on success. */
    method Logout(header: Option<string>, now: int) returns (r: Result<int, Error>)
      modifies this
      ensures r.Success? <==> LogoutTarget(old(records), header).Success?
      ensures r.Success? ==>
        && r.value == NoContent
        && records == Revoke(old(records), LogoutTarget(old(records), header).value, now)
      ensures r.Failure? ==> r.error == LogoutTarget(old(records), header).error && records == old(records)
    {
      var target := LogoutTarget(records, header);
      if target.Failure? {
        return Failure(target.error);
      }
      var accessToken := target.value;
      var token := records[accessToken];
      token := token.(expires := now);
      records := records[accessToken := token];
      return Success(NoContent);
    }
  }
}
