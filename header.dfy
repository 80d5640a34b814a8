/**
 * The `Authorization: Bearer <token>` header, read with the case-insensitive
 * regular expression `^Bearer\s(.*?)$` by `getRequestToken` and by GET /logout.
 */
module AuthorizationHeader {
  import opened Results
  import opened Errors

  datatype HeaderToken = Missing | Malformed | Token(token: string)

  /** The characters `\s` matches in a JavaScript regular expression. */
  predicate IsSpace(c: char) {
    || c in {'\t', '\n', '\U{000B}', '\U{000C}', '\r', ' ', '\U{00A0}', '\U{1680}',
             '\U{2028}', '\U{2029}', '\U{202F}', '\U{205F}', '\U{3000}', '\U{FEFF}'}
    || '\U{2000}' <= c <= '\U{200A}'
  }

  /** The characters `.` does not match, so that `(.*?)$` cannot run past them. */
  predicate IsLineTerminator(c: char) {
    c in {'\n', '\r', '\U{2028}', '\U{2029}'}
  }

  predicate SingleLine(s: string) {
    forall i :: 0 <= i < |s| ==> !IsLineTerminator(s[i])
  }

  /** `c` is the lower-case ASCII letter `lower` or its upper-case form (the `i` flag). */
  predicate SameLetterIgnoringCase(c: char, lower: char)
    requires 'a' <= lower <= 'z'
  {
    c == lower || c as int == lower as int - 32
  }

  const Scheme: string := "bearer"

  /** `s` spells "Bearer" in any mix of ASCII cases. */
  predicate IsBearerScheme(s: string) {
    |s| == |Scheme| && forall i :: 0 <= i < |Scheme| ==> SameLetterIgnoringCase(s[i], Scheme[i])
  }

  /**
   * The token of an Authorization header. An absent or empty header is Missing
   * (the source tests it for truthiness); a header the expression does not match
   * is Malformed; otherwise the token is what follows the one space character.
   */
  function ParseBearer(header: Option<string>): (r: HeaderToken)
    ensures r.Missing? <==> header.None? || header.value == []
    ensures r.Token? <==>
      && header.Some? && |header.value| > |Scheme|
      && IsBearerScheme(header.value[..|Scheme|])
      && IsSpace(header.value[|Scheme|])
      && SingleLine(header.value[|Scheme| + 1..])
    ensures r.Token? ==> header.value == header.value[..|Scheme| + 1] + r.token
  {
    match header
    case None => Missing
    case Some(h) =>
      if h == [] then Missing
      else if |h| > |Scheme| && IsBearerScheme(h[..|Scheme|]) && IsSpace(h[|Scheme|]) && SingleLine(h[|Scheme| + 1..])
      then Token(h[|Scheme| + 1..])
      else Malformed
  }

  /** The header a client sends for `token`. */
  function BearerHeader(token: string): (h: string)
    ensures |h| == |token| + 7
  {
    "Bearer " + token
  }

  /**
   * Whatever the case of the scheme and whichever space character follows it,
   * parsing gives back a single-line token unchanged.
   */
  lemma ParseRecoversToken(scheme: string, space: char, token: string)
    requires IsBearerScheme(scheme) && IsSpace(space) && SingleLine(token)
    ensures ParseBearer(Some(scheme + [space] + token)) == Token(token)
  {
  }

  /** Parsing the header built for a single-line token gives that token back. */
  lemma BearerHeaderRoundTrip(token: string)
    requires SingleLine(token)
    ensures ParseBearer(Some(BearerHeader(token))) == Token(token)
  {
  }

  /** A token that spans two lines is never extracted. */
  lemma MultiLineTokenIsMalformed(token: string)
    requires !SingleLine(token)
    ensures ParseBearer(Some(BearerHeader(token))) == Malformed
  {
  }

  /** `getRequestToken` up to its call of `getToken`: both header failures are 400s. */
  function GetRequestToken(header: Option<string>): (r: Result<string, Error>)
    ensures r.Success? <==> ParseBearer(header).Token?
    ensures r.Success? ==> r.value == ParseBearer(header).token
    ensures ParseBearer(header).Missing? ==> r == Failure(BadRequest("Missing authorization header."))
    ensures ParseBearer(header).Malformed? ==> r == Failure(BadRequest("Invalid authorization header."))
    ensures r.Failure? ==> StatusCode(r.error) == Some(400)
  {
    match ParseBearer(header)
    case Missing => Failure(BadRequest("Missing authorization header."))
    case Malformed => Failure(BadRequest("Invalid authorization header."))
    case Token(t) => Success(t)
  }
}
