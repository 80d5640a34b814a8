/**
 * The claims carried inside an access token and the signing/verification pair
 * (RS256 in the source). The cryptography is not modelled: a codec is any pair of
 * functions, and `Sound` states what the rest of the model relies on.
 */
module Tokens {
  import opened Results

  /** The payload of a token. `exp` is in milliseconds; it is absent from a payload that does not carry it. */
  datatype Claims = Claims(
    sub: int,
    jti: string,
    aud: string,
    exp: Option<int>,
    typ: string,
    iss: string,
    scope: string,
    name: Option<string>,
    username: string,
    preferredUsername: string)

  /** An error raised by the verification library; `name` is its `err.name`. */
  datatype JwtError = JwtError(name: string, statusCode: Option<int>)

  const JsonWebTokenError: string := "JsonWebTokenError"

  datatype Verification = Verified(claims: Claims) | Rejected(error: JwtError)

  /** A private-key signer and the public-key verifier paired with it. */
  datatype Codec = Codec(sign: Claims -> string, verify: string -> Verification) {

    /**
     * Verification undoes signing, and a string that is not three dot-separated
     * segments is rejected as a JsonWebTokenError ("jwt malformed").
     */
    ghost predicate Sound() {
      && (forall c: Claims :: verify(sign(c)) == Verified(c))
      && (forall t: string :: !HasJwsShape(t) ==> verify(t) == Rejected(JwtError(JsonWebTokenError, None)))
    }
  }

  /** The number of occurrences of `ch` in `s`. */
  function Count(s: string, ch: char): (n: nat)
    ensures n <= |s|
    ensures n == 0 <==> ch !in s
  {
    if s == [] then 0 else (if s[0] == ch then 1 else 0) + Count(s[1..], ch)
  }

  /** A compact JWS is header.payload.signature: exactly two dots. */
  predicate HasJwsShape(t: string) {
    Count(t, '.') == 2
  }
}
