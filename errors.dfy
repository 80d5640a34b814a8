/** The errors the authentication routes raise, as the HTTP error classes of the framework. */
module Errors {
  import opened Results

  datatype Error =
    | BadRequest(message: string)                    // HttpBadRequestError, 400
    | Unauthorized(message: string)                  // HttpUnauthorizedError, 401
    | Forbidden(detail: Option<string>)              // HttpForbiddenError, 403; None: the class's default message
    | NotFound                                       // HttpNotFoundError, 404
    | TokenExpired                                   // HttpTokenExpiredError, 498
    | TokenRequired(detail: Option<string>)          // HttpTokenRequiredError, 499; None: the class's default message
    | Thrown(name: string, statusCode: Option<int>)  // any other error, propagated unchanged

  /** The `statusCode` property of an error object, if it has one. */
  function StatusCode(e: Error): (code: Option<int>)
    ensures e.Thrown? ==> code == e.statusCode
    ensures !e.Thrown? ==> code.Some? && 400 <= code.value < 500
    ensures e.BadRequest? ==> code == Some(400)
    ensures e.Unauthorized? ==> code == Some(401)
    ensures e.Forbidden? ==> code == Some(403)
    ensures e.NotFound? ==> code == Some(404)
    ensures e.TokenExpired? ==> code == Some(498)
    ensures e.TokenRequired? ==> code == Some(499)
  {
    match e
    case BadRequest(_) => Some(400)
    case Unauthorized(_) => Some(401)
    case Forbidden(_) => Some(403)
    case NotFound => Some(404)
    case TokenExpired => Some(498)
    case TokenRequired(_) => Some(499)
    case Thrown(_, code) => code
  }
}
