/** Option and Result, the two failure-carrying wrappers used throughout the model. */
module Wrappers {

  /** A value that may be absent: a JSON field or query parameter that was not sent. */
  datatype Option<+T> = None | Some(value: T)

  /** The outcome of a request handler: a value, or the error it answers with. */
  datatype Result<+T, +E> = Success(value: T) | Failure(error: E)
}

/** The error answers the handlers send, with their HTTP status codes. */
module Http {

  datatype Error =
    | Invalid(paths: seq<string>)  // schema validation failed on these paths
    | MissingParameter             // a required query parameter is absent or empty
    | SaveRejected                 // the store refused to save a document
    | Unauthorized                 // no bearer token, or bad credentials at login
    | Forbidden                    // the bearer token did not verify
    | NotFound                     // no document has the requested id
  {
    function Status(): (code: int)
      ensures 400 <= code < 500
      ensures code == 400 <==> (Invalid? || MissingParameter? || SaveRejected?)
      ensures code == 401 <==> Unauthorized?
      ensures code == 403 <==> Forbidden?
      ensures code == 404 <==> NotFound?
    {
      match this
      case Invalid(_) => 400
      case MissingParameter => 400
      case SaveRejected => 400
      case Unauthorized => 401
      case Forbidden => 403
      case NotFound => 404
    }
  }
}
