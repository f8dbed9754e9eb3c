/**
 * Option and Result values used throughout the model for JavaScript's
 * `undefined`/`null` fields and for handlers that answer with an error status.
 */
module Wrappers {

  datatype Option<+T> = None | Some(value: T) {
    /** `x || fallback` on an optional value. */
    function GetOr(fallback: T): T {
      match this
      case Some(v) => v
      case None => fallback
    }
  }

  /** An HTTP-style error: a status code together with the JSON `message`. */
  datatype ApiError = ApiError(status: int, message: string)

  datatype Result<+R> = Ok(value: R) | Err(error: ApiError) {
    predicate IsOk() { Ok? }
  }
}
