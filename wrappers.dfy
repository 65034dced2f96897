/** Option and Result, the two failure-carrying wrappers the rest of the model uses. */
module Wrappers {

  /** A value that may be absent: `undefined` or `null` in the storefront's code. */
  datatype Option<+T> = None | Some(value: T) {
    function GetOr(default: T): T {
      match this
      case Some(v) => v
      case None => default
    }
  }

  /** The outcome of validating a request body against an insert schema. */
  datatype Result<+R, +E> = Success(value: R) | Failure(error: E)
}
