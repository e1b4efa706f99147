/** Option and Result, the two failure-carrying shapes the model uses for
    Python's `None`/missing keys and for exceptions that callers catch. */
module Wrappers {

  datatype Option<+T> = None | Some(value: T) {
    function GetOr(default: T): T {
      match this
      case Some(v) => v
      case None => default
    }
  }

  datatype Result<+R, +E> = Success(value: R) | Failure(error: E)
}
