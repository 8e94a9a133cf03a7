/** Option and Result, the two failure-aware wrappers used across the model. */
module Wrappers {

  datatype Option<+T> = None | Some(value: T) {
    function GetOr(default: T): T {
      match this
      case Some(v) => v
      case None => default
    }
  }

  /** A value, or the error a Python `raise` would have carried. */
  datatype Result<+T, +E> = Success(value: T) | Failure(error: E)
}
