/** Failure-carrying return values shared by the whole model. */
module Wrappers {

  /** A value that may be absent: JavaScript's `null` / `undefined` for one field. */
  datatype Option<+T> = None | Some(value: T) {
    function GetOr(default: T): T {
      match this
      case Some(v) => v
      case None => default
    }
  }

  /** The outcome of an operation that may throw. */
  datatype Result<+R, +E> = Success(value: R) | Failure(error: E)
}
