/** Failure-carrying values shared by the other modules. */
module Wrappers {

  /** A value that may be absent: JavaScript's `undefined` / `null` for an optional field. */
  datatype Option<+T> = None | Some(value: T) {
    function GetOr(default: T): T {
      match this
      case Some(v) => v
      case None => default
    }
  }

  /** The outcome of an operation that can throw or report an error. */
  datatype Result<+R, +E> = Success(value: R) | Failure(error: E)
}
