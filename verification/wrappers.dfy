/** Optional values, standing in for JavaScript's `undefined`. */
module Wrappers {

  /** A value that may be absent. */
  datatype Option<+T> = None | Some(value: T) {

    /** Returns the value held by Some, or `default` when None */
    function GetOr(default: T): T {
      match this
      case Some(v) => v
      case None => default
    }
  }

  /** Either a value or the error that a computation stopped with. */
  datatype Result<+R, +E> = Success(value: R) | Failure(error: E)
}
