/** Optional values and results that carry an error instead of throwing. */
module Wrappers {

  /** A value that may be absent: JavaScript's `undefined` or `null` where the source allows it. */
  datatype Option<+T> = None | Some(value: T) {

    /** The value, or `default` when absent: JavaScript's `x ?? default`. */
    function GetOr(default: T): T {
      match this
      case Some(v) => v
      case None => default
    }
  }

  /** The outcome of an operation that may throw: the value it returns or the error it throws. */
  datatype Result<+R, +E> = Success(value: R) | Failure(error: E)
}
