/** Optional values and results with an error, as the screen's JavaScript uses
    `null`/`undefined` and thrown exceptions. */
module Wrappers {

  /** A value that may be missing: a JavaScript property that is absent, or a
      state cell that holds `null`. */
  datatype Option<+T> = None | Some(value: T) {

    /** The value, or `default` when it is missing: JavaScript's `x ?? default`. */
    function GetOr(default: T): T {
      match this
      case Some(v) => v
      case None => default
    }
  }

  /** The outcome of an operation that either produces a value or throws. */
  datatype Result<+R, +E> = Success(value: R) | Failure(error: E)
}
