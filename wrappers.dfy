/** Optional values and failure-carrying results, as Swift's `Optional` and `throws` are used by the package. */
module Wrappers {

  /** Swift's `T?`. */
  datatype Option<+T> = None | Some(value: T) {

    /** The value, or `default` when there is none (Swift's `??`). */
    function GetOr(default: T): T {
      match this
      case Some(v) => v
      case None => default
    }
  }

  /** The outcome of a throwing function that yields a value. */
  datatype Result<+R, +E> = Success(value: R) | Failure(error: E)

  /** The outcome of a throwing function that yields nothing. */
  datatype Outcome<+E> = Pass | Fail(error: E)
}
