/** Optional values and success/failure results used across the model. */
module Wrappers {

  /** Python's `Optional[T]`: `None` or a value. */
  datatype Option<+T> = None | Some(value: T) {

    /** The value, or `default` when there is none. */
    function GetOr(default: T): T {
      match this
      case Some(v) => v
      case None => default
    }
  }

  /** The outcome of an operation that either builds a value or fails with a message. */
  datatype Result<+T> = Success(value: T) | Failure(error: string)
}
