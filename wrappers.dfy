/** Optional values and results with an error, as used throughout the model. */
module Wrappers {

  /** A value that may be absent: `undefined` in the source. */
  datatype Option<+T> = None | Some(value: T) {

    /** The value, or `default` when absent. */
    function GetOr(default: T): T {
      match this
      case Some(v) => v
      case None => default
    }
  }

  /** The outcome of a validation: the parsed value or the issue found. */
  datatype Result<+R, +E> = Success(value: R) | Failure(error: E)
}
