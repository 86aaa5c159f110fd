/** Optional values and results with an error, used throughout the model. */
module Wrappers {

  /** A value that may be missing (a JSON key that is absent or a SQL NULL). */
  datatype Option<+T> = None | Some(value: T) {
    function GetOr(default: T): T {
      match this
      case Some(v) => v
      case None => default
    }
  }

  /** Either a value or an error. */
  datatype Result<+T, +E> = Success(value: T) | Failure(error: E)
}
