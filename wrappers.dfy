/** Optional values and results with an error: the model's stand-ins for Python's
    `None` and for exceptions that a caller catches. */
module Wrappers {

  datatype Option<+T> = None | Some(value: T) {
    /** The value, or `default` when there is none (`dict.get(key, default)` and `os.getenv(key, default)`: a value that is
        present is kept, even when it is empty). */
    function GetOr(default: T): T {
      match this
      case Some(v) => v
      case None => default
    }
  }

  datatype Result<+T, +E> = Success(value: T) | Failure(error: E)
}
