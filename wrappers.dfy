/** Optional values and results: Go's nil-able references and `(value, error)` pairs. */
module Wrappers {

  /** A Go reference that may be nil (`*string`, `*time.Time`, `*float64`). */
  datatype Option<+T> = None | Some(value: T) {
    function GetOr(default: T): T {
      match this
      case Some(v) => v
      case None => default
    }
  }

  /** A Go `(value, error)` return. */
  datatype Result<+T, +E> = Success(value: T) | Failure(error: E)
}
