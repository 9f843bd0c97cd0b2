/** Optional values and results: Go's nil pointers and `(value, error)` pairs. */
module Wrappers {

  /** A Go pointer that may be nil: `None` is nil. */
  datatype Option<+T> = None | Some(value: T) {

    /** Applies `f` to the pointed-to value, keeping nil as nil. */
    function Map<U>(f: T -> U): Option<U> {
      match this
      case None => None
      case Some(v) => Some(f(v))
    }
  }

  /** A Go call returning `(*T, *APIError)` where exactly one of the two is non-nil. */
  datatype Result<+T, +E> = Success(value: T) | Failure(error: E)

  /** Bytes, as Go's `[]byte` holds them. */
  type byte = b: int | 0 <= b < 256
}
