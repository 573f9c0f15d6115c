/** Optional values and results, used for the Go code's nil pointers and error returns. */
module Wrappers {

  /** A value that may be absent: a nil pointer in the installer's Go code. */
  datatype Option<+T> = None | Some(value: T)

  /** A value or an error: Go's `(value, error)` pair where exactly one is meaningful. */
  datatype Result<+T, +E> = Success(value: T) | Failure(error: E)
}
