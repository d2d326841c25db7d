/** Go's `(value, error)` pairs and nil pointers. */
module Wrappers {

  /** A value that may be absent (Go's nil pointer). */
  datatype Option<+T> = None | Some(value: T)

  /** A value or an error (Go's `(T, error)` result pair). */
  datatype Result<+T, +E> = Success(value: T) | Failure(error: E)
}
