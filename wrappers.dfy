/** Option and Result: Go's nil pointers and `(value, error)` pairs. */
module Wrappers {

  /** A pointer that may be nil. */
  datatype Option<+T> = None | Some(value: T)

  /** A Go `(value, err)` return where exactly one side is meaningful. */
  datatype Result<+R, +E> = Success(value: R) | Failure(error: E)
}
