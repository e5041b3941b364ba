/** Optional values and fallible results, standing in for Go's nil pointers and `(value, error)` pairs. */
module Wrappers {

  /** A value that may be absent (a nil pointer or a nil interface in Go). */
  datatype Option<+T> = None | Some(value: T)

  /** The outcome of a Go call that returns `(value, error)`: a value when the error is nil, the error otherwise. */
  datatype Result<+R, +E> = Success(value: R) | Failure(error: E)
}
