/** Option and Result, the two failure-carrying shapes used across the model. */
module Wrappers {

  /** A value that may be absent (Go's nil pointer or nil error). */
  datatype Option<+T> = None | Some(value: T)

  /** Either a value or an error (Go's `(value, error)` return pair). */
  datatype Result<+R, +E> = Success(value: R) | Failure(error: E)
}
