/** Failure-carrying values used throughout the model. */
module Wrappers {

  /** A value that may be absent; the model's stand-in for a Go nil reference or nil error. */
  datatype Option<+T> = None | Some(value: T)

  /** A value or the reason it could not be produced; the model's stand-in for Go's (value, error) pair. */
  datatype Result<+T, +E> = Success(value: T) | Failure(error: E)
}
