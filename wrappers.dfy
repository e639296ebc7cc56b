/** Absence and failure values used throughout the model. */
module Wrappers {

  /** A value that may be absent (Go's nil pointer or "not found" flag). */
  datatype Option<+T> = None | Some(value: T)

  /** Either a value or the error that a Go function returned beside it. */
  datatype Result<+R, +E> = Success(value: R) | Failure(error: E)
}
