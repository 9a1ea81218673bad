/** Option and Result, shared by every module of the model. */
module Wrappers {

  /** A value that may be absent: Go's nil pointer or an unset optional field. */
  datatype Option<+T> = None | Some(value: T)

  /** The (value, error) pair of a Go function: exactly one side is meaningful. */
  datatype Result<+R, +E> = Success(value: R) | Failure(error: E)
}
