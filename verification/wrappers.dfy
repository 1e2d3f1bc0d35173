/** Failure-carrying values shared by every module of the model. */
module Wrappers {

  /** A value that may be absent: a nil reference or nil slice in Go. */
  datatype Option<+T> = None | Some(value: T)

  /** The (value, error) pair a Go function returns, as one value. */
  datatype Result<+T, +E> = Success(value: T) | Failure(error: E)

  /** An error value produced by a collaborator the model does not look inside. */
  datatype Cause = Cause(text: string)
}
