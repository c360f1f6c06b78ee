/** Option and Result types shared by the modules. */
module Wrappers {

  datatype Option<+T> = None | Some(value: T)

  /** The (value, error) pair a Go function returns, as one of its two halves. */
  datatype Result<+T, +E> = Success(value: T) | Failure(error: E)
}
