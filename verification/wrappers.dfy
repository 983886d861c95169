/** Failure-carrying values shared by the modules of the configuration store model. */
module Wrappers {

  datatype Option<+T> = None | Some(value: T)

  /** A value or the error a Go function returns beside it. */
  datatype Result<+T, +E> = Success(value: T) | Failure(error: E)
}
