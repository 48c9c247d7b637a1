/** Option and Result, the failure-carrying datatypes used across the model. */
module Wrappers {

  datatype Option<+T> = None | Some(value: T)

  /** A value or an error: the shape of a Go `(T, error)` pair whose two halves are never both set. */
  datatype Result<+R, +E> = Success(value: R) | Failure(error: E)
}
