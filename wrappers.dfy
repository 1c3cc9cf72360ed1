/** Option and Result values used for the error paths of the model. */
module Wrappers {

  datatype Option<+T> = None | Some(value: T)

  /** The outcome of an operation that may fail with a value of type E. */
  datatype Result<+R, +E> = Success(value: R) | Failure(error: E)
}
