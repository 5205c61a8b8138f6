/** Option and Result types shared by the model. */
module Wrappers {

  datatype Option<+T> = None | Some(value: T)

  /** The outcome of an operation that can fail with an exception. */
  datatype Result<+R, +E> = Success(value: R) | Failure(error: E)
}
