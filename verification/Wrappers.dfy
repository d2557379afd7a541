/** Option and Result, shared by the rest of the model. */
module Wrappers {

  /** A value that may be absent: a missing JavaScript property or an unset field. */
  datatype Option<+T> = None | Some(value: T)

  /** The outcome of an operation that can throw: the returned value or the error thrown. */
  datatype Result<+R, +E> = Success(value: R) | Failure(error: E)
}
