/** Failure-carrying wrappers used by the reporter model. */
module Wrappers {

  datatype Option<+T> = None | Some(value: T)

  /** The outcome of an operation that either produces a value or throws an error message. */
  datatype Result<+T, +E> = Success(value: T) | Failure(error: E)
}
