/** Option and Result, the two failure-carrying datatypes the rest of the model uses. */
module Wrappers {

  datatype Option<+T> = None | Some(value: T)

  /** The outcome of a step that either produces a value or raises a Python exception. */
  datatype Result<+R, +E> = Success(value: R) | Failure(error: E)
}
