/** Option and Result, used for Python's `None` and for raised exceptions. */
module Wrappers {

  datatype Option<+T> = None | Some(value: T)

  /** `Failure` stands for an exception raised by the modelled Python code. */
  datatype Result<+T, +E> = Success(value: T) | Failure(error: E)
}
