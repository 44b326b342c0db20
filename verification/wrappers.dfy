/** Failure-aware wrappers used throughout the model. */
module Wrappers {

  /** An optional value: Python's `None` versus a present value. */
  datatype Option<+T> = None | Some(value: T)

  /** The outcome of a call that may raise: a value or a fault description. */
  datatype Result<+R, +E> = Success(value: R) | Failure(error: E)
}
