/** Failure-compatible result types shared by the modules of the model. */
module Wrappers {

  /** An optional value: Python's `X | None`. */
  datatype Option<+T> = None | Some(value: T)

  /** The outcome of an operation that may raise: the value, or the error it raises. */
  datatype Result<+R, +E> = Success(value: R) | Failure(error: E)
}
