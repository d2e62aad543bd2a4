/** Option and Result for the pricing model. */
module Wrappers {

  /** An optional value: `None` stands for Python's `None`. */
  datatype Option<+T> = None | Some(value: T)

  /** The outcome of a validating constructor: the value, or the error it raised. */
  datatype Result<+R, +E> = Success(value: R) | Failure(error: E)
}
