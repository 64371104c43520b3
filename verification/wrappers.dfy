/** Failure-compatible wrappers shared by the model: an optional value and a
    result that carries either a value or an error. */
module Wrappers {

  /** Python's `None` or a present value. */
  datatype Option<+T> = None | Some(value: T)

  /** A value, or the exception the computation would have raised. */
  datatype Result<+T, +E> = Success(value: T) | Failure(error: E)
}
