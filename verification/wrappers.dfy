/** The two wrapper types the model uses: a value that may be absent, and the
    outcome of a call that may raise. */
module Wrappers {

  /** Python's `None` versus a present value. */
  datatype Option<+T> = None | Some(value: T)

  /** A value, or the exception that escaped instead of it. */
  datatype Result<+T, +E> = Success(value: T) | Failure(error: E)
}
