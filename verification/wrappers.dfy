/** Failure-carrying results used where the modelled JavaScript throws. */
module Wrappers {

  /** A value, or the error a call would have thrown instead of returning it. */
  datatype Result<+T, +E> = Success(value: T) | Failure(error: E)

  /** A call that returns nothing useful (`undefined`), or the error it threw. */
  datatype Outcome<+E> = Pass | Fail(error: E)
}
