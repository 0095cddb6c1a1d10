/** Failure-carrying results for operations that throw in the modelled code. */
module Wrappers {

  /** A value, or the error an operation threw instead of producing it. */
  datatype Result<+T, +E> = Success(value: T) | Failure(error: E)

  /** Completion of an operation that returns nothing, or the error it threw. */
  datatype Outcome<+E> = Pass | Fail(error: E)
}
