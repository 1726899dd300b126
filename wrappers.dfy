/** Failure-carrying results shared by the model. */
module Wrappers {

  /** A Go `error` return: `nil` (Pass) or an error value (Fail). */
  datatype Outcome<+E> = Pass | Fail(error: E)

  /** A Go `(value, error)` return pair where exactly one side is meaningful. */
  datatype Result<+T, +E> = Success(value: T) | Failure(error: E)
}
