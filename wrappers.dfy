/** Go's `(value, error)` and `error` returns, as Dafny datatypes. */
module Wrappers {

  /** A Go `error` value; only its message is observable here. */
  datatype Error = Error(message: string)

  /** The result of a Go call returning `(T, error)`: a value when the error is nil. */
  datatype Result<+T> = Success(value: T) | Failure(error: Error)

  /** The result of a Go call returning only `error`: `Pass` stands for nil. */
  datatype Outcome = Pass | Fail(error: Error)

  /** A Go computation that either returns a value or stops with a runtime panic. */
  datatype Run<+T> = Returns(value: T) | Panics
}
