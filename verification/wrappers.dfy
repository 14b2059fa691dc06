/** Option and Result, the failure-compatible sum types used throughout.
    A thrown exception is a `Failure`. */
module Wrappers {

  /** A value that may be absent: JavaScript's `undefined`/`null`, or NaN for a parsed number. */
  datatype Option<+T> = None | Some(value: T)

  /** Either the value an operation returns or the error it throws. */
  datatype Result<+R, +E> = Success(value: R) | Failure(error: E) {

    predicate IsFailure() {
      Failure?
    }

    function PropagateFailure<U>(): Result<U, E>
      requires Failure?
    {
      Failure(error)
    }

    function Extract(): R
      requires Success?
    {
      value
    }
  }
}
