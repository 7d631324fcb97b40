/** Failure-compatible wrappers shared by the workflow runner and the
    configuration loader: Go's `(value, error)` pairs become `Result`,
    an `error` return alone becomes `Outcome`. */
module Wrappers {

  datatype Option<+T> = None | Some(value: T)

  datatype Result<+R, +E> = Success(value: R) | Failure(error: E) {
    predicate IsFailure() {
      Failure?
    }

    function PropagateFailure<U>(): Result<U, E>
      requires Failure?
    {
      Failure(error)
    }

    function Extract(): R
      requires Success?
    {
      value
    }
  }

  /** The result of a call that returns only an error. */
  datatype Outcome<+E> = Pass | Fail(error: E)
}
