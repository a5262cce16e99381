/** Failure-compatible result types shared by the modules of this model. */
module Wrappers {

  /** The value of a computation, or the error that stopped it (a raised exception in the source). */
  datatype Result<+T, +E> = Success(value: T) | Failure(error: E) {

    predicate IsFailure() {
      Failure?
    }

    function PropagateFailure<U>(): Result<U, E>
      requires Failure?
    {
      Failure(error)
    }

    function Extract(): T
      requires Success?
    {
      value
    }
  }

  /** A check that passes or fails with an error; the source's functions that return nothing or raise. */
  datatype Outcome<+E> = Pass | Fail(error: E)
}
