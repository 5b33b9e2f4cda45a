/** Failure-compatible result types shared by the protocol and binding models. */
module Wrappers {

  /** A value that may be absent: a socket reply that timed out, a lookup that found nothing. */
  datatype Option<+T> = None | Some(value: T)

  /** The value of an operation that may raise instead of returning. */
  datatype Result<+T, +E> = Success(value: T) | Failure(error: E) {
    predicate IsFailure() { Failure? }

    function PropagateFailure<U>(): Result<U, E>
      requires Failure?
    {
      Failure(error)
    }

    function Extract(): T
      requires Success?
    {
      value
    }
  }

  /** The outcome of an operation that returns nothing but may raise. */
  datatype Outcome<+E> = Pass | Fail(error: E)
}
