/** Failure-compatible datatypes used throughout the model: Go's `(value, error)`
    pairs and `log.Fatal` exits become the `Failure` side of a `Result`, which
    `:-` propagates. */
module Wrappers {

  datatype Option<+T> = None | Some(value: T)

  datatype Result<+R, +E> = Success(value: R) | Failure(error: E) {

    predicate IsFailure() {
      Failure?
    }

    function PropagateFailure<U>(): Result<U, E>
      requires Failure?
    {
      Failure(error)
    }

    function Extract(): R
      requires Success?
    {
      value
    }
  }
}
