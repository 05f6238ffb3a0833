/** Failure-carrying datatypes used by the decoder and the validator. */
module Wrappers {

  datatype Option<+T> = None | Some(value: T)

  /** The outcome of a step that may fail with a human-readable message,
      usable with `:-`. */
  datatype Result<+R> = Success(value: R) | Failure(error: string) {

    predicate IsFailure() {
      Failure?
    }

    function PropagateFailure<U>(): Result<U>
      requires Failure?
    {
      Failure(error)
    }

    function Extract(): R
      requires Success?
    {
      value
    }
  }
}
