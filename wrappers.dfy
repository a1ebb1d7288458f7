/** Option and Result, the failure-compatible wrappers used by the settings model. */
module Wrappers {

  /** A value that may be absent; `None` plays the part of Python's None. */
  datatype Option<+T> = None | Some(value: T)

  /** The outcome of a step that may raise an exception its caller does not catch. */
  datatype Result<+R, +E> = Success(value: R) | Failure(error: E) {

    predicate IsFailure() {
      Failure?
    }

    function PropagateFailure<U>(): Result<U, E>
      requires Failure?
    {
      Failure(error)
    }

    function Extract(): R
      requires Success?
    {
      value
    }
  }
}
