/** Option, Result and Outcome: the values that stand in for `undefined`, for
    thrown errors and for "throws or returns nothing" in the TypeScript source. */
module Wrappers {

  datatype Option<+T> = None | Some(value: T) {
    function GetOr(default: T): T {
      match this
      case Some(v) => v
      case None => default
    }
  }

  datatype Result<+R, +E> = Success(value: R) | Failure(error: E) {
    predicate IsFailure() {
      Failure?
    }

    function PropagateFailure<U>(): Result<U, E>
      requires Failure?
    {
      Failure(error)
    }

    function Extract(): R
      requires Success?
    {
      value
    }
  }

  /** A check that either passes or fails with an error, like a function
      returning `void` that may throw. */
  datatype Outcome<+E> = Pass | Fail(error: E)
}
