/** Failure-compatible wrappers: `Option` stands for a JavaScript value that may be
    null/undefined, `Result` for a computation that may throw. */
module Wrappers {

  datatype Option<+T> = None | Some(value: T) {

    predicate IsFailure() {
      None?
    }

    function PropagateFailure<U>(): Option<U>
      requires None?
    {
      None
    }

    function Extract(): T
      requires Some?
    {
      value
    }
  }

  datatype Result<+R, +E> = Success(value: R) | Failure(error: E) {

    predicate IsFailure() {
      Failure?
    }

    function PropagateFailure<U>(): Result<U, E>
      requires Failure?
    {
      Failure(error)
    }

    function Extract(): R
      requires Success?
    {
      value
    }

    /** The value on success, `default` when the computation threw (a `catch` that returns a fallback). */
    function GetOr(default: R): R
    {
      match this
      case Success(v) => v
      case Failure(_) => default
    }
  }
}
