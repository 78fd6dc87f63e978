/** Failure-compatible wrappers shared by the whole model. */
module Wrappers {

  /** An optional value. Where it stands for a JavaScript value, `None` is `undefined`. */
  datatype Option<+T> = None | Some(value: T) {

    /** The wrapped value, or `default` when there is none. */
    function GetOr(default: T): T {
      match this
      case Some(v) => v
      case None => default
    }
  }

  /** The outcome of evaluating JavaScript that may throw: `Throw` carries the error message. */
  datatype Result<+T> = Ok(value: T) | Throw(error: string) {

    predicate IsFailure() {
      Throw?
    }

    function PropagateFailure<U>(): Result<U>
      requires Throw?
    {
      Throw(error)
    }

    function Extract(): T
      requires Ok?
    {
      value
    }
  }
}
