/** Failure-carrying datatypes shared by every module of the model. */
module Wrappers {

  /** Python's optional value: `None` or a present value. */
  datatype Option<+T> = None | Some(value: T) {

    /** Returns the present value, or `default` when there is none. */
    function GetOr(default: T): T {
      match this
      case Some(v) => v
      case None => default
    }
  }

  /** The outcome of a step that may raise: a value or the error it raised. */
  datatype Result<+R, +E> = Ok(value: R) | Err(error: E) {

    predicate IsFailure() {
      Err?
    }

    function PropagateFailure<U>(): Result<U, E>
      requires Err?
    {
      Err(error)
    }

    function Extract(): R
      requires Ok?
    {
      value
    }
  }
}
