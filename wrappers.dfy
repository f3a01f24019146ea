/** Option and Result, the failure-compatible wrappers every service returns. */
module Wrappers {

  datatype Option<+T> = None | Some(value: T) {

    /** The value in Some, or the default when None. */
    function GetOr(default: T): T {
      if Some? then value else default
    }
  }

  /** The outcome of a service call: a value, or the exception it throws. */
  datatype Result<+T, +E> = Ok(value: T) | Err(error: E) {

    predicate IsFailure() {
      Err?
    }

    function PropagateFailure<U>(): Result<U, E>
      requires Err?
    {
      Err(error)
    }

    function Extract(): T
      requires Ok?
    {
      value
    }
  }
}
