/** Failure-compatible result type, used for Python's raised exceptions. */
module Wrappers {

  /** Either a value or the error that was raised instead of producing one. */
  datatype Result<+R, +E> = Ok(value: R) | Err(error: E) {

    predicate IsFailure() {
      Err?
    }

    function PropagateFailure<U>(): Result<U, E>
      requires Err?
    {
      Err(error)
    }

    function Extract(): R
      requires Ok?
    {
      value
    }
  }
}
