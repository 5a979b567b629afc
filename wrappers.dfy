/** Option, Result and Outcome, the shapes used for Python's None, return-or-raise and raise-or-nothing. */
module Wrappers {

  datatype Option<+T> = None | Some(value: T)

  /** A value, or the exception that was raised instead. */
  datatype Result<+T, +E> = Ok(value: T) | Err(error: E) {
    predicate IsFailure() {
      Err?
    }

    function PropagateFailure<U>(): Result<U, E>
      requires Err?
    {
      Err(error)
    }

    function Extract(): T
      requires Ok?
    {
      value
    }
  }

  /** Completion of an operation that returns nothing, or the exception it raised. */
  datatype Outcome<+E> = Pass | Fail(error: E)
}
