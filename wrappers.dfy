/** Failure values shared by every parser of the model.  Each constructor of
    `Error` stands for the Python exception the source raises on that path. */
module Wrappers {

  datatype Option<+T> = None | Some(value: T)

  /** The Python exception classes the modelled code raises. */
  datatype Error =
    | IndexError        // a list index out of range
    | ValueError        // a failed conversion or a count mismatch
    | LookupError       // a marker line that is absent
    | KeyError          // an unknown table column
    | TypeError         // an operation applied to a value of the wrong type
    | AssertionError    // a failed `assert` statement
    | NotADirectoryError
    | FileNotFoundError

  datatype Result<+T> = Success(value: T) | Failure(error: Error) {
    predicate IsFailure() { Failure? }

    function PropagateFailure<U>(): Result<U>
      requires Failure?
    {
      Failure(error)
    }

    function Extract(): T
      requires Success?
    {
      value
    }
  }
}
