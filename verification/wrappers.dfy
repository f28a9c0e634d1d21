/** Failure-compatible results for the Python exceptions the modelled code raises. */
module Wrappers {

  /** The exception classes the shape and dispatch code can raise.
      `RuntimeError` stands for torch's own shape errors (a `view` whose element count
      differs, an `expand` or `cat` of incompatible shapes); `AssertionError` for the
      code's `assert` statements, among them the required-parameter check; `KeyError` for
      reading a keyword parameter that was not given. */
  datatype Error =
    | AssertionError
    | IndexError
    | ValueError
    | TypeError
    | NameError
    | RuntimeError
    | KeyError

  datatype Option<+T> = None | Some(value: T)

  /** Either a value or the exception that the Python code would raise instead. */
  datatype Result<+T> = Ok(value: T) | Err(error: Error) {

    predicate IsFailure() {
      Err?
    }

    function PropagateFailure<U>(): Result<U>
      requires Err?
    {
      Err(error)
    }

    function Extract(): T
      requires Ok?
    {
      value
    }
  }

  /** The outcome of a check that returns nothing: it passes, or fails with `error`. */
  datatype Outcome = Pass | Fail(error: Error) {

    predicate IsFailure() {
      Fail?
    }

    function PropagateFailure<U>(): Result<U>
      requires Fail?
    {
      Err(error)
    }
  }
}
