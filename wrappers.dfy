/** Failure-compatible wrappers for the Go `(value, error)` and `error` returns. */
module Wrappers {

  datatype Option<+T> = None | Some(value: T)

  /** A Go `(T, error)` pair: either a value or an error message. */
  datatype Result<+T> = Ok(value: T) | Err(error: string) {
    predicate IsFailure() { Err? }

    function PropagateFailure<U>(): Result<U>
      requires Err?
    {
      Err(error)
    }

    function Extract(): T
      requires Ok?
    {
      value
    }
  }

  /** A Go function that returns only an `error`, nil on success. */
  datatype Outcome = Pass | Fail(error: string)

  /** `fmt.Errorf(context + "%w", err)`: prefix the error message, keep a value. */
  function Wrap<T>(context: string, r: Result<T>): Result<T>
  {
    match r
    case Ok(_) => r
    case Err(e) => Err(context + e)
  }
}
