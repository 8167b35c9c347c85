/**
 * Optional values, the exceptions the backend raises, and a failure-compatible
 * Result type so that straight-line code that may raise can be written with `:-`.
 */
module Outcomes {

  datatype Option<+T> = None | Some(value: T)

  /** The exception classes the backend raises or catches, with their message (`str(e)`). */
  datatype Exc =
    | ValueError(msg: string)
    | RuntimeError(msg: string)
    | OtherError(kind: string, msg: string)   // any other exception class, e.g. a transport timeout

  /** A value, or the exception raised instead of returning one. */
  datatype Result<+T> = Ok(value: T) | Err(error: Exc) {

    predicate IsFailure() {
      Err?
    }

    function PropagateFailure<U>(): Result<U>
      requires Err?
    {
      Err(error)
    }

    function Extract(): T
      requires Ok?
    {
      value
    }
  }

  predicate IsValueError<T>(r: Result<T>) {
    r.Err? && r.error.ValueError?
  }
}
