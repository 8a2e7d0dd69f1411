/** Failure-compatible wrappers used by the scanner and the parser. */
module Wrappers {

  datatype Option<+T> = None | Some(value: T)

  /** Ok carries a value, Err the error the source would raise. */
  datatype Result<+T, +E> = Ok(value: T) | Err(error: E) {

    predicate IsFailure() {
      Err?
    }

    function PropagateFailure<U>(): Result<U, E>
      requires Err?
    {
      Err(error)
    }

    function Extract(): T
      requires Ok?
    {
      value
    }
  }
}
