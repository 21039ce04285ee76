/** Failure-carrying results, used wherever the Python code raises. */
module Wrappers {

  datatype Option<+T> = None | Some(value: T)

  datatype Result<+T, +E> = Ok(value: T) | Err(error: E) {

    predicate IsFailure() {
      Err?
    }

    function PropagateFailure<U>(): Result<U, E>
      requires Err?
    {
      Err(error)
    }

    function Extract(): T
      requires Ok?
    {
      value
    }
  }

  /**
   * Python's IndexError: raised by `_read_bytes` when asked for more bytes
   * than remain, and by list indexing out of range.
   */
  datatype ReadError = IndexError
}
