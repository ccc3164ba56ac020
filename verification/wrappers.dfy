/** Option and Result, the wrappers the ledger model uses
    for nullable columns, absent request fields and failed statements. */
module Wrappers {

  /** A value that may be absent: SQL NULL, or a field missing from a request body. */
  datatype Option<+T> = None | Some(value: T)

  /** The outcome of a statement or of a whole unit of work. */
  datatype Result<+R, +E> = Ok(value: R) | Err(error: E) {

    predicate IsFailure() {
      Err?
    }

    function PropagateFailure<U>(): Result<U, E>
      requires Err?
    {
      Err(error)
    }

    function Extract(): R
      requires Ok?
    {
      value
    }
  }
}
