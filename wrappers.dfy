/** Success/failure values and the exceptions the pipeline can raise. */
module Wrappers {

  /** A value or the exception that stopped the computation. */
  datatype Result<+T> = Ok(value: T) | Err(error: Error) {
    predicate IsFailure() { Err? }

    function PropagateFailure<U>(): Result<U>
      requires Err?
    {
      Err(error)
    }

    function Extract(): T
      requires Ok?
    {
      value
    }
  }

  /** A value that may be absent, such as Python's `None`. */
  datatype Option<T> = None | Some(value: T)

  /** The Python exceptions raised by the record store and the window builder. */
  datatype Error =
    | InvalidData        // ValueError('Invalid data argument.') from a DataSet constructor
    | NotInList          // ValueError from `list.index`: an attribute name outside the schema
    | ArityMismatch      // TypeError from `DataPoint(*item)` on a tuple of the wrong length
    | IndexOutOfRange    // IndexError from list indexing
    | NoLength           // TypeError: a lazy `filter` object has no len()
    | NotSubscriptable   // TypeError: a lazy `filter` object cannot be indexed
    | NonIntegerSlice    // TypeError: slice indices must be integers
}
