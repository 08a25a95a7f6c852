/** Option and Result, the two failure-carrying datatypes the model uses. */
module Wrappers {

  /** A value that may be absent: Python's `None` or a value. */
  datatype Option<T> = None | Some(value: T)

  /** The outcome of a handler: a value, or the error it raises. */
  datatype Result<T, E> = Ok(value: T) | Err(error: E)
}
