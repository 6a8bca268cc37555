/** Option and Result values used throughout the model. */
module Wrappers {

  /** A value that may be absent (Python's `None`). */
  datatype Option<+T> = None | Some(value: T)

  /** The outcome of an operation that may raise a Python exception. */
  datatype Result<+T, +E> = Ok(value: T) | Err(error: E)
}
