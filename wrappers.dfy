/** Failure-carrying values shared by every module of the model. */
module Wrappers {

  /** A value that may be absent: Python's `None` or SQL `NULL`. */
  datatype Option<+T> = None | Some(value: T)

  /** The outcome of an operation that raises on failure. */
  datatype Result<+T, +E> = Ok(value: T) | Err(error: E)
}
