/** Option and Result values used in place of Python's None and exceptions. */
module Wrappers {

  datatype Option<+T> = None | Some(value: T)

  datatype Result<+T, +E> = Ok(value: T) | Err(error: E)

  /** Success or a raised error, for operations that return nothing. */
  datatype Outcome<+E> = Pass | Fail(error: E)
}
