/** Failure-carrying values used in place of Python's `None` results and exceptions. */
module Wrappers {

  datatype Option<+T> = None | Some(value: T)

  /** `Err` stands for a Python exception that aborts the whole operation. */
  datatype Result<+T, +E> = Ok(value: T) | Err(error: E)
}
