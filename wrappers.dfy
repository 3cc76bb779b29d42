/** Failure-carrying values used in place of Python's `None` and exceptions. */
module Wrappers {

  datatype Option<+T> = None | Some(value: T)

  /** A computation that either produced a value or raised an error. */
  datatype Result<+T, +E> = Ok(value: T) | Fail(error: E)
}
