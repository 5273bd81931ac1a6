/** Failure-carrying values used for the fallible operations of the application. */
module Wrappers {

  datatype Option<+T> = None | Some(value: T)

  /** The outcome of an operation that returns nothing on success (`Result<()>` in the source). */
  datatype Outcome<+E> = Pass | Fail(error: E)

  /** The outcome of an operation that returns a value on success. */
  datatype Result<+T, +E> = Ok(value: T) | Err(error: E)
}
