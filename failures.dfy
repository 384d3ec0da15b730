/** Failure-carrying return values, standing for the Python exceptions the core raises. */
module Failures {

  /** A value that may be absent. */
  datatype Option<+T> = None | Some(value: T)

  /** Either a value or the error that was raised instead of producing it. */
  datatype Result<+T, +E> = Ok(value: T) | Err(error: E)
}
