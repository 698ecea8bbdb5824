/** Failure-carrying wrappers shared by the other modules. */
module Wrappers {
  /** A value that may be absent, such as a terminal size the probe could not read. */
  datatype Option<+T> = None | Some(value: T)

  /** The outcome of a step that returns either a value or an error message. */
  datatype Result<+T, +E> = Ok(value: T) | Err(error: E)
}
