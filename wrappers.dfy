/** Absent values and thrown errors, shared by the other modules. */
module Wrappers {

  /** A value that may be `undefined` in the source. */
  datatype Option<+T> = None | Some(value: T)

  /** A call that either returns a value or throws an `Error` with a message. */
  datatype Result<+T> = Ok(value: T) | Err(message: string)
}
