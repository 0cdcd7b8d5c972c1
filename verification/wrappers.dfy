/** Failure-compatible wrappers shared by the whole model. */
module Wrappers {

  /** A value that may be missing: JavaScript `null` / `undefined`. */
  datatype Option<+T> = None | Some(value: T)

  /** The answer of an operation that may throw: a value, or the message of the thrown Error. */
  datatype Result<+T> = Ok(value: T) | Err(message: string)
}
