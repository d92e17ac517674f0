/** Option, Result and Outcome: the failure-carrying types the rest of the model uses
    instead of `null`, thrown exceptions and `undefined`. */
module Wrappers {

  /** A value that may be missing (`T | null` in the source). */
  datatype Option<+T> = None | Some(value: T)

  /** The outcome of a `parse` call: the parsed value, or what was thrown. */
  datatype Result<+T, +E> = Ok(value: T) | Err(error: E)

  /** The outcome of a call that either returns normally or throws an `Error` with a message. */
  datatype Outcome = Pass | Fail(message: string)
}
