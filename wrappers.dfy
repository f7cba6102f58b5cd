/** Failure-carrying values shared by every module of the model. */
module Wrappers {

  /** A value that may be absent: JavaScript's `null` / `undefined`. */
  datatype Option<+T> = None | Some(value: T)

  /** The outcome of a step that may throw: the value, or the thrown error. */
  datatype Result<+T, +E> = Ok(value: T) | Err(error: E)
}
