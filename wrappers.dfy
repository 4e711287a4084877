/** Failure-compatible wrappers shared by the whole model. */
module Wrappers {

  /** A value that may be absent: JavaScript's `undefined` / `null` become None. */
  datatype Option<+T> = None | Some(value: T)

  /** The outcome of an operation that can throw: Err carries the thrown error. */
  datatype Result<+T, +E> = Ok(value: T) | Err(error: E)
}
