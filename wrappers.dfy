/** The optional value and the value-or-error used throughout the model. */
module Wrappers {

  /** A value that may be absent, as an `undefined` array slot or a missing DOM element is. */
  datatype Option<+T> = None | Some(value: T)

  /** The outcome of a step that may throw: its value, or the message of the thrown `Error`. */
  datatype Result<+T, +E> = Ok(value: T) | Err(error: E)
}
