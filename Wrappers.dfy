/** Option and Result: the model's stand-ins for JavaScript's `undefined` and for thrown errors. */
module Wrappers {

  /** A value that may be absent (`undefined` in the source). */
  datatype Option<+T> = None | Some(value: T)

  /** The outcome of a computation that may throw: its value, or the error it throws. */
  datatype Result<+T, +E> = Ok(value: T) | Err(error: E)
}
