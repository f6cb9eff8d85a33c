/** Option and Result, the two failure-carrying datatypes the rest of the model uses. */
module Wrappers {

  /** A value that may be missing: in the JavaScript sources, `undefined` or NaN. */
  datatype Option<+T> = None | Some(value: T)

  /** The outcome of an operation that can throw: its value, or the error it throws. */
  datatype Result<+T, +E> = Ok(value: T) | Err(error: E)
}
