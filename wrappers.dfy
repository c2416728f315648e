/** Option and Result, the failure-carrying values used throughout the model. */
module Wrappers {

  /** A value that may be absent; `None` stands for JavaScript's `undefined` or `null`. */
  datatype Option<+T> = None | Some(value: T)

  /** The outcome of an operation that may throw: `Err` carries what was thrown. */
  datatype Result<+T, +E> = Ok(value: T) | Err(error: E)
}
