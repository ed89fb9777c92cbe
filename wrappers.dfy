/** The Option and Result datatypes used across the model. */
module Wrappers {

  /** An optional value: Go's nil or a present value. */
  datatype Option<+T> = None | Some(value: T)

  /** A value or an error, for Go's `(value, error)` returns. */
  datatype Result<+T, +E> = Ok(value: T) | Err(error: E)
}
