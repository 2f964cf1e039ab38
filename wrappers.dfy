/** Option and Result, the failure-carrying values used throughout the model. */
module Wrappers {

  datatype Option<+T> = None | Some(value: T)

  /** `Err` carries what the source raises or reports as an error. */
  datatype Result<+T, +E> = Ok(value: T) | Err(error: E)
}
