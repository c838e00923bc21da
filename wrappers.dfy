/** Failure-compatible wrappers shared by the other modules. */
module Wrappers {

  datatype Option<+T> = None | Some(value: T)

  /** The outcome of a fallible step: a value, or the error that stopped the pipeline. */
  datatype Result<+T, +E> = Ok(value: T) | Err(error: E)
}
