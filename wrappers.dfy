/** Failure-compatible wrappers used across the model. */
module Wrappers {

  /** A value that may be absent (a failed quote, an unconverged solver, an unparsable cell). */
  datatype Option<+T> = None | Some(value: T)

  /** The outcome of a pipeline stage: a value, or the error reported to the uploader. */
  datatype Result<+T, +E> = Ok(value: T) | Err(error: E)
}
