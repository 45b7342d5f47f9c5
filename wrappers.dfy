/** Option and Result, the two failure-carrying wrappers the model uses. */
module Wrappers {

  /** A value that may be absent (the source's `null` / `undefined`). */
  datatype Option<+T> = None | Some(value: T)

  /** The outcome of one stage: its product, or the error that aborts the run. */
  datatype Result<+T, +E> = Ok(value: T) | Err(error: E)
}
