/** Failure-carrying values shared by the other modules. */
module Wrappers {

  datatype Option<+T> = None | Some(value: T)

  /** The outcome of a handler: a value, or the error that aborted it. */
  datatype Result<+R, +E> = Ok(value: R) | Err(error: E)
}
