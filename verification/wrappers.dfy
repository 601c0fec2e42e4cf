/** Failure-carrying result types shared by the other modules. */
module Wrappers {

  /** An optional value: the engine's `null`-or-message results. */
  datatype Option<+T> = None | Some(value: T)

  /** Either a value or the error that a JavaScript `throw` would raise. */
  datatype Result<+R, +E> = Ok(value: R) | Err(error: E)
}
