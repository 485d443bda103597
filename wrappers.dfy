/** Failure-carrying result type shared by the model. */
module Wrappers {

  /** Either a value or the reason the computation aborted. */
  datatype Result<+T, +E> = Ok(value: T) | Err(error: E)
}
