/** Option and Result, the failure-carrying values the rest of the model returns. */
module Wrappers {

  datatype Option<+T> = None | Some(value: T)

  /** A computation that either produced a value or raised the error it carries. */
  datatype Result<+R, +E> = Success(value: R) | Failure(error: E)
}
