/** Failure-carrying wrappers shared by the model. */
module Wrappers {

  /** Go's nil-or-value, and the "found or not" of a lookup. */
  datatype Option<+T> = None | Some(value: T)

  /** A value, or the reason the Go code would have panicked instead of returning. */
  datatype Result<+R, +E> = Success(value: R) | Failure(error: E)
}
