/** Failure-carrying values shared by every module of the model. */
module Wrappers {

  /** An answer that may be missing: Python's `None` on one side, a value on the other. */
  datatype Option<+T> = None | Some(value: T)

  /** The outcome of a step that either yields a value or raises. */
  datatype Result<+R, +E> = Success(value: R) | Failure(error: E)
}
