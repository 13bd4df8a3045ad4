/** Failure-carrying results for the source's exceptions. */
module Wrappers {

  datatype Option<+T> = None | Some(value: T)

  datatype Result<+R, +E> = Success(value: R) | Failure(error: E)

  /** The outcome of a step that produces no value: it completes or it throws. */
  datatype Outcome<+E> = Pass | Fail(error: E)
}
