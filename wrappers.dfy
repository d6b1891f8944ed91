/** Option, Result and Outcome: the failure-carrying values used for the source's exceptions. */
module Wrappers {

  datatype Option<+T> = None | Some(value: T)

  /** A call that either produced a value or raised an error. */
  datatype Result<+T, +E> = Success(value: T) | Failure(error: E)

  /** A call that returns nothing on success and raises an error otherwise. */
  datatype Outcome<+E> = Pass | Fail(error: E)
}
