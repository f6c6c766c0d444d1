/** Failure-carrying datatypes shared by the other modules. */
module Wrappers {

  datatype Option<+T> = None | Some(value: T)

  /** The value of a step that either produced `value` or raised an error. */
  datatype Result<+R, +E> = Success(value: R) | Failure(error: E)

  /** The outcome of a step that produces nothing but may raise an error. */
  datatype Outcome<+E> = Pass | Fail(error: E)
}
