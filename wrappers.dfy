/** Option, Result and Outcome: the model's stand-ins for Swift optionals and thrown errors. */
module Wrappers {

  /** A Swift optional: `nil` or a wrapped value. */
  datatype Option<+T> = None | Some(value: T)

  /** The value of a throwing call that returns: its result, or the error it threw. */
  datatype Result<+R, +E> = Success(value: R) | Failure(error: E)

  /** The value of a throwing call that returns nothing. */
  datatype Outcome<+E> = Pass | Fail(error: E)
}
