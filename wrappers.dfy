/** Absent values and fallible results, as the controller's collaborators return them. */
module Wrappers {

  /** A value that may be missing: the session's caller, the error a service call returns. */
  datatype Option<+T> = None | Some(value: T)

  /** The outcome of a parse or a service call: a value, or an error message. */
  datatype Result<+R, +E> = Success(value: R) | Failure(error: E)
}
