/** The two failure-carrying values the service model uses. */
module Wrappers {

  /** A value that may be absent: `None` stands for Python's `None` or a missing key. */
  datatype Option<+T> = None | Some(value: T)

  /** The outcome of a step that may raise: `Failure` carries what was raised. */
  datatype Result<+R, +E> = Success(value: R) | Failure(error: E)
}
