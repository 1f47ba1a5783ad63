/** The Option and Result datatypes used by the theme model. */
module Wrappers {

  /** A value that may be absent: `localStorage.getItem` answers `null` or a string. */
  datatype Option<+T> = None | Some(value: T)

  /** A value or the error that was thrown instead of returning it. */
  datatype Result<+R, +E> = Success(value: R) | Failure(error: E)
}
