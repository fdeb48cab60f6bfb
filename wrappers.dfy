/** Python's `None` and raised exceptions made explicit values. */
module Wrappers {

  /** A value that may be `None`, as a nullable Python attribute or `dict.get` result. */
  datatype Option<+T> = None | Some(value: T)

  /** The outcome of a call that either returns a value or raises an error. */
  datatype Result<+R, +E> = Success(value: R) | Failure(error: E)
}
