/** Failure-compatible wrappers used to model Python's exceptions as values. */
module Wrappers {

  /** A value that may be absent: `None` stands for a collaborator that raised. */
  datatype Option<+T> = None | Some(value: T)

  /** The outcome of an operation that either returns a value or raises an error. */
  datatype Result<+R, +E> = Success(value: R) | Failure(error: E)
}
