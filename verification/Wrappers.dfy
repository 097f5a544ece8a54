/** The two result shapes used throughout: a value that may be missing, and an
    operation that may fail with a reason. */
module Wrappers {
  datatype Option<+T> = None | Some(value: T)

  datatype Result<+T, +E> = Success(value: T) | Failure(error: E)
}
