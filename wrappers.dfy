/** Option and Result, the shapes used for nullable values and for the
    exceptions a service raises. */
module Wrappers {
  datatype Option<+T> = None | Some(value: T)

  datatype Result<+T, +E> = Success(value: T) | Failure(error: E)
}
