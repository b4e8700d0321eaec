// The two failure-carrying types the models share.
module Wrappers {

  datatype Option<+T> = None | Some(value: T)

  // A C++ exception is the Failure of a Result.
  datatype Result<+T, +E> = Success(value: T) | Failure(error: E)
}
