/** Optional values and results with an error, used for the outcomes the C++ header reports by exception or by absence. */
module Wrappers {
  datatype Option<T> = None | Some(value: T)

  datatype Result<T, E> = Success(value: T) | Failure(error: E)
}
