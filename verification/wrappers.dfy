/** Optional values and results with an error, used wherever the Go code has a
    nil pointer or returns an error beside its value. */
module Wrappers {

  datatype Option<+T> = None | Some(value: T)

  datatype Result<+T, +E> = Success(value: T) | Failure(error: E)
}
