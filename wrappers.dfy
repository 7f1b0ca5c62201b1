/** Optional values (Python's None) and results that carry an error message
    (an exception caught by the caller). */
module Wrappers {
  datatype Option<T> = None | Some(value: T)

  datatype Result<T> = Success(value: T) | Failure(error: string)
}
