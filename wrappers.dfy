/** Optional values (Go's nil pointers) and results carrying an error (Go's `error` returns). */
module Wrappers {

  datatype Option<+T> = None | Some(value: T)

  datatype Result<+T, +E> = Success(value: T) | Failure(error: E)
}
