/** Optional values and value-or-error results, for Go's `(v, ok)` and `(v, err)` returns. */
module Wrappers {

  datatype Option<+T> = None | Some(value: T)

  datatype Result<+T, +E> = Success(value: T) | Failure(error: E)
}
