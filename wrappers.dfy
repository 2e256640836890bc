/** Optional values and success-or-failure results, used for Python's `None`
    and for the exceptions the handler raises. */
module Wrappers {

  datatype Option<+T> = None | Some(value: T)

  datatype Result<+T, +E> = Success(value: T) | Failure(error: E)
}
