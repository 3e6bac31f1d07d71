/** Optional values and success/failure results, used for the Go code's
    (value, error) returns and for parameters the caller may omit. */
module Wrappers {

  datatype Option<+T> = None | Some(value: T)

  datatype Result<+R, +E> = Success(value: R) | Failure(error: E)
}
