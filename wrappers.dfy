/** Optional values and fallible results, used for JavaScript's `null` and for
    the service calls that throw. */
module Wrappers {

  datatype Option<+T> = None | Some(value: T)

  datatype Result<+T> = Success(value: T) | Failure(error: string)
}
