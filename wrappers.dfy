/** Optional values and results with an error, as used for the feed's
    optional fields and for the backend's raised exceptions. */
module Wrappers {

  datatype Option<+T> = None | Some(value: T)

  datatype Result<+R, +E> = Success(value: R) | Failure(error: E)
}
