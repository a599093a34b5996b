/** Optional values and success/failure results, used wherever the Swift code has an
    Optional or a `throws`. */
module Wrappers {

  datatype Option<+T> = None | Some(value: T)

  datatype Result<+R, +E> = Success(value: R) | Failure(error: E)
}
