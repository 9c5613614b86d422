/** Optional values and results, standing in for Swift optionals and for the
    paths on which the router crashes. */
module Wrappers {

  datatype Option<+T> = None | Some(value: T)

  datatype Result<+R, +E> = Success(value: R) | Failure(error: E)
}
