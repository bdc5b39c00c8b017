/** Optional values and success-or-error results, used for Go's `v, ok :=`
    lookups and for the early `return`s of the request handler. */
module Wrappers {

  datatype Option<+T> = None | Some(value: T)

  datatype Result<+R, +E> = Success(value: R) | Failure(error: E)
}
