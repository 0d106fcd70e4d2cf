/** Optional values and results, standing for JavaScript's `null`/`undefined`
    and for a promise that either resolves or rejects. */
module Wrappers {

  datatype Option<+T> = None | Some(value: T)

  datatype Result<+R, +E> = Success(value: R) | Failure(error: E)
}
