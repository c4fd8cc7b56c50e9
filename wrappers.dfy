/** Optional values and results, standing for JavaScript's `null`-or-value
    and thrown-or-returned outcomes. */
module Wrappers {

  datatype Option<+T> = None | Some(value: T)

  datatype Result<+R, +E> = Success(value: R) | Failure(error: E)
}
