/** Optional values and results, standing for TypeScript's `T | undefined`
    and for a value-or-thrown-Error. */
module Wrappers {

  datatype Option<+T> = None | Some(value: T)

  datatype Result<+R, +E> = Success(value: R) | Failure(error: E)
}
