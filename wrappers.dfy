/** Optional values and results, used for SQL NULLs, missing query
    parameters and statement failures. */
module Wrappers {

  datatype Option<+T> = None | Some(value: T)

  datatype Result<+R, +E> = Success(value: R) | Failure(error: E)
}
