/** Optional values and error results, the two shapes every Go `(T, error)`
    return and every "maybe set" configuration value take in this model. */
module Wrappers {

  datatype Option<+T> = None | Some(value: T)

  /** A Go `(value, err)` pair where exactly one side is meaningful. */
  datatype Result<+T, +E> = Success(value: T) | Failure(error: E)
}
