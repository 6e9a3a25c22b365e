/** Optional values and results with an error, used where the source has `null` or throws. */
module Wrappers {

  /** `None` stands for the source's `null`. */
  datatype Option<+T> = None | Some(value: T)

  /** `Failure` stands for an exception that escapes to the caller. */
  datatype Result<+R, +E> = Success(value: R) | Failure(error: E)
}
