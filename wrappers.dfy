/** Optional values and results shared by every module. */
module Wrappers {
  /** A value that may be missing: a failed read, an absent field. */
  datatype Option<T> = None | Some(value: T)

  /** The outcome of an operation that can fail with a message. */
  datatype Result<T> = Success(value: T) | Failure(error: string)
}
