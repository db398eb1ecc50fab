/** Optional values and results shared by the whole model. */
module Wrappers {

  /** Kotlin's nullable `T?`: `None` stands for `null`. */
  datatype Option<+T> = None | Some(value: T)

  /** The outcome of a Kotlin call that may throw an exception. */
  datatype Result<+T> = Success(value: T) | Failure(error: string)
}
