/** Optional values and results shared by the modules of the model. */
module Wrappers {

  /** A value that may be absent: the model of a TypeScript `T | null | undefined`. */
  datatype Option<+T> = None | Some(value: T)

  /** Either a value or an error: the model of a `try` block that completes or throws. */
  datatype Result<+R, +E> = Success(value: R) | Failure(error: E)
}
