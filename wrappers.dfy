/** Optional values (a JavaScript property that may be `undefined`) and
    results of functions that may throw. */
module Wrappers {

  datatype Option<+T> = None | Some(value: T)

  /** `Failure(message)` stands for a thrown `Error(message)`. */
  datatype Result<+T, +E> = Success(value: T) | Failure(error: E)
}
