/** Optional values and results: the model's stand-ins for C# null and for exceptions. */
module Wrappers {

  /** A value that may be absent; `None` plays the part of a null reference. */
  datatype Option<+T> = None | Some(value: T)

  /** The outcome of an operation that either returns a value or throws. */
  datatype Result<+R, +E> = Success(value: R) | Failure(error: E)
}
