/** The two wrapper types the rest of the model shares. */
module Wrappers {

  /** The conventional stand-in for a reference that may be null. */
  datatype Option<+T> = None | Some(value: T)

  /** What a method returned, or the exception it threw. */
  datatype Result<+T, +E> = Success(value: T) | Failure(error: E)
}
