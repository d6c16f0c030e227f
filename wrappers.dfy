/** Failure-compatible wrapper types shared by the model's modules. */
module Wrappers {

  /** A value that may be missing: the model's stand-in for a C# null reference. */
  datatype Option<+T> = None | Some(value: T)

  /** The result of an operation that can throw: `Failure` carries the exception's kind. */
  datatype Result<+T, +E> = Success(value: T) | Failure(error: E)
}
