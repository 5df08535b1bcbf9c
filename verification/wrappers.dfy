/** Failure-compatible wrappers shared by the model: an optional value and a
    success-or-error result. */
module Wrappers {

  /** A value that may be absent; stands for a nil pointer field in the schema. */
  datatype Option<+T> = None | Some(value: T)

  /** The outcome of an operation that either produces a value or fails. */
  datatype Result<+T, +E> = Success(value: T) | Failure(error: E)
}
