// Small result types shared by the whole model.

module Wrappers {

  /** A value that may be absent (a Java reference that may be null). */
  datatype Option<T> = None | Some(value: T)

  /** The outcome of an operation that may throw IllegalArgumentException. */
  datatype Result<T> = Success(value: T) | Failure(error: string)
}
