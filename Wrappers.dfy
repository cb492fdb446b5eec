/** Present/absent values and success/failure results. */
module Wrappers {

  /** A value that may be absent; `None` stands for Java's `null` / `Optional.empty()`. */
  datatype Option<+T> = None | Some(value: T)

  /** The outcome of an operation that either yields a value or fails with an error. */
  datatype Result<+R, +E> = Success(value: R) | Failure(error: E)

  /** The outcome of an operation that yields nothing but may fail. */
  datatype Outcome<+E> = Pass | Fail(error: E)
}
