/** Failure-compatible wrappers used throughout the model.
    `Option` stands for a Java reference that may be null; `Result` stands for
    a call that either returns a value or throws. */
module Wrappers {

  /** A nullable value: `None` is Java's `null`. */
  datatype Option<+T> = None | Some(value: T)

  /** The outcome of a call that may throw: `Failure` carries the exception. */
  datatype Result<+R, +E> = Success(value: R) | Failure(error: E)
}
