/** Nullable references and thrown exceptions, as values. */
module Wrappers {

  /** A Java reference that may be null: `None` stands for null. */
  datatype Option<+T> = None | Some(value: T)

  /** The outcome of a Java call that either returns a value or throws `error`. */
  datatype Result<+T, +E> = Success(value: T) | Failure(error: E)
}
