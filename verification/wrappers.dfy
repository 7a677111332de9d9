/** Option and Result: Java's nullable references and thrown exceptions, made explicit. */
module Wrappers {

  /** A nullable reference: `None` is Java's `null`. */
  datatype Option<+T> = None | Some(value: T)

  /** The outcome of an operation that either returns a value or throws `E`. */
  datatype Result<+R, +E> = Success(value: R) | Failure(error: E)
}
