/** Failure-carrying datatypes shared by the other modules. */
module Wrappers {

  /** A value that may be missing; `None` stands for a Go nil pointer. */
  datatype Option<+T> = None | Some(value: T)

  /** The outcome of an operation that the exporter turns into a panic or a
      `log.Fatal` when it fails. */
  datatype Result<+T, +E> = Success(value: T) | Failure(error: E)
}
