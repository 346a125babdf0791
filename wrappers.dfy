/** Small failure-carrying datatypes shared by the other modules. */
module Wrappers {

  /** A value that may be missing (Python's `None`). */
  datatype Option<+T> = None | Some(value: T)

  /** The outcome of an operation that may raise: its value, or the exception's message. */
  datatype Result<+R> = Success(value: R) | Failure(message: string)
}
