/** The failure-compatible wrappers used throughout the model. */
module Wrappers {

  /** An optional value. Where it stands for a JavaScript value, `None` is a missing
      (`undefined`) one; each use says what else it covers. */
  datatype Option<+T> = None | Some(value: T)

  /** The outcome of an operation that either returns a value or throws an error message. */
  datatype Result<+R, +E> = Success(value: R) | Failure(error: E)
}
