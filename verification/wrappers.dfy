/** Failure-carrying result types shared by the modules of the model. */
module Wrappers {

  /** A Go pointer or optional value: `None` plays the role of `nil`. */
  datatype Option<+T> = None | Some(value: T)

  /** A Go `(value, error)` pair in which exactly one side is meaningful. */
  datatype Result<+R, +E> = Success(value: R) | Failure(error: E)
}
