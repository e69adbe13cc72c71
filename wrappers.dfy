/** Option and Outcome, the small failure-carrying datatypes the rest of the model uses. */
module Wrappers {

  /** A value that may be missing; `None` stands for a null pointer. */
  datatype Option<+T> = None | Some(value: T)

  /** The result of an operation that either completes or throws `error`. */
  datatype Outcome<+E> = Pass | Fail(error: E)

  /** The result of an operation that either returns `value` or throws `error`. */
  datatype Result<+R, +E> = Success(value: R) | Failure(error: E)
}
