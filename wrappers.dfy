/** Wrappers used to model Python's None and raised exceptions. */
module Wrappers {

  /** A value that may be absent (Python's `Optional[...]`, `None`). */
  datatype Option<+T> = None | Some(value: T)

  /** A value or the exception raised instead of returning one. */
  datatype Result<+R, +E> = Success(value: R) | Failure(error: E)

  /** An operation that returns nothing of interest, or raises. */
  datatype Outcome<+E> = Pass | Fail(error: E)
}
