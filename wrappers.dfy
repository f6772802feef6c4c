/** Failure-carrying values used in place of Python's None, Java's null and
    raised exceptions. */
module Wrappers {

  datatype Option<+T> = None | Some(value: T)

  /** The result of a call that either returns a value or raises `error`. */
  datatype Result<+R, +E> = Success(value: R) | Failure(error: E)

  /** The result of a check that either passes or fails with `error`. */
  datatype Outcome<+E> = Pass | Fail(error: E)
}
