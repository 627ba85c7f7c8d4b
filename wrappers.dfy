/** Failure-carrying values shared by the other modules: a Java reference that
    may be null becomes an Option, a call that may throw returns a Result, and a
    validation step that may throw returns an Outcome. */
module Wrappers {

  datatype Option<+T> = None | Some(value: T)

  datatype Result<+T, +E> = Success(value: T) | Failure(error: E)

  datatype Outcome<+E> = Pass | Fail(error: E)
}
