/** Failure-carrying datatypes used across the model: a Java reference
    that may be null becomes an `Option`, a call that returns a value or
    throws becomes a `Result`, and a `void` call that may throw becomes an
    `Outcome`. */
module Wrappers {

  datatype Option<+T> = None | Some(value: T)

  datatype Result<+R, +E> = Success(value: R) | Failure(error: E)

  datatype Outcome<+E> = Pass | Fail(error: E)
}
