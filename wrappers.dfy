/** Failure-carrying return values, the Dafny counterpart of Go's `(T, error)` pairs. */
module Wrappers {

  datatype Option<+T> = None | Some(value: T)

  /** A value or an error, as in `func F() (T, error)`. */
  datatype Result<+T, +E> = Success(value: T) | Failure(error: E)

  /** No value, only a possible error, as in `func F() error`. */
  datatype Outcome<+E> = Pass | Fail(error: E)
}
