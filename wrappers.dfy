/** Failure-compatible result types: a value that may be absent (C# `null`),
    a value or an error (an exception the caller sees), and a completion or
    an error for calls that return nothing. */
module Wrappers {

  datatype Option<+T> = None | Some(value: T)

  datatype Result<+R, +E> = Success(value: R) | Failure(error: E)

  /** Outcome of a `void` call: it returned normally or threw `error`. */
  datatype Outcome<+E> = Pass | Fail(error: E)
}
