/** The two result shapes shared by every component, and the two choices among integers. */
module Wrappers {

  /** A value that may be absent: Python's `None`. */
  datatype Option<+T> = None | Some(value: T)

  /** A return value or the error the source raises. */
  datatype Result<+T, +E> = Success(value: T) | Failure(error: E)

  function Max(a: int, b: int): int { if a < b then b else a }

  function Min(a: int, b: int): int { if a < b then a else b }
}
