/** Values that may be missing, and calls that may raise. */
module Outcomes {

  datatype Option<+T> = None | Some(value: T)

  /** `Raised` stands for an exception: the enclosing transaction rolls back. */
  datatype Result<+T> = Ok(value: T) | Raised

  function Max(a: int, b: int): int {
    if a < b then b else a
  }

  function Min(a: int, b: int): int {
    if a < b then a else b
  }
}
