/** Small failure-compatible wrappers shared by the modules of this project. */
module Wrappers {

  /** An optional value: Python's `None` or a present value. */
  datatype Option<+T> = None | Some(value: T)

  /** The outcome of an operation that may raise: a value, or the error it raises. */
  datatype Result<+T> = Ok(value: T) | Err(error: string)

  function Max(a: int, b: int): int { if a < b then b else a }

  function MinReal(a: real, b: real): real { if a <= b then a else b }
  function MaxReal(a: real, b: real): real { if a <= b then b else a }
}
