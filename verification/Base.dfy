/** Option and Result, shared by every component model. */
module Base {

  datatype Option<+T> = None | Some(value: T)

  /** The source's return value, or the code of the error it throws. */
  datatype Result<+T, +E> = Ok(value: T) | Err(error: E)

  function Max(a: int, b: int): int {
    if a < b then b else a
  }

  function Min(a: int, b: int): int {
    if a < b then a else b
  }
}
