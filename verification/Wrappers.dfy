/** Results and optional values shared by every module. */
module Wrappers {
  datatype Option<+T> = None | Some(value: T)

  datatype Result<+T, +E> = Ok(value: T) | Err(error: E)

  function Lesser(a: int, b: int): int { if a <= b then a else b }
}
