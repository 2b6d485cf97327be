/** Failure and absence, shared by every module. */
module Prelude {

  datatype Option<+T> = None | Some(value: T)

  datatype Result<+T, +E> = Ok(value: T) | Err(error: E)

  function Max(a: int, b: int): int { if a >= b then a else b }

  function Min(a: int, b: int): int { if a <= b then a else b }

  /** Smallest integer that is not below x. */
  function Ceil(x: real): (c: int)
    ensures c as real >= x && x > c as real - 1.0
  {
    -((-x).Floor)
  }
}
