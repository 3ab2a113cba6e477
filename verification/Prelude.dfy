// Value types shared by every module.
module Prelude {
  datatype Option<+T> = None | Some(value: T)

  datatype Result<+T, +E> = Ok(value: T) | Err(error: E)

  function Max(a: int, b: int): int { if a >= b then a else b }

  // math.Ceil, over reals.
  function Ceil(x: real): int { -((-x).Floor) }
}
