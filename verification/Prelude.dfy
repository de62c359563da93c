/** Types and numbers shared by the models. */
module Prelude {
  type byte = n: nat | n < 256

  datatype Option<T> = None | Some(value: T)

  const I32_MIN: int := -0x8000_0000
  const I32_MAX: nat := 0x7FFF_FFFF

  function Max(a: int, b: int): int { if a >= b then a else b }
}
