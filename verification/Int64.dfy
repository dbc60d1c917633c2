/** The fixed-width integers the resource meter computes with. */
module Int64 {

  const U64_SIZE: int := 0x1_0000_0000_0000_0000
  const I64_MAX: int := 0x7FFF_FFFF_FFFF_FFFF
  const I64_MIN: int := -0x8000_0000_0000_0000

  type u64 = x: int | 0 <= x < U64_SIZE
  type i64 = x: int | I64_MIN <= x <= I64_MAX

  datatype Option<+T> = None | Some(value: T)

  /** Conversion to uint64_t: reduction modulo 2^64. */
  function ToU64(x: int): u64 {
    x % U64_SIZE
  }

  /** Conversion to int64_t: the two's complement reading of the value modulo 2^64. */
  function ToI64(x: int): i64 {
    var m := x % U64_SIZE;
    if m <= I64_MAX then m else m - U64_SIZE
  }

  function Min(a: int, b: int): int {
    if a <= b then a else b
  }

  function Max(a: int, b: int): int {
    if a >= b then a else b
  }
}
