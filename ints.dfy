/** Rust's unsigned 32-bit integer, the width of every reading the hub reports. */
module Ints {
  const U32_MAX: int := 0xFFFF_FFFF

  /** Rust's `u32`. */
  type U32 = x: int | 0 <= x <= U32_MAX
}
