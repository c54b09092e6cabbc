/**
 * Fixed-width unsigned integers of the Rust code. Dafny's `int` is unbounded,
 * so every width is a subset type and every truncating `as` cast is written out.
 * `usize` is modelled as `nat` (no 64-bit overflow is reachable in the core).
 */
module Ints {

  type u8 = x: int | 0 <= x < 0x100
  type u16 = x: int | 0 <= x < 0x1_0000
  type u32 = x: int | 0 <= x < 0x1_0000_0000
  type u64 = x: int | 0 <= x < 0x1_0000_0000_0000_0000

  /** Largest value of a 64-bit `usize`. */
  const USIZE_MAX: nat := 0xFFFF_FFFF_FFFF_FFFF

  /** Rust's `n as u8`: keeps the low eight bits. */
  function AsU8(n: nat): (r: u8)
    ensures n < 0x100 ==> r == n
    ensures (n - r) % 0x100 == 0
  {
    n % 0x100
  }

  /** Rust's `n as u32`: keeps the low 32 bits. */
  function AsU32(n: nat): (r: u32)
    ensures n < 0x1_0000_0000 ==> r == n
    ensures (n - r) % 0x1_0000_0000 == 0
  {
    n % 0x1_0000_0000
  }
}
