/** Machine widths, byte strings and the result types shared by every module. */
module Prelude {

  const U32_MAX: nat := 0xFFFF_FFFF
  const U64_MAX: nat := 0xFFFF_FFFF_FFFF_FFFF
  const U128_MAX: nat := 0xFFFF_FFFF_FFFF_FFFF_FFFF_FFFF_FFFF_FFFF

  type u32 = x: nat | x <= U32_MAX

  type Byte = x: int | 0 <= x < 256
  type Bytes = seq<Byte>

  /** A 32 byte hash value (`H256`). */
  type Digest = d: Bytes | |d| == 32 witness seq(32, i => 0)

  datatype Option<+T> = None | Some(value: T)

  function Min(a: nat, b: nat): nat { if a <= b then a else b }
}
