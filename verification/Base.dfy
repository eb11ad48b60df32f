/** Vocabulary shared by every component of the model. */
module Base {

  type Byte = x: int | 0 <= x < 256

  datatype Option<+T> = None | Some(value: T)

  datatype Result<+T, +E> = Ok(value: T) | Err(error: E)

  function Min(a: int, b: int): int { if a < b then a else b }

  /** Big-endian value of two and of four bytes, as `struct` reads '!H' and '!I'. */
  function FromU16(hi: Byte, lo: Byte): (n: nat)
    ensures n < 0x1_0000
  {
    hi * 256 + lo
  }

  function FromU32(a: Byte, b: Byte, c: Byte, d: Byte): (n: nat) {
    FromU16(a, b) * 0x1_0000 + FromU16(c, d)
  }

  /** `n.to_bytes(8, 'big')` for the lengths that occur. */
  function U64(n: nat): (bs: seq<Byte>)
    requires n < 0x1_0000_0000
    ensures |bs| == 8
  {
    [0, 0, 0, 0, n / 0x100_0000, n / 0x1_0000 % 256, n / 256 % 256, n % 256]
  }
}
