/** Fixed-width unsigned integers of the C code (unsigned char, unsigned
    short, a 32-bit pattern) and their little-endian byte layout.
    Every multi-byte access in this model uses the little-endian layout. */
module Word {

  type u8 = x: int | 0 <= x < 0x100
  type u16 = x: int | 0 <= x < 0x1_0000
  type u32 = x: int | 0 <= x < 0x1_0000_0000

  /** Conversion of an int to unsigned short: reduction modulo 2^16. */
  function Wrap16(x: int): (r: u16)
    ensures 0 <= x < 0x1_0000 ==> r == x
    ensures (x - r) % 0x1_0000 == 0
  {
    x % 0x1_0000
  }

  /** `a + b` in unsigned short arithmetic. */
  function Add16(a: u16, b: u16): u16 {
    if a + b < 0x1_0000 then a + b else a + b - 0x1_0000
  }

  /** `a - b` in unsigned short arithmetic. */
  function Sub16(a: u16, b: u16): u16 {
    if a >= b then a - b else a - b + 0x1_0000
  }

  /** Both agree with the conversion of the exact int result: the C
      assignment `x += n` / `x -= n` on an unsigned short. */
  lemma Add16Sub16Wrap(a: u16, b: u16)
    ensures Add16(a, b) == Wrap16(a + b)
    ensures Sub16(a, b) == Wrap16(a - b)
  {
  }

  /** Adding and subtracting the same amount cancel. */
  lemma Add16Sub16Cancel(a: u16, b: u16)
    ensures Add16(Sub16(a, b), b) == a
    ensures Sub16(Add16(a, b), b) == a
  {
  }

  /** The 16-bit value whose low byte is `lo` and high byte is `hi`. */
  function U16Of(lo: u8, hi: u8): u16 {
    lo + 0x100 * hi
  }

  /** The two bytes of `v`, low byte first. */
  function BytesU16(v: u16): (b: seq<u8>)
    ensures |b| == 2
  {
    [v % 0x100, v / 0x100]
  }

  /** The 32-bit value stored little-endian in `b0..b3`. */
  function U32Of(b0: u8, b1: u8, b2: u8, b3: u8): u32 {
    b0 + 0x100 * b1 + 0x1_0000 * b2 + 0x100_0000 * b3
  }

  /** The four bytes of `v`, lowest first. */
  function BytesU32(v: u32): (b: seq<u8>)
    ensures |b| == 4
  {
    [v % 0x100, (v / 0x100) % 0x100, (v / 0x1_0000) % 0x100, v / 0x100_0000]
  }

  /** Little-endian 2-byte read of `s` at `i`. */
  function U16At(s: seq<u8>, i: int): u16
    requires 0 <= i && i + 2 <= |s|
  {
    U16Of(s[i], s[i + 1])
  }

  /** Little-endian 4-byte read of `s` at `i`. */
  function U32At(s: seq<u8>, i: int): u32
    requires 0 <= i && i + 4 <= |s|
  {
    U32Of(s[i], s[i + 1], s[i + 2], s[i + 3])
  }

  /** Splitting a value into bytes and reassembling it gives it back. */
  lemma U16RoundTrip(v: u16)
    ensures U16At(BytesU16(v), 0) == v
  {
  }

  /** Reading two bytes and splitting the value gives the same bytes back. */
  lemma U16BytesRoundTrip(lo: u8, hi: u8)
    ensures BytesU16(U16Of(lo, hi)) == [lo, hi]
  {
  }

  lemma U32RoundTrip(v: u32)
    ensures U32At(BytesU32(v), 0) == v
  {
    var b := BytesU32(v);
    assert v == b[0] + 0x100 * (v / 0x100);
    assert v / 0x100 == b[1] + 0x100 * (v / 0x1_0000);
    assert v / 0x1_0000 == b[2] + 0x100 * (v / 0x100_0000);
  }

  lemma U32BytesRoundTrip(b0: u8, b1: u8, b2: u8, b3: u8)
    ensures BytesU32(U32Of(b0, b1, b2, b3)) == [b0, b1, b2, b3]
  {
    var v := U32Of(b0, b1, b2, b3);
    assert v / 0x100 == b1 + 0x100 * b2 + 0x1_0000 * b3;
    assert v / 0x1_0000 == b2 + 0x100 * b3;
    assert v / 0x100_0000 == b3;
  }
}
