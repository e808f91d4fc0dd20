/** 32-bit words as four bytes, the least significant first. */
module LittleEndian {
  import opened Wrappers

  const U32_MAX: nat := 0xFFFF_FFFF

  function LowByte(n: nat): Byte { n % 256 }

  function ToLittleEndian(n: nat): seq<Byte> {
    [LowByte(n), LowByte(n / 256), LowByte(n / 256 / 256), LowByte(n / 256 / 256 / 256)]
  }

  function FromLittleEndian(b: seq<Byte>): nat
    requires |b| == 4
  {
    var (b0: int, b1: int, b2: int, b3: int) := (b[0], b[1], b[2], b[3]);
    b0 + 256 * (b1 + 256 * (b2 + 256 * b3))
  }

  /** Four bytes, each worth 256 times the one before it. */
  lemma LittleEndianIs(n: nat)
    requires n <= U32_MAX
    ensures var b := ToLittleEndian(n);
      && |b| == 4
      && n == b[0] as int + 0x100 * b[1] as int + 0x1_0000 * b[2] as int + 0x100_0000 * b[3] as int
  {}

  lemma LittleEndianRoundTrip(n: nat)
    requires n <= U32_MAX
    ensures FromLittleEndian(ToLittleEndian(n)) == n
  {}

  lemma LittleEndianUnique(b: seq<Byte>)
    requires |b| == 4
    ensures ToLittleEndian(FromLittleEndian(b)) == b && FromLittleEndian(b) <= U32_MAX
  {
    var b1: int, b2: int, b3: int := b[1], b[2], b[3];
    SplitByte(b[0], b1 + 256 * (b2 + 256 * b3));
    SplitByte(b[1], b2 + 256 * b3);
    SplitByte(b[2], b3);
  }

  lemma SplitByte(low: Byte, high: nat)
    ensures LowByte(low + 256 * high) == low && (low + 256 * high) / 256 == high
  {}
}
