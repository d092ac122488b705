/** Numbers on the wire: most significant byte first. */
module Bytes {
  type Byte = x: int | 0 <= x < 0x100

  function U16(x: int): (s: seq<Byte>)
    requires 0 <= x < 0x1_0000
    ensures |s| == 2
  {
    [x / 0x100, x % 0x100]
  }

  function U32(x: int): (s: seq<Byte>)
    requires 0 <= x < 0x1_0000_0000
    ensures |s| == 4
  {
    U16(x / 0x1_0000) + U16(x % 0x1_0000)
  }

  function FromU16(s: seq<Byte>): (x: int)
    requires |s| == 2
    ensures 0 <= x < 0x1_0000
  {
    (s[0] as int) * 0x100 + s[1] as int
  }

  function FromU32(s: seq<Byte>): (x: int)
    requires |s| == 4
    ensures 0 <= x < 0x1_0000_0000
  {
    FromU16(s[..2]) * 0x1_0000 + FromU16(s[2..])
  }

  lemma U16RoundTrip(x: int)
    requires 0 <= x < 0x1_0000
    ensures FromU16(U16(x)) == x
  {
  }

  lemma U32RoundTrip(x: int)
    requires 0 <= x < 0x1_0000_0000
    ensures FromU32(U32(x)) == x
  {
    assert U32(x)[..2] == U16(x / 0x1_0000) && U32(x)[2..] == U16(x % 0x1_0000);
    U16RoundTrip(x / 0x1_0000);
    U16RoundTrip(x % 0x1_0000);
  }

  /** What bytes are worth, the most significant one first. */
  function Worth(s: seq<Byte>): int {
    if s == [] then 0 else 0x100 * Worth(s[..|s| - 1]) + s[|s| - 1] as int
  }

  lemma WorthOfTwo(a: Byte, b: Byte)
    ensures Worth([a, b]) == 0x100 * (a as int) + b as int
  {
    var s: seq<Byte> := [a];
    assert [a, b][..1] == s && s[..0] == [];
    assert Worth(s) == 0x100 * Worth([]) + a as int;
  }

  lemma WorthOfNumbers(x: int, y: int)
    requires 0 <= x < 0x1_0000 && 0 <= y < 0x1_0000_0000
    ensures Worth(U16(x)) == x && Worth(U32(y)) == y
  {
    WorthOfTwo(x / 0x100, x % 0x100);
    var high, low := U16(y / 0x1_0000), U16(y % 0x1_0000);
    WorthOfTwo(high[0], high[1]);
    assert U32(y)[..3][..2] == high && U32(y)[..3] == high + [low[0]] && U32(y) == high + low;
    assert Worth(high + [low[0]]) == 0x100 * Worth(high) + low[0] as int;
  }
}
