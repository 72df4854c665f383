/** Big-endian integers, and readers that consume a byte sequence from the front. */
module Bytes {

  type byte = b: int | 0 <= b < 0x100
  type uint16 = x: int | 0 <= x < 0x1_0000
  type uint32 = x: int | 0 <= x < 0x1_0000_0000

  const TWO_24: nat := 0x100_0000

  function Be16(x: uint16): (s: seq<byte>)
    ensures |s| == 2
  {
    [x / 0x100, x % 0x100]
  }

  function Be32(x: uint32): (s: seq<byte>)
    ensures |s| == 4
  {
    Be16(x / 0x1_0000) + Be16(x % 0x1_0000)
  }

  function Value16(s: seq<byte>): uint16
    requires |s| == 2
  {
    (s[0] as int) * 0x100 + s[1]
  }

  function Value32(s: seq<byte>): uint32
    requires |s| == 4
  {
    Value16(s[..2]) * 0x1_0000 + Value16(s[2..])
  }

  lemma Be16Value(s: seq<byte>)
    requires |s| == 2
    ensures Be16(Value16(s)) == s
  {}

  lemma Value16Be(x: uint16)
    ensures Value16(Be16(x)) == x
  {}

  lemma Value32Be(x: uint32)
    ensures Value32(Be32(x)) == x
  {
    Value16Be(x / 0x1_0000);
    Value16Be(x % 0x1_0000);
    assert Be32(x)[..2] == Be16(x / 0x1_0000) && Be32(x)[2..] == Be16(x % 0x1_0000);
  }

  lemma Be32Value(s: seq<byte>)
    requires |s| == 4
    ensures Be32(Value32(s)) == s
  {
    Be16Value(s[..2]);
    Be16Value(s[2..]);
    assert s == s[..2] + s[2..];
  }

  function Pow2(width: nat): nat {
    if width == 0 then 1 else 2 * Pow2(width - 1)
  }

  /** The bitwise or, bit by bit. */
  function OrBits(a: nat, b: nat): nat {
    if a == 0 then b
    else if b == 0 then a
    else (if a % 2 == 1 || b % 2 == 1 then 1 else 0) + 2 * OrBits(a / 2, b / 2)
  }

  lemma {:induction false} OrBitsFit(a: nat, b: nat, width: nat)
    requires a < Pow2(width) && b < Pow2(width)
    ensures OrBits(a, b) < Pow2(width)
  {
    if a != 0 && b != 0 { OrBitsFit(a / 2, b / 2, width - 1); }
  }

  function Or(a: byte, b: byte): byte {
    assert Pow2(8) == 0x100;
    OrBitsFit(a, b, 8);
    OrBits(a, b)
  }

  lemma OrZero(a: byte)
    ensures Or(a, 0) == a
  {}
}
