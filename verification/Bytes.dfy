/** Octets, the C integer types the server uses, and big-endian fields. */
module Bytes {
  type byte = b: int | 0 <= b < 256
  type u16 = v: int | 0 <= v < 0x1_0000
  type u32 = v: int | 0 <= v < 0x1_0000_0000

  const U31_SPAN := 0x8000_0000
  const U32_SPAN := 0x1_0000_0000
  const U64_SPAN := 0x1_0000_0000_0000_0000
  const INT32_MAX := 0x7fff_ffff

  datatype Option<+T> = None | Some(value: T)

  /** 2^n. */
  function Pow2(n: nat): (p: nat)
    ensures p >= 1
  {
    if n == 0 then 1 else 2 * Pow2(n - 1)
  }

  /** What a signed value becomes when C compares it as an unsigned 64-bit size. */
  function AsSize(w: int): int {
    if w < 0 then w + U64_SPAN else w
  }

  function Be16(v: u16): seq<byte> {
    [v / 256, v % 256]
  }

  function Be32(v: u32): seq<byte> {
    [v / 0x100_0000, v / 0x1_0000 % 256, v / 256 % 256, v % 256]
  }

  function Read16(w: seq<byte>): u16
    requires 2 <= |w|
  {
    (w[0] as int) * 256 + w[1] as int
  }

  function Read32(w: seq<byte>): u32
    requires 4 <= |w|
  {
    (w[0] as int) * 0x100_0000 + (w[1] as int) * 0x1_0000 + (w[2] as int) * 256 + w[3] as int
  }

  /** The reserved top bit of a stream identifier or increment is dropped. */
  function Read31(w: seq<byte>): (v: u32)
    requires 4 <= |w|
    ensures v < U31_SPAN
  {
    (w[0] as int) % 128 * 0x100_0000 + (w[1] as int) * 0x1_0000 + (w[2] as int) * 256 + w[3] as int
  }

  lemma Read16OfBe16(v: u16, rest: seq<byte>)
    ensures Read16(Be16(v) + rest) == v
  {
  }

  lemma Digits(v: int)
    requires 0 <= v < U32_SPAN
    ensures v == v / 0x100_0000 * 0x100_0000 + v / 0x1_0000 % 256 * 0x1_0000 + v / 256 % 256 * 256 + v % 256
    ensures v % U31_SPAN
            == v / 0x100_0000 % 128 * 0x100_0000 + v / 0x1_0000 % 256 * 0x1_0000 + v / 256 % 256 * 256 + v % 256
  {
    assert v / 0x1_0000 == (v / 256) / 256;
    assert v / 0x100_0000 == (v / 0x1_0000) / 256;
  }

  lemma Read32OfBe32(v: u32, rest: seq<byte>)
    ensures Read32(Be32(v) + rest) == v
    ensures Read31(Be32(v) + rest) == v % U31_SPAN
  {
    var w := Be32(v) + rest;
    assert w[0] == v / 0x100_0000 && w[1] == v / 0x1_0000 % 256 && w[2] == v / 256 % 256 && w[3] == v % 256;
    Digits(v);
  }

  /** Reading is injective, so the four octets are the only ones that read as `v`. */
  lemma Be32OfRead32(w: seq<byte>)
    requires |w| == 4
    ensures Be32(Read32(w)) == w
  {
    var a, b, c, d := w[0] as int, w[1] as int, w[2] as int, w[3] as int;
    var v := Read32(w) as int;
    assert v / 256 == a * 0x1_0000 + b * 256 + c && v % 256 == d;
    assert v / 0x1_0000 == (v / 256) / 256 == a * 256 + b;
    assert v / 0x100_0000 == (v / 0x1_0000) / 256 == a;
  }

  method WriteU16(wire: array<byte>, off: nat, v: u16)
    requires off + 2 <= wire.Length
    modifies wire
    ensures wire[..] == old(wire[..off]) + Be16(v) + old(wire[off + 2..])
  {
    wire[off] := v / 256;
    wire[off + 1] := v % 256;
  }

  method WriteU32(wire: array<byte>, off: nat, v: u32)
    requires off + 4 <= wire.Length
    modifies wire
    ensures wire[..] == old(wire[..off]) + Be32(v) + old(wire[off + 4..])
  {
    wire[off] := v / 0x100_0000;
    wire[off + 1] := v / 0x1_0000 % 256;
    wire[off + 2] := v / 256 % 256;
    wire[off + 3] := v % 256;
  }

  /** memcpy of `data` to `wire + off`. */
  method CopyInto(wire: array<byte>, off: nat, data: seq<byte>)
    requires off + |data| <= wire.Length
    modifies wire
    ensures wire[..] == old(wire[..off]) + data + old(wire[off + |data|..])
  {
    forall i | 0 <= i < |data| {
      wire[off + i] := data[i];
    }
  }

  lemma Assoc<T>(a: seq<T>, b: seq<T>, c: seq<T>)
    ensures (a + b) + c == a + (b + c)
  {
  }

  /** A prefix of a prefix. */
  lemma Shorter<T>(s: seq<T>, a: seq<T>, b: seq<T>)
    requires s == a + b
    ensures s[..|a|] == a
  {
  }
}
