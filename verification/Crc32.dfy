/** The CRC-32 that the headless build keeps over all rendered frames (i_video_headless.c), the one of
    section 8 of RFC 1952. Words are unsigned integers, with exclusive or defined on their binary digits. */
module Crc32 {
  import opened Bytes

  const POLYNOMIAL: u32 := 0xedb8_8320
  const ALL_ONES: u32 := 0xffff_ffff

  // ------------------------------------------------------------ exclusive or

  function Xor(a: nat, b: nat): nat
    decreases a + b
  {
    if a == 0 && b == 0 then 0 else (a + b) % 2 + 2 * Xor(a / 2, b / 2)
  }

  lemma LastDigit(digit: nat, rest: nat)
    requires digit < 2
    ensures (digit + 2 * rest) % 2 == digit && (digit + 2 * rest) / 2 == rest
  {
  }

  lemma XorDigits(a: nat, b: nat)
    ensures Xor(a, b) % 2 == (a + b) % 2 && Xor(a, b) / 2 == Xor(a / 2, b / 2)
  {
    var rest := Xor(a / 2, b / 2);
    if a + b > 0 {
      assert Xor(a, b) == (a + b) % 2 + 2 * rest;
      LastDigit((a + b) % 2, rest);
    }
  }

  lemma {:induction false} XorZero(a: nat)
    ensures Xor(a, 0) == a && Xor(0, a) == a
  {
    if a > 0 {
      XorZero(a / 2);
    }
  }

  lemma {:induction false} XorSelf(a: nat)
    ensures Xor(a, a) == 0
  {
    if a > 0 {
      XorSelf(a / 2);
    }
  }

  lemma {:induction false} XorCommutes(a: nat, b: nat)
    ensures Xor(a, b) == Xor(b, a)
    decreases a + b
  {
    if a + b > 0 {
      XorCommutes(a / 2, b / 2);
    }
  }

  lemma SameDigits(a: nat, b: nat)
    requires a % 2 == b % 2 && a / 2 == b / 2
    ensures a == b
  {
  }

  /** Both sides of associativity have the same last digit. */
  lemma LastDigits(a: nat, b: nat, c: nat, ab: nat, bc: nat)
    requires ab % 2 == (a + b) % 2 && bc % 2 == (b + c) % 2
    ensures (ab + c) % 2 == (a + bc) % 2
  {
  }

  lemma {:induction false} XorAssociates(a: nat, b: nat, c: nat)
    ensures Xor(Xor(a, b), c) == Xor(a, Xor(b, c))
    decreases a + b + c
  {
    var ab, bc := Xor(a, b), Xor(b, c);
    if a + b + c == 0 {
      XorZero(0);
    } else {
      XorAssociates(a / 2, b / 2, c / 2);
      HalvesAgree(a, b, c, ab, bc);
      XorDigits(a, b);
      XorDigits(b, c);
      XorDigits(ab, c);
      XorDigits(a, bc);
      LastDigits(a, b, c, ab, bc);
      SameDigits(Xor(ab, c), Xor(a, bc));
    }
  }

  lemma HalvesAgree(a: nat, b: nat, c: nat, ab: nat, bc: nat)
    requires ab == Xor(a, b) && bc == Xor(b, c)
    requires Xor(Xor(a / 2, b / 2), c / 2) == Xor(a / 2, Xor(b / 2, c / 2))
    ensures Xor(ab, c) / 2 == Xor(a, bc) / 2
  {
    XorDigits(a, b);
    XorDigits(b, c);
    XorDigits(ab, c);
    XorDigits(a, bc);
  }

  lemma XorRearranges(a: nat, b: nat, p: nat, q: nat)
    ensures Xor(Xor(a, b), Xor(p, q)) == Xor(Xor(a, p), Xor(b, q))
  {
    XorAssociates(a, b, Xor(p, q));
    XorAssociates(b, p, q);
    XorCommutes(b, p);
    XorAssociates(p, b, q);
    XorAssociates(a, p, Xor(b, q));
  }

  lemma XorCancels(a: nat, b: nat, c: nat)
    requires Xor(a, c) == Xor(b, c)
    ensures a == b
  {
    XorAssociates(a, c, c);
    XorAssociates(b, c, c);
    XorSelf(c);
    XorZero(a);
    XorZero(b);
  }

  lemma {:induction false} XorFits(a: nat, b: nat, k: nat)
    requires a < Pow2(k) && b < Pow2(k)
    ensures Xor(a, b) < Pow2(k)
    decreases k
  {
    if k > 0 && a + b > 0 {
      XorFits(a / 2, b / 2, k - 1);
    }
  }

  lemma Power32()
    ensures Pow2(31) == U31_SPAN && Pow2(32) == U32_SPAN && Pow2(8) == 256
  {
    assert Pow2(4) == 16 && Pow2(8) == 256 && Pow2(12) == 0x1000 && Pow2(16) == 0x1_0000;
    assert Pow2(20) == 0x10_0000 && Pow2(24) == 0x100_0000 && Pow2(28) == 0x1000_0000 && Pow2(32) == U32_SPAN;
  }

  lemma XorDouble(low: nat, half: nat)
    requires Xor(low / 2, half) == low / 2 + half
    ensures Xor(low, 2 * half) == low + 2 * half
  {
    XorDigits(low, 2 * half);
    SameDigits(Xor(low, 2 * half), low + 2 * half);
  }

  /** Digits that do not overlap just add up. */
  lemma {:induction false} XorDisjoint(low: nat, high: nat, k: nat)
    requires low < Pow2(k)
    ensures Xor(low, Pow2(k) * high) == low + Pow2(k) * high
    decreases k
  {
    if k == 0 {
      XorZero(high);
    } else {
      var half := Pow2(k - 1) * high;
      assert Pow2(k) * high == 2 * half;
      XorDisjoint(low / 2, high, k - 1);
      XorDouble(low, half);
    }
  }

  // --------------------------------------------------------------- the update

  /** `p` if the low bit is set: the C code masks with the bit's negation. */
  function Pick(bit: nat, p: nat): nat {
    if bit % 2 == 1 then p else 0
  }

  function XorWord(a: u32, b: u32): (r: u32) {
    Power32();
    XorFits(a, b, 32);
    Xor(a, b)
  }

  /** One turn of the inner loop: shift right, and fold the polynomial in if a one fell out. */
  function BitStep(c: u32): u32 {
    XorWord(c / 2, Pick(c, POLYNOMIAL))
  }

  function BitSteps(c: u32, n: nat): u32
    decreases n, c
  {
    if n == 0 then c else BitSteps(BitStep(c), n - 1)
  }

  function ByteStep(c: u32, b: byte): u32 {
    BitSteps(XorWord(c, b), 8)
  }

  function Absorb(c: u32, data: seq<byte>): u32
    decreases |data|
  {
    if data == [] then c else Absorb(ByteStep(c, data[0]), data[1..])
  }

  /** crc32_update; the complement of a word is its distance from all ones. */
  function Crc(crc: u32, data: seq<byte>): u32 {
    ALL_ONES - Absorb(ALL_ONES - crc, data)
  }

  method UpdateOctet(c: u32, b: byte) returns (r: u32)
    ensures r == ByteStep(c, b)
  {
    r := XorWord(c, b);
    var bit := 0;
    while bit < 8
      invariant 0 <= bit <= 8 && BitSteps(r, 8 - bit) == ByteStep(c, b)
    {
      r := XorWord(r / 2, Pick(r, POLYNOMIAL));
      bit := bit + 1;
    }
  }

  method UpdateCrc(crc: u32, data: seq<byte>) returns (r: u32)
    ensures r == Crc(crc, data)
  {
    r := ALL_ONES - crc;
    var i := 0;
    ghost var rest := data;
    while i < |data|
      invariant 0 <= i <= |data| && rest == data[i..]
      invariant Absorb(r, rest) == Absorb(ALL_ONES - crc, data)
    {
      r := UpdateOctet(r, data[i]);
      rest := rest[1..];
      i := i + 1;
    }
    r := ALL_ONES - r;
  }

  // ---------------------------------------------------------------- chaining

  lemma {:induction false} AbsorbAppend(c: u32, a: seq<byte>, b: seq<byte>)
    ensures Absorb(Absorb(c, a), b) == Absorb(c, a + b)
    decreases |a|
  {
    if a == [] {
      assert a + b == b;
    } else {
      assert (a + b)[1..] == a[1..] + b;
      AbsorbAppend(ByteStep(c, a[0]), a[1..], b);
    }
  }

  /** Updating with one piece after another is updating with both at once. */
  lemma Chaining(crc: u32, a: seq<byte>, b: seq<byte>)
    ensures Crc(Crc(crc, a), b) == Crc(crc, a + b)
  {
    AbsorbAppend(ALL_ONES - crc, a, b);
  }

  // --------------------------------------------------------------- linearity

  lemma PickLinear(a: nat, b: nat, x: nat, p: nat)
    requires x % 2 == (a + b) % 2
    ensures Pick(x, p) == Xor(Pick(a, p), Pick(b, p))
  {
    if a % 2 == 1 && b % 2 == 1 {
      XorSelf(p);
    } else if b % 2 == 1 {
      XorZero(p);
    } else {
      XorZero(Pick(a, p));
    }
  }

  lemma BitStepLinear(a: u32, b: u32)
    ensures BitStep(XorWord(a, b)) == XorWord(BitStep(a), BitStep(b))
  {
    XorDigits(a, b);
    PickLinear(a, b, Xor(a, b), POLYNOMIAL);
    XorRearranges(a / 2, b / 2, Pick(a, POLYNOMIAL), Pick(b, POLYNOMIAL));
  }

  lemma {:induction false} BitStepsLinear(a: u32, b: u32, n: nat)
    ensures BitSteps(XorWord(a, b), n) == XorWord(BitSteps(a, n), BitSteps(b, n))
    decreases n
  {
    if n > 0 {
      BitStepLinear(a, b);
      BitStepsLinear(BitStep(a), BitStep(b), n - 1);
    }
  }

  function XorByte(a: byte, b: byte): byte {
    Power32();
    XorFits(a, b, 8);
    Xor(a, b)
  }

  lemma ByteStepLinear(a: u32, b: u32, x: byte, y: byte)
    ensures ByteStep(XorWord(a, b), XorByte(x, y)) == XorWord(ByteStep(a, x), ByteStep(b, y))
  {
    XorRearranges(a, b, x, y);
    BitStepsLinear(XorWord(a, x), XorWord(b, y), 8);
  }

  function XorAll(a: seq<byte>, b: seq<byte>): (r: seq<byte>)
    requires |a| == |b|
    ensures |r| == |a|
  {
    if a == [] then [] else [XorByte(a[0], b[0])] + XorAll(a[1..], b[1..])
  }

  /** The register is linear over exclusive or, in its start and in the data together. */
  lemma {:induction false} AbsorbLinear(a: u32, b: u32, x: seq<byte>, y: seq<byte>)
    requires |x| == |y|
    ensures Absorb(XorWord(a, b), XorAll(x, y)) == XorWord(Absorb(a, x), Absorb(b, y))
    decreases |x|
  {
    if x != [] {
      ByteStepLinear(a, b, x[0], y[0]);
      assert XorAll(x, y)[1..] == XorAll(x[1..], y[1..]);
      AbsorbLinear(ByteStep(a, x[0]), ByteStep(b, y[0]), x[1..], y[1..]);
    }
  }

  // --------------------------------------------------------------- injectivity

  function ShiftRight(a: nat, k: nat): nat
    decreases k
  {
    if k == 0 then a else ShiftRight(a / 2, k - 1)
  }

  lemma {:induction false} XorShifts(a: nat, b: nat, k: nat)
    ensures ShiftRight(Xor(a, b), k) == Xor(ShiftRight(a, k), ShiftRight(b, k))
    decreases k
  {
    if k > 0 {
      XorDigits(a, b);
      XorShifts(a / 2, b / 2, k - 1);
    }
  }

  lemma {:induction false} ShiftedOut(a: nat, k: nat)
    requires a < Pow2(k)
    ensures ShiftRight(a, k) == 0
    decreases k
  {
    if k > 0 {
      ShiftedOut(a / 2, k - 1);
    }
  }

  lemma {:induction false} TopIsOne(a: nat, k: nat)
    requires Pow2(k) <= a < 2 * Pow2(k)
    ensures ShiftRight(a, k) == 1
    decreases k
  {
    if k > 0 {
      TopIsOne(a / 2, k - 1);
    }
  }

  /** The polynomial's top bit tells whether a one fell out. */
  lemma TopBit(c: u32, k: nat)
    requires k == 31
    ensures ShiftRight(BitStep(c), k) == c % 2
  {
    Power32();
    XorShifts(c / 2, Pick(c, POLYNOMIAL), k);
    ShiftedOut(c / 2, k);
    ShiftedOut(0, k);
    TopIsOne(POLYNOMIAL, k);
    XorZero(ShiftRight(Pick(c, POLYNOMIAL), k));
  }

  lemma BitStepInjective(a: u32, b: u32)
    requires BitStep(a) == BitStep(b)
    ensures a == b
  {
    TopBit(a, 31);
    TopBit(b, 31);
    XorCancels(a / 2, b / 2, Pick(a, POLYNOMIAL));
  }

  lemma {:induction false} BitStepsInjective(a: u32, b: u32, n: nat)
    requires BitSteps(a, n) == BitSteps(b, n)
    ensures a == b
    decreases n
  {
    if n > 0 {
      BitStepsInjective(BitStep(a), BitStep(b), n - 1);
      BitStepInjective(a, b);
    }
  }

  lemma {:induction false} AbsorbInjective(a: u32, b: u32, data: seq<byte>)
    requires Absorb(a, data) == Absorb(b, data)
    ensures a == b
    decreases |data|
  {
    if data != [] {
      AbsorbInjective(ByteStep(a, data[0]), ByteStep(b, data[0]), data[1..]);
      BitStepsInjective(XorWord(a, data[0]), XorWord(b, data[0]), 8);
      XorCancels(a, b, data[0]);
    }
  }

  // ------------------------------------------------------------------- bursts

  /** Up to four octets as one little-endian word. */
  function Little(data: seq<byte>): (w: nat)
    ensures |data| <= 4 ==> w < U32_SPAN
    ensures |data| <= 3 ==> w < 0x100_0000
    ensures |data| <= 2 ==> w < 0x1_0000
    ensures |data| <= 1 ==> w < 0x100
    decreases |data|
  {
    if data == [] then 0 else data[0] + 256 * Little(data[1..])
  }

  lemma {:induction false} LittleInjective(u: seq<byte>, v: seq<byte>)
    requires |u| == |v| && Little(u) == Little(v)
    ensures u == v
    decreases |u|
  {
    if u != [] {
      LittleInjective(u[1..], v[1..]);
      assert u == [u[0]] + u[1..] && v == [v[0]] + v[1..];
    }
  }

  lemma EvenStep(half: u32)
    requires 2 * half < U32_SPAN
    ensures BitStep(2 * half) == half
  {
    XorZero(half);
  }

  lemma {:induction false} ShiftedSteps(w: u32, n: nat)
    requires Pow2(n) * w < U32_SPAN
    ensures BitSteps(Pow2(n) * w, n) == w
    decreases n
  {
    if n > 0 {
      var half := Pow2(n - 1) * w;
      assert Pow2(n) * w == 2 * half;
      EvenStep(half);
      ShiftedSteps(w, n - 1);
    }
  }

  lemma BitStepsTurn(c: u32, n: nat)
    requires n > 0
    ensures BitSteps(c, n) == BitSteps(BitStep(c), n - 1)
  {
  }

  lemma {:induction false} BitStepsAdd(c: u32, n: nat, m: nat)
    ensures BitSteps(BitSteps(c, n), m) == BitSteps(c, n + m)
    decreases n
  {
    if n > 0 {
      BitStepsTurn(c, n);
      BitStepsTurn(c, n + m);
      BitStepsAdd(BitStep(c), n - 1, m);
    }
  }

  lemma MixOctet(c: u32, b: byte, rest: u32)
    requires b + 256 * rest < U32_SPAN
    ensures XorWord(c, b + 256 * rest) == XorWord(XorWord(c, b), 256 * rest)
  {
    Power32();
    XorDisjoint(b, rest, 8);
    XorAssociates(c, b, 256 * rest);
  }

  lemma PlainShift(rest: u32, high: u32)
    requires high == 256 * rest
    ensures BitSteps(high, 8) == rest
  {
    Power32();
    ShiftedSteps(rest, 8);
  }

  /** The octets of a burst that are not yet due ride along above the one that is. */
  lemma OctetOfBurst(c: u32, b: byte, rest: u32)
    requires b + 256 * rest < U32_SPAN
    ensures BitSteps(XorWord(c, b + 256 * rest), 8) == XorWord(ByteStep(c, b), rest)
  {
    MixOctet(c, b, rest);
    BitStepsLinear(XorWord(c, b), 256 * rest, 8);
    PlainShift(rest, 256 * rest);
  }

  lemma AbsorbTurn(c: u32, data: seq<byte>)
    requires data != []
    ensures Absorb(c, data) == Absorb(ByteStep(c, data[0]), data[1..])
  {
  }

  /** Absorbing up to four octets is mixing them in all at once and stepping over them. */
  lemma {:induction false} AbsorbIsOneWord(c: u32, data: seq<byte>, w: u32, n: nat)
    requires w == Little(data) && n == 8 * |data|
    ensures Absorb(c, data) == BitSteps(XorWord(c, w), n)
    decreases |data|
  {
    if data == [] {
      XorZero(c);
    } else {
      var rest := Little(data[1..]);
      OctetOfBurst(c, data[0], rest);
      AbsorbTurn(c, data);
      AbsorbIsOneWord(ByteStep(c, data[0]), data[1..], rest, n - 8);
      BitStepsAdd(XorWord(c, w), 8, n - 8);
    }
  }

  lemma BurstSeen(c: u32, u: seq<byte>, v: seq<byte>)
    requires |u| == |v| <= 4 && Absorb(c, u) == Absorb(c, v)
    ensures u == v
  {
    AbsorbIsOneWord(c, u, Little(u), 8 * |u|);
    AbsorbIsOneWord(c, v, Little(v), 8 * |v|);
    BitStepsInjective(XorWord(c, Little(u)), XorWord(c, Little(v)), 8 * |u|);
    XorCommutes(c, Little(u));
    XorCommutes(c, Little(v));
    XorCancels(Little(u), Little(v), c);
    LittleInjective(u, v);
  }

  lemma AbsorbThree(r: u32, x: seq<byte>, y: seq<byte>, z: seq<byte>)
    ensures Absorb(r, x + y + z) == Absorb(Absorb(Absorb(r, x), y), z)
  {
    AbsorbAppend(r, x, y);
    AbsorbAppend(r, x + y, z);
  }

  /** Two streams that differ only within four consecutive octets never have the same CRC. */
  lemma BurstDetected(crc: u32, before: seq<byte>, u: seq<byte>, v: seq<byte>, after: seq<byte>)
    requires |u| == |v| <= 4 && u != v
    ensures Crc(crc, before + u + after) != Crc(crc, before + v + after)
  {
    var r := ALL_ONES - crc;
    var c := Absorb(r, before);
    AbsorbThree(r, before, u, after);
    AbsorbThree(r, before, v, after);
    if Absorb(Absorb(c, u), after) == Absorb(Absorb(c, v), after) {
      AbsorbInjective(Absorb(c, u), Absorb(c, v), after);
      BurstSeen(c, u, v);
    }
  }

  // ------------------------------------------------------------------- frames

  function Flatten(screens: seq<seq<byte>>): seq<byte> {
    if screens == [] then [] else Flatten(screens[..|screens| - 1]) + screens[|screens| - 1]
  }

  /** frame_crc after the frames given, each chained on the one before. */
  function FrameCrc(screens: seq<seq<byte>>): u32 {
    if screens == [] then 0 else Crc(FrameCrc(screens[..|screens| - 1]), screens[|screens| - 1])
  }

  /** After any number of frames, the CRC is that of all screens taken as one stream. */
  lemma {:induction false} FramesAreOneStream(screens: seq<seq<byte>>)
    ensures FrameCrc(screens) == Crc(0, Flatten(screens))
    decreases |screens|
  {
    if screens != [] {
      FramesAreOneStream(screens[..|screens| - 1]);
      Chaining(0, Flatten(screens[..|screens| - 1]), screens[|screens| - 1]);
    }
  }

  /** The statics of i_video_headless.c; `shown` is history. */
  class Headless {
    var frameCrc: u32
    var frameCount: nat
    ghost var shown: seq<seq<byte>>

    ghost predicate Valid()
      reads this
    {
      frameCrc == FrameCrc(shown) && frameCount == |shown|
    }

    constructor ()
      ensures Valid() && shown == []
    {
      frameCrc, frameCount, shown := 0, 0, [];
    }

    method FinishUpdate(screen: seq<byte>)
      requires Valid()
      modifies this
      ensures Valid() && shown == old(shown) + [screen]
      ensures frameCrc == Crc(0, Flatten(shown))
    {
      frameCrc := UpdateCrc(frameCrc, screen);
      frameCount := frameCount + 1;
      assert (shown + [screen])[..|shown|] == shown;
      shown := shown + [screen];
      FramesAreOneStream(shown);
    }
  }
}
