/** The prefixed variable-length integers of section 5.1 of RFC 7541. */
module HpackInteger {
  import opened Bytes
  import opened FrameCodec

  const U32_MAX := 0xffff_ffff
  const MAX_CONTINUATION := 5

  /** 128^n, the weight of continuation octet n. */
  function Weight(n: nat): (p: nat)
    ensures p >= 1
  {
    if n == 0 then 1 else 128 * Weight(n - 1)
  }

  lemma Powers()
    ensures Pow2(1) == 2 && Pow2(2) == 4 && Pow2(3) == 8 && Pow2(4) == 16
    ensures Pow2(5) == 32 && Pow2(6) == 64 && Pow2(7) == 128 && Pow2(8) == 256
  {
    assert Pow2(1) == 2 * Pow2(0) && Pow2(2) == 2 * Pow2(1) && Pow2(3) == 2 * Pow2(2) && Pow2(4) == 2 * Pow2(3);
    assert Pow2(5) == 2 * Pow2(4) && Pow2(6) == 2 * Pow2(5) && Pow2(7) == 2 * Pow2(6) && Pow2(8) == 2 * Pow2(7);
  }

  function PrefixMax(prefix: nat): (m: nat)
    requires 1 <= prefix <= 8
    ensures 1 <= m <= 255
  {
    Powers();
    Pow2(prefix) - 1
  }

  /** Bitwise AND with a mask of `width` ones. */
  function Mask(a: nat, width: nat): (r: nat)
    ensures r < Pow2(width)
  {
    if width == 0 then 0 else a % 2 + 2 * Mask(a / 2, width - 1)
  }

  // ---------------------------------------------------------------- decoding

  /** How many octets the integer's continuation takes: up to the first without its top bit; 0 if none. */
  function Extent(w: seq<byte>): (n: nat)
    ensures n <= |w|
  {
    if w == [] then 0
    else if w[0] < 128 then 1
    else
      var n := Extent(w[1..]);
      if n == 0 then 0 else n + 1
  }

  /** The number a run of octets spells, seven bits each, least significant first. */
  function Limbs(w: seq<byte>): nat {
    if w == [] then 0 else w[0] as int % 128 + 128 * Limbs(w[1..])
  }

  /** The continuation read in one go: octets taken (0 if it never ends) and the number spelled. */
  datatype Tail = Tail(extent: nat, value: nat)

  function ReadTail(w: seq<byte>): (t: Tail)
    ensures t.extent <= |w|
  {
    if w == [] then Tail(0, 0)
    else if w[0] < 128 then Tail(1, w[0])
    else
      var t := ReadTail(w[1..]);
      if t.extent == 0 then t else Tail(t.extent + 1, w[0] as int % 128 + 128 * t.value)
  }

  lemma {:induction false} TailIsLimbs(w: seq<byte>)
    ensures ReadTail(w).extent == Extent(w)
    ensures Extent(w) > 0 ==> ReadTail(w).value == Limbs(w[..Extent(w)])
  {
    if w != [] && w[0] >= 128 {
      TailIsLimbs(w[1..]);
      var n := Extent(w);
      if n > 0 {
        assert w[..n][1..] == w[1..][..n - 1];
      }
    } else if w != [] {
      assert Limbs(w[..1]) == w[0] as int % 128 + 128 * Limbs([]);
    }
  }

  /** The value and the octets used, or a compression error. */
  function DecodeInteger(w: seq<byte>, prefix: nat): (r: Result<(u32, nat)>)
    ensures r.Ok? ==> 1 <= r.value.1 <= |w| && r.value.1 <= 1 + MAX_CONTINUATION
    ensures r.Err? ==> r.code == CompressionError
  {
    if w == [] || prefix == 0 || prefix > 8 then Err(CompressionError)
    else
      var low := Mask(w[0], prefix);
      if low < PrefixMax(prefix) then Ok((low, 1))
      else
        var t := ReadTail(w[1..]);
        if t.extent == 0 || t.extent > MAX_CONTINUATION || low + t.value > U32_MAX then Err(CompressionError)
        else Ok((low + t.value, 1 + t.extent))
  }

  /** The integer that starts a wire, in section 5.1's own terms: `n` continuation octets follow a full
      prefix, all but the last with the top bit set, and they spell `v` on top of the prefix. */
  ghost predicate Spells(w: seq<byte>, prefix: nat, n: nat, v: nat)
    requires 1 <= prefix <= 8
  {
    && n < |w|
    && (n == 0 <==> Mask(w[0], prefix) < PrefixMax(prefix))
    && (forall i :: 1 <= i < n ==> w[i] >= 128)
    && (n > 0 ==> w[n] < 128)
    && v == Mask(w[0], prefix) + Limbs(w[1..1 + n])
  }

  /** Decoding succeeds exactly on integers that end within the wire and within five continuation octets
      and are at most 2^32-1, and returns exactly their value. */
  lemma DecodeIsExact(w: seq<byte>, prefix: nat, v: u32, used: nat)
    requires 1 <= prefix <= 8
    ensures DecodeInteger(w, prefix) == Ok((v, used))
            <==> 1 <= used <= 1 + MAX_CONTINUATION && Spells(w, prefix, used - 1, v)
  {
    if w != [] {
      var rest := w[1..];
      TailIsLimbs(rest);
      ExtentMeans(rest);
      var n := Extent(rest);
      assert rest[..n] == w[1..1 + n];
      assert forall i :: 0 <= i < |rest| ==> rest[i] == w[i + 1];
      if 1 <= used <= 1 + MAX_CONTINUATION && Spells(w, prefix, used - 1, v) {
        if used == 1 {
          assert w[1..1] == [];
        } else {
          ExtentBeyond(rest, used - 2);
        }
      }
    }
  }

  lemma {:induction false} LimbsAppend(a: seq<byte>, b: seq<byte>)
    ensures Limbs(a + b) == Limbs(a) + Weight(|a|) * Limbs(b)
  {
    if a == [] {
      assert a + b == b;
    } else {
      LimbsAppend(a[1..], b);
      assert (a + b)[1..] == a[1..] + b;
      assert 128 * (Weight(|a[1..]|) * Limbs(b)) == Weight(|a|) * Limbs(b);
    }
  }

  lemma LimbsSnoc(a: seq<byte>, b: byte)
    ensures Limbs(a + [b]) == Limbs(a) + Weight(|a|) * (b % 128)
  {
    LimbsAppend(a, [b]);
    assert Limbs([b]) == b % 128;
  }

  lemma LimbsGrow(w: seq<byte>, n: nat, m: nat)
    requires n <= m <= |w|
    ensures Limbs(w[..n]) <= Limbs(w[..m])
  {
    assert w[..m] == w[..n] + w[n..m];
    LimbsAppend(w[..n], w[n..m]);
    assert 0 <= Weight(|w[..n]|) * Limbs(w[n..m]);
  }

  /** Octets that all carry the top bit come before the end of the integer. */
  lemma {:induction false} ExtentBeyond(w: seq<byte>, k: nat)
    requires k <= |w| && forall i :: 0 <= i < k ==> w[i] >= 128
    ensures Extent(w) == 0 || Extent(w) > k
    ensures k < |w| && w[k] < 128 ==> Extent(w) == k + 1
    ensures k == |w| ==> Extent(w) == 0
  {
    if k > 0 {
      ExtentBeyond(w[1..], k - 1);
    }
  }

  /** The integer ends at its first octet without the top bit. */
  lemma {:induction false} ExtentMeans(w: seq<byte>)
    ensures var n := Extent(w);
            && (n > 0 ==> w[n - 1] < 128)
            && forall i :: 0 <= i < (if n == 0 then |w| else n - 1) ==> w[i] >= 128
  {
    if w != [] && w[0] >= 128 {
      ExtentMeans(w[1..]);
    }
  }

  /** The weights the loop meets, and what shifting by 7 * k means with them. */
  lemma Weights(k: nat, b: nat)
    requires k <= 4 && b < 128
    ensures Weight(k) == [1, 128, 0x4000, 0x20_0000, 0x1000_0000][k]
    ensures b > U32_MAX / Weight(k) <==> Weight(k) * b > U32_MAX
  {
    assert Weight(0) == 1 && Weight(1) == 128 && Weight(2) == 0x4000;
    assert Weight(3) == 128 * Weight(2) && Weight(4) == 128 * Weight(3);
  }

  /** Once the octets so far already exceed 2^32-1, so does the whole. */
  lemma TooLarge(w: seq<byte>, prefix: nat, k: nat)
    requires 1 <= prefix <= 8 && w != [] && k < |w[1..]|
    requires Mask(w[0], prefix) == PrefixMax(prefix)
    requires forall i :: 0 <= i < k ==> w[1..][i] >= 128
    requires PrefixMax(prefix) + Limbs(w[1..][..k + 1]) > U32_MAX
    ensures DecodeInteger(w, prefix) == Err(CompressionError)
  {
    var rest := w[1..];
    ExtentBeyond(rest, k);
    TailIsLimbs(rest);
    if Extent(rest) > 0 {
      LimbsGrow(rest, k + 1, Extent(rest));
    }
  }

  ghost predicate Pending(w: seq<byte>, prefix: nat, k: nat, result: nat) {
    && 1 <= prefix <= 8 && w != [] && k <= |w[1..]|
    && Mask(w[0], prefix) == PrefixMax(prefix)
    && (forall i :: 0 <= i < k ==> w[1..][i] >= 128)
    && result == PrefixMax(prefix) + Limbs(w[1..][..k]) <= U32_MAX
  }

  lemma PendingSum(w: seq<byte>, prefix: nat, k: nat, result: nat)
    requires Pending(w, prefix, k, result) && k < |w[1..]|
    ensures PrefixMax(prefix) + Limbs(w[1..][..k + 1]) == result + Weight(k) * (w[1 + k] as int % 128)
  {
    var rest := w[1..];
    LimbsSnoc(rest[..k], rest[k]);
    assert rest[..k] + [rest[k]] == rest[..k + 1];
  }

  /** What the octet at position k + 1 decides, given that all before it carried the top bit. */
  lemma NextOctet(w: seq<byte>, prefix: nat, k: nat, result: nat)
    requires Pending(w, prefix, k, result) && k < |w[1..]| && k <= 4
    ensures var octet := w[1 + k];
            var byteValue := octet as int % 128;
            var addition := Weight(k) * byteValue;
            if byteValue > U32_MAX / Weight(k) || result > U32_MAX - addition then
              DecodeInteger(w, prefix) == Err(CompressionError)
            else if octet < 128 then
              result + addition >= 0 && DecodeInteger(w, prefix) == Ok((result + addition, k + 2))
            else result + addition >= 0 && Pending(w, prefix, k + 1, result + addition)
  {
    var octet := w[1 + k];
    var addition := Weight(k) * (octet as int % 128);
    Weights(k, octet as int % 128);
    PendingSum(w, prefix, k, result);
    if result + addition > U32_MAX {
      TooLarge(w, prefix, k);
    } else if octet < 128 {
      ExtentBeyond(w[1..], k);
      TailIsLimbs(w[1..]);
    }
  }

  /** The decoding loop, with its shift counter and its guards against 32-bit overflow, computes exactly
      the value the octets spell. */
  method DecodeIntegerLoop(w: seq<byte>, prefix: nat) returns (r: Result<(u32, nat)>)
    ensures r == DecodeInteger(w, prefix)
  {
    if |w| == 0 || prefix == 0 || prefix > 8 {
      return Err(CompressionError);
    }
    var prefixMax := PrefixMax(prefix);
    var result := Mask(w[0], prefix);
    if result < prefixMax {
      return Ok((result, 1));
    }
    var weight, shift := 1, 0;  // weight is 1 << shift
    var pos := 1;
    while pos < |w|
      invariant 1 <= pos <= |w| && shift == 7 * (pos - 1) && pos <= 6
      invariant weight == Weight(pos - 1) && result >= 0
      invariant Pending(w, prefix, pos - 1, result)
    {
      var octet := w[pos];
      if pos > 5 || shift >= 32 {
        ExtentBeyond(w[1..], pos - 1);
        TailIsLimbs(w[1..]);
        return Err(CompressionError);
      }
      NextOctet(w, prefix, pos - 1, result);
      var byteValue := octet as int % 128;
      if byteValue > U32_MAX / weight {
        return Err(CompressionError);
      }
      var addition := weight * byteValue;
      if result > U32_MAX - addition {
        return Err(CompressionError);
      }
      result := result + addition;
      pos := pos + 1;
      if octet < 128 {
        return Ok((result, pos));
      }
      weight, shift := weight * 128, shift + 7;
    }
    ExtentBeyond(w[1..], pos - 1);
    TailIsLimbs(w[1..]);
    return Err(CompressionError);
  }

  // ---------------------------------------------------------------- encoding

  /** Bitwise OR of the low `width` bits. */
  function BitOr(a: nat, b: nat, width: nat): (r: nat)
    ensures r < Pow2(width)
  {
    if width == 0 then 0
    else (if a % 2 == 1 || b % 2 == 1 then 1 else 0) + 2 * BitOr(a / 2, b / 2, width - 1)
  }

  function OrByte(a: byte, b: byte): byte {
    Powers();
    BitOr(a, b, 8)
  }

  function Continuation(v: nat): (w: seq<byte>)
    ensures |w| >= 1
  {
    if v >= 128 then [v % 128 + 128] + Continuation(v / 128) else [v]
  }

  function IntegerCode(prefix: nat, high: byte, v: u32): (w: seq<byte>)
    requires 1 <= prefix <= 8
    ensures |w| >= 1
  {
    if v < PrefixMax(prefix) then [OrByte(high, v)]
    else [OrByte(high, PrefixMax(prefix))] + Continuation(v - PrefixMax(prefix))
  }

  /** Writing `code` from `wire + off` on: all of it, or 0 when it does not fit; nothing before moves. */
  twostate predicate Wrote(wire: array<byte>, off: nat, n: nat, code: seq<byte>)
    requires off <= wire.Length
    reads wire
  {
    if off + |code| <= wire.Length
    then n == |code| && wire[..off + n] == old(wire[..off]) + code
    else n == 0 && wire[..off] == old(wire[..off])
  }

  /** wire[at] = b. */
  method Put(wire: array<byte>, at: nat, b: byte)
    requires at < wire.Length
    modifies wire
    ensures wire[..at + 1] == old(wire[..at]) + [b]
  {
    wire[at] := b;
  }

  /** The encoding loop. */
  method EncodeInteger(wire: array<byte>, off: nat, prefix: nat, high: byte, v: u32) returns (n: nat)
    requires off <= wire.Length
    modifies wire
    ensures if 1 <= prefix <= 8 then Wrote(wire, off, n, IntegerCode(prefix, high, v))
            else n == 0 && wire[..] == old(wire[..])
  {
    if off == wire.Length || prefix == 0 || prefix > 8 {
      return 0;
    }
    var prefixMax := PrefixMax(prefix);
    if v < prefixMax {
      Put(wire, off, OrByte(high, v));
      return 1;
    }
    ghost var before, done := wire[..off], [OrByte(high, prefixMax)];
    Put(wire, off, OrByte(high, prefixMax));
    var value := v as int - prefixMax;
    var pos := 1;
    ghost var code := IntegerCode(prefix, high, v);
    while value >= 128
      invariant 1 <= pos == |done| && off + pos <= wire.Length && 0 <= value
      invariant wire[..off + pos] == before + done
      invariant done + Continuation(value) == code
      decreases value
    {
      if pos >= wire.Length - off {
        Shorter(wire[..off + pos], before, done);
        return 0;
      }
      var octet: byte := value % 128 + 128;
      Put(wire, off + pos, octet);
      Assoc(before, done, [octet]);
      Assoc(done, [octet], Continuation(value / 128));
      done := done + [octet];
      value := value / 128;
      pos := pos + 1;
    }
    if pos >= wire.Length - off {
      Shorter(wire[..off + pos], before, done);
      return 0;
    }
    Put(wire, off + pos, value);
    Assoc(before, done, [value as byte]);
    n := pos + 1;
  }

  // -------------------------------------------------------------- round trip

  /** OR-ing bits that do not overlap adds them, and masking takes the low ones back out. */
  lemma {:induction false} OrDisjoint(a: nat, b: nat, split: nat, width: nat)
    requires split <= width && a < Pow2(width) && Mask(a, split) == 0 && b < Pow2(split)
    ensures BitOr(a, b, width) == a + b
    ensures Mask(BitOr(a, b, width), split) == b
  {
    if width > 0 {
      OrDisjoint(a / 2, b / 2, if split == 0 then 0 else split - 1, width - 1);
    }
  }

  lemma {:induction false} ContinuationDecodes(v: nat, rest: seq<byte>)
    ensures ReadTail(Continuation(v) + rest) == Tail(|Continuation(v)|, v)
  {
    var w := Continuation(v) + rest;
    if v >= 128 {
      ContinuationDecodes(v / 128, rest);
      assert w[1..] == Continuation(v / 128) + rest;
    } else {
      assert w[0] == v;
    }
  }

  lemma ContinuationLength(v: nat, n: nat)
    requires v < Weight(n) && n > 0
    ensures |Continuation(v)| <= n
  {
    if v >= 128 {
      assert n > 1 by {
        assert Weight(1) == 128 * Weight(0) == 128;
      }
      ContinuationLength(v / 128, n - 1);
    }
  }

  lemma HighBitsStay(prefix: nat, high: byte, low: byte)
    requires 1 <= prefix <= 8 && Mask(high, prefix) == 0 && low <= PrefixMax(prefix)
    ensures OrByte(high, low) as int == high as int + low as int
    ensures Mask(OrByte(high, low), prefix) == low
  {
    Powers();
    OrDisjoint(high, low, prefix, 8);
  }

  lemma LongRoundTrip(prefix: nat, first: byte, v: u32, rest: seq<byte>)
    requires 1 <= prefix <= 8 && PrefixMax(prefix) <= v && Mask(first, prefix) == PrefixMax(prefix)
    ensures var code := [first] + Continuation(v - PrefixMax(prefix));
            |code| <= 6 && DecodeInteger(code + rest, prefix) == Ok((v, |code|))
  {
    var tail := Continuation(v - PrefixMax(prefix));
    var w := [first] + tail + rest;
    ContinuationFits(v - PrefixMax(prefix));
    ContinuationDecodes(v - PrefixMax(prefix), rest);
    assert w[1..] == tail + rest;
  }

  /** Any 32-bit value, behind any high bits that leave the prefix free, comes back, whatever follows. */
  lemma IntegerRoundTrip(prefix: nat, high: byte, v: u32, rest: seq<byte>)
    requires 1 <= prefix <= 8 && Mask(high, prefix) == 0
    ensures var code := IntegerCode(prefix, high, v);
            |code| <= 6 && DecodeInteger(code + rest, prefix) == Ok((v, |code|))
  {
    var m := PrefixMax(prefix);
    if v < m {
      HighBitsStay(prefix, high, v);
      assert (IntegerCode(prefix, high, v) + rest)[0] == OrByte(high, v);
    } else {
      HighBitsStay(prefix, high, m);
      LongRoundTrip(prefix, OrByte(high, m), v, rest);
    }
  }

  lemma ContinuationFits(v: u32)
    ensures |Continuation(v)| <= 5
  {
    Weights(4, 0);
    assert Weight(5) == 128 * Weight(4);
    ContinuationLength(v, 5);
  }
}
