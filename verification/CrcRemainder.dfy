/** What the CRC is: the remainder of the data modulo a polynomial over the two-element field (section 8 of
    RFC 1952). Polynomials are numbers whose digit `i` is the coefficient of x^i; their sum is exclusive or. */
module CrcRemainder {
  import opened Bytes
  import opened Crc32

  // ------------------------------------------------------------- polynomials

  /** a times x^k. */
  function Shift(a: nat, k: nat): nat {
    if k == 0 then a else 2 * Shift(a, k - 1)
  }

  /** The sum of the powers of x with these exponents. */
  function Polynomial(exponents: seq<nat>): nat {
    if exponents == [] then 0 else Xor(Shift(1, exponents[0]), Polynomial(exponents[1..]))
  }

  const LOWER: seq<nat> := [26, 23, 22, 16, 12, 11, 10, 8, 7, 5, 4, 2, 1, 0]

  /** x^32 + x^26 + x^23 + x^22 + x^16 + x^12 + x^11 + x^10 + x^8 + x^7 + x^5 + x^4 + x^2 + x + 1. */
  function Generator(): nat {
    Polynomial([32] + LOWER)
  }

  function Product(q: nat, g: nat): nat {
    if q == 0 then 0 else Xor(Pick(q, g), 2 * Product(q / 2, g))
  }

  /** `m` is a multiple of the generator plus `r`, and `r` has a degree below 32. */
  ghost predicate IsRemainder(m: nat, r: nat) {
    r < U32_SPAN && exists q: nat :: m == Xor(Product(q, Generator()), r)
  }

  /** The last `n` digits in reverse order. */
  function Reversed(c: nat, n: nat): nat {
    if n == 0 then 0 else Xor(Shift(c % 2, n - 1), Reversed(c / 2, n - 1))
  }

  /** The data as a polynomial: octet after octet, the low bit of each first, as the coefficients fall. */
  function Message(data: seq<byte>): nat {
    if data == [] then 0 else Xor(Shift(Message(data[..|data| - 1]), 8), Reversed(data[|data| - 1], 8))
  }

  // ----------------------------------------------------------------- linearity

  lemma XorDoubles(a: nat, b: nat)
    ensures Xor(2 * a, 2 * b) == 2 * Xor(a, b)
  {
    XorDigits(2 * a, 2 * b);
    SameDigits(Xor(2 * a, 2 * b), 2 * Xor(a, b));
  }

  lemma {:induction false} ShiftXor(a: nat, b: nat, k: nat)
    ensures Shift(Xor(a, b), k) == Xor(Shift(a, k), Shift(b, k))
  {
    if k > 0 {
      ShiftXor(a, b, k - 1);
      XorDoubles(Shift(a, k - 1), Shift(b, k - 1));
    }
  }

  lemma {:induction false} ShiftAdds(a: nat, j: nat, k: nat)
    ensures Shift(Shift(a, j), k) == Shift(a, j + k)
  {
    if k > 0 {
      ShiftAdds(a, j, k - 1);
    }
  }

  lemma {:induction false} ShiftZero(k: nat)
    ensures Shift(0, k) == 0
  {
    if k > 0 {
      ShiftZero(k - 1);
    }
  }

  lemma {:induction false} ShiftOne(k: nat)
    ensures Shift(1, k) == Pow2(k)
  {
    if k > 0 {
      ShiftOne(k - 1);
    }
  }

  lemma OneDigit(p: nat, q: nat)
    requires p < 2 && q < 2
    ensures Xor(p, q) == (p + q) % 2
  {
    if p == 0 || q == 0 {
      XorZero(p + q);
    } else {
      XorSelf(1);
    }
  }

  lemma SumOfDigits(a: nat, b: nat, p: nat, q: nat)
    requires p == a % 2 && q == b % 2
    ensures (a + b) % 2 == (p + q) % 2
  {
  }

  lemma BitXor(a: nat, b: nat, p: nat, q: nat, x: nat)
    requires p == a % 2 && q == b % 2 && x % 2 == (a + b) % 2
    ensures x % 2 == Xor(p, q)
  {
    SumOfDigits(a, b, p, q);
    OneDigit(p, q);
  }

  lemma {:induction false} ReversedXor(a: nat, b: nat, n: nat)
    ensures Reversed(Xor(a, b), n) == Xor(Reversed(a, n), Reversed(b, n))
    decreases n
  {
    if n == 0 {
      XorZero(0);
    } else {
      XorDigits(a, b);
      BitXor(a, b, a % 2, b % 2, Xor(a, b));
      ReversedXor(a / 2, b / 2, n - 1);
      ShiftXor(a % 2, b % 2, n - 1);
      XorRearranges(Shift(a % 2, n - 1), Shift(b % 2, n - 1), Reversed(a / 2, n - 1), Reversed(b / 2, n - 1));
    }
  }

  lemma {:induction false} ReversedZero(n: nat)
    ensures Reversed(0, n) == 0
  {
    if n > 0 {
      ReversedZero(n - 1);
      ShiftZero(n - 1);
      XorZero(0);
    }
  }

  /** A leading zero becomes a factor x. */
  lemma {:induction false} LeadingZero(c: nat, n: nat)
    requires c < Pow2(n)
    ensures Reversed(c, n + 1) == 2 * Reversed(c, n)
    decreases n
  {
    if n == 0 {
      XorZero(0);
    } else {
      LeadingZero(c / 2, n - 1);
      XorDoubles(Shift(c % 2, n - 1), Reversed(c / 2, n - 1));
    }
  }

  lemma {:induction false} LeadingZeros(c: nat, n: nat, k: nat)
    requires c < Pow2(n)
    ensures Reversed(c, n + k) == Shift(Reversed(c, n), k)
    decreases k
  {
    if k > 0 {
      LeadingZeros(c, n, k - 1);
      PowGrows(n, n + k - 1);
      LeadingZero(c, n + k - 1);
    }
  }

  lemma {:induction false} PowGrows(n: nat, m: nat)
    requires n <= m
    ensures Pow2(n) <= Pow2(m)
    decreases m
  {
    if n < m {
      PowGrows(n, m - 1);
    }
  }

  lemma {:induction false} ReversedFits(c: nat, n: nat)
    ensures Reversed(c, n) < Pow2(n)
    decreases n
  {
    if n > 0 {
      ReversedFits(c / 2, n - 1);
      ShiftOne(n - 1);
      ShiftZero(n - 1);
      XorFits(Shift(c % 2, n - 1), Reversed(c / 2, n - 1), n);
    }
  }

  // ------------------------------------------------------------ the polynomial

  /** The exponents that the digits of a reversed word stand for. */
  function ExponentsOf(c: nat, n: nat): seq<nat> {
    if n == 0 then [] else if c % 2 == 1 then [n - 1] + ExponentsOf(c / 2, n - 1) else ExponentsOf(c / 2, n - 1)
  }

  lemma {:induction false} ReversedIsPolynomial(c: nat, n: nat)
    ensures Reversed(c, n) == Polynomial(ExponentsOf(c, n))
    decreases n
  {
    if n > 0 {
      ReversedIsPolynomial(c / 2, n - 1);
      if c % 2 == 1 {
        assert ([n - 1] + ExponentsOf(c / 2, n - 1))[1..] == ExponentsOf(c / 2, n - 1);
      } else {
        ShiftZero(n - 1);
        XorZero(Reversed(c / 2, n - 1));
      }
    }
  }

  function If(digit: nat, exponent: nat): seq<nat> {
    if digit == 1 then [exponent] else []
  }

  lemma DigitOf(c: nat, n: nat, digit: nat, rest: nat)
    requires n > 0 && digit < 2 && c == digit + 2 * rest
    ensures ExponentsOf(c, n) == If(digit, n - 1) + ExponentsOf(rest, n - 1)
  {
    LastDigit(digit, rest);
  }

  lemma HexDigitOf(c: nat, n: nat, d0: nat, d1: nat, d2: nat, d3: nat, rest: nat)
    requires n >= 4 && d0 < 2 && d1 < 2 && d2 < 2 && d3 < 2 && c == d0 + 2 * d1 + 4 * d2 + 8 * d3 + 16 * rest
    ensures ExponentsOf(c, n) == If(d0, n - 1) + (If(d1, n - 2) + (If(d2, n - 3) + (If(d3, n - 4) + ExponentsOf(rest, n - 4))))
  {
    DigitOf(c, n, d0, d1 + 2 * d2 + 4 * d3 + 8 * rest);
    DigitOf(d1 + 2 * d2 + 4 * d3 + 8 * rest, n - 1, d1, d2 + 2 * d3 + 4 * rest);
    DigitOf(d2 + 2 * d3 + 4 * rest, n - 2, d2, d3 + 2 * rest);
    DigitOf(d3 + 2 * rest, n - 3, d3, rest);
  }

  lemma HexStep(c: nat, n: nat, d0: nat, d1: nat, d2: nat, d3: nat, rest: nat, head: seq<nat>, tail: seq<nat>)
    requires n >= 4 && d0 < 2 && d1 < 2 && d2 < 2 && d3 < 2 && c == d0 + 2 * d1 + 4 * d2 + 8 * d3 + 16 * rest
    requires ExponentsOf(rest, n - 4) == tail && head == If(d0, n - 1) + If(d1, n - 2) + If(d2, n - 3) + If(d3, n - 4)
    ensures ExponentsOf(c, n) == head + tail
  {
    HexDigitOf(c, n, d0, d1, d2, d3, rest);
  }

  lemma DigitsFrom24()
    ensures ExponentsOf(0xe, 4) == [2, 1, 0]
  {
    assert ExponentsOf(0, 0) == [];
    HexStep(0xe, 4, 0, 1, 1, 1, 0, [2, 1, 0], []);
  }

  lemma DigitsFrom20(tail: seq<nat>)
    requires ExponentsOf(0xed, 8) == tail
    ensures ExponentsOf(0xedb8, 16) == [12] + ([11, 10, 8] + tail)
  {
    HexStep(0xedb, 12, 1, 1, 0, 1, 0xed, [11, 10, 8], tail);
    HexStep(0xedb8, 16, 0, 0, 0, 1, 0xedb, [12], [11, 10, 8] + tail);
  }

  lemma DigitsFrom16()
    ensures ExponentsOf(0xedb8, 16) == [12, 11, 10, 8, 7, 5, 4, 2, 1, 0]
  {
    DigitsFrom24();
    HexStep(0xed, 8, 1, 0, 1, 1, 0xe, [7, 5, 4], [2, 1, 0]);
    DigitsFrom20([7, 5, 4] + [2, 1, 0]);
  }

  lemma DigitsFrom12(tail: seq<nat>)
    requires ExponentsOf(0xedb8, 16) == tail
    ensures ExponentsOf(0xe_db88, 20) == [16] + tail
  {
    HexStep(0xe_db88, 20, 0, 0, 0, 1, 0xedb8, [16], tail);
  }

  lemma DigitsFrom8(tail: seq<nat>)
    requires ExponentsOf(0xe_db88, 20) == tail
    ensures ExponentsOf(0xed_b883, 24) == [23, 22] + tail
  {
    HexStep(0xed_b883, 24, 1, 1, 0, 0, 0xe_db88, [23, 22], tail);
  }

  lemma DigitsFrom0(tail: seq<nat>)
    requires ExponentsOf(0xed_b883, 24) == tail
    ensures ExponentsOf(POLYNOMIAL, 32) == [26] + tail
  {
    HexStep(0xedb_8832, 28, 0, 1, 0, 0, 0xed_b883, [26], tail);
    HexStep(POLYNOMIAL, 32, 0, 0, 0, 0, 0xedb_8832, [], [26] + tail);
  }

  lemma PolynomialDigits(digits: seq<nat>)
    requires digits == [12, 11, 10, 8, 7, 5, 4, 2, 1, 0]
    ensures ExponentsOf(POLYNOMIAL, 32) == [26] + ([23, 22] + ([16] + digits))
  {
    DigitsFrom16();
    DigitsFrom12(digits);
    DigitsFrom8([16] + digits);
    DigitsFrom0([23, 22] + ([16] + digits));
  }

  lemma LeadingTerm(e: nat, rest: seq<nat>)
    ensures Polynomial([e] + rest) == Xor(Shift(1, e), Polynomial(rest))
  {
    assert ([e] + rest)[1..] == rest;
  }

  lemma PolynomialReversed(lower: seq<nat>)
    requires lower == [26] + ([23, 22] + ([16] + [12, 11, 10, 8, 7, 5, 4, 2, 1, 0]))
    ensures Reversed(POLYNOMIAL, 32) == Polynomial(lower)
  {
    PolynomialDigits([12, 11, 10, 8, 7, 5, 4, 2, 1, 0]);
    ReversedIsPolynomial(POLYNOMIAL, 32);
  }

  lemma GeneratorLeads(lower: seq<nat>)
    requires lower == [26] + ([23, 22] + ([16] + [12, 11, 10, 8, 7, 5, 4, 2, 1, 0]))
    ensures LOWER == lower
  {
  }

  /** The word of the C code is the generator without its leading term, reversed. */
  lemma PolynomialIsGenerator()
    ensures Generator() == Xor(Shift(1, 32), Reversed(POLYNOMIAL, 32))
  {
    var lower := [26] + ([23, 22] + ([16] + [12, 11, 10, 8, 7, 5, 4, 2, 1, 0]));
    GeneratorLeads(lower);
    LeadingTerm(32, lower);
    PolynomialReversed(lower);
  }

  // ---------------------------------------------------------------- the register

  lemma PickReverses(c: nat)
    ensures Reversed(Pick(c, POLYNOMIAL), 32) == Pick(c, Reversed(POLYNOMIAL, 32))
  {
    ReversedZero(32);
  }

  /** Both sides hold `low` and it cancels. */
  lemma SharedTerm(top: nat, low: nat, rest: nat)
    ensures Xor(Xor(top, low), Xor(rest, low)) == Xor(top, rest)
  {
    XorRearranges(top, low, rest, low);
    XorSelf(low);
    XorZero(Xor(top, rest));
  }

  /** Doubled, a word sheds its top digit; folding the generator in replaces it. */
  lemma FoldsIn(c: nat, doubled: nat, top: nat, low: nat, rest: nat, folded: nat)
    requires doubled == Xor(Pick(c, top), rest) && folded == Xor(rest, Pick(c, low))
    ensures doubled == Xor(Pick(c, Xor(top, low)), folded)
  {
    if c % 2 == 1 {
      SharedTerm(top, low, rest);
    } else {
      XorZero(rest);
    }
  }

  lemma ShiftedDigit(c: nat, k: nat)
    ensures Shift(c % 2, k) == Pick(c, Shift(1, k))
  {
    ShiftZero(k);
  }

  lemma Doubled(c: u32)
    ensures 2 * Reversed(c, 32) == Xor(Pick(c, Shift(1, 32)), Reversed(c / 2, 32))
  {
    Power32();
    LeadingZero(c / 2, 31);
    XorDoubles(Shift(c % 2, 31), Reversed(c / 2, 31));
    ShiftedDigit(c, 32);
  }

  lemma Folded(c: u32)
    ensures Reversed(BitStep(c), 32) == Xor(Reversed(c / 2, 32), Pick(c, Reversed(POLYNOMIAL, 32)))
  {
    ReversedXor(c / 2, Pick(c, POLYNOMIAL), 32);
    PickReverses(c);
  }

  /** Read in reverse, a turn of the inner loop multiplies by x and takes the generator off if x^32 arises. */
  lemma StepMultiplies(c: u32)
    ensures 2 * Reversed(c, 32) == Xor(Pick(c, Generator()), Reversed(BitStep(c), 32))
  {
    Doubled(c);
    Folded(c);
    PolynomialIsGenerator();
    FoldsIn(c, 2 * Reversed(c, 32), Shift(1, 32), Reversed(POLYNOMIAL, 32), Reversed(c / 2, 32), Reversed(BitStep(c), 32));
  }

  lemma ProductTurn(q: nat, bit: nat, g: nat)
    requires bit < 2
    ensures Product(bit + 2 * q, g) == Xor(Pick(bit, g), 2 * Product(q, g))
  {
    LastDigit(bit, q);
    if bit + 2 * q == 0 {
      XorZero(0);
    }
  }

  lemma StepsTurn(c: u32, n: nat)
    requires n > 0
    ensures BitSteps(c, n) == BitStep(BitSteps(c, n - 1))
  {
    BitStepsAdd(c, n - 1, 1);
  }

  lemma MultipleGrows(x: nat, product: nat, w: nat, picked: nat, stepped: nat)
    requires x == Xor(product, w) && 2 * w == Xor(picked, stepped)
    ensures 2 * x == Xor(Xor(picked, 2 * product), stepped)
  {
    XorDoubles(product, w);
    XorAssociates(2 * product, picked, stepped);
    XorCommutes(2 * product, picked);
  }

  lemma PickDigit(b: nat, g: nat)
    ensures Pick(b % 2, g) == Pick(b, g)
  {
  }

  lemma OneMoreStep(g: nat, b: nat, x: nat, w: nat, stepped: nat, p: nat, q: nat)
    requires x == Xor(Product(p, g), w) && 2 * w == Xor(Pick(b, g), stepped) && q == b % 2 + 2 * p
    ensures 2 * x == Xor(Product(q, g), stepped)
  {
    MultipleGrows(x, Product(p, g), w, Pick(b, g), stepped);
    ProductTurn(p, b % 2, g);
    PickDigit(b, g);
  }

  /** And `n` turns multiply by x^n, up to a multiple of the generator. */
  lemma {:induction false} StepsMultiply(c: u32, n: nat) returns (q: nat)
    ensures Shift(Reversed(c, 32), n) == Xor(Product(q, Generator()), Reversed(BitSteps(c, n), 32))
    decreases n
  {
    if n == 0 {
      q := 0;
      XorZero(Reversed(c, 32));
    } else {
      var p := StepsMultiply(c, n - 1);
      var b := BitSteps(c, n - 1);
      q := b % 2 + 2 * p;
      StepsTurn(c, n);
      StepMultiplies(b);
      OneMoreStep(Generator(), b, Shift(Reversed(c, 32), n - 1), Reversed(b, 32), Reversed(BitStep(b), 32), p, q);
    }
  }

  lemma {:induction false} ProductXor(p: nat, q: nat, g: nat)
    ensures Product(Xor(p, q), g) == Xor(Product(p, g), Product(q, g))
    decreases p + q
  {
    if p + q == 0 {
      XorZero(0);
    } else {
      ProductXor(p / 2, q / 2, g);
      XorDigits(p, q);
      var a, b, c, d := Pick(p, g), 2 * Product(p / 2, g), Pick(q, g), 2 * Product(q / 2, g);
      ProductUnfolds(p, g);
      ProductUnfolds(q, g);
      ProductUnfolds(Xor(p, q), g);
      PickLinear(p, q, Xor(p, q), g);
      XorDoubles(Product(p / 2, g), Product(q / 2, g));
      XorRearranges(a, b, c, d);
    }
  }

  lemma ProductUnfolds(q: nat, g: nat)
    ensures Product(q, g) == Xor(Pick(q, g), 2 * Product(q / 2, g))
  {
    if q == 0 {
      XorZero(0);
    }
  }

  lemma {:induction false} ProductShift(q: nat, g: nat, k: nat)
    ensures Shift(Product(q, g), k) == Product(Shift(q, k), g)
    decreases k
  {
    if k > 0 {
      ProductShift(q, g, k - 1);
      ProductTurn(Shift(q, k - 1), 0, g);
      XorZero(2 * Product(Shift(q, k - 1), g));
    }
  }

  // -------------------------------------------------------------------- the data

  /** What is divided: the register as it starts, moved ahead of the data, and the data times x^32. */
  function Dividend(c: u32, data: seq<byte>): nat {
    Xor(Shift(Reversed(c, 32), 8 * |data|), Shift(Message(data), 32))
  }

  lemma OctetReversed(a: u32, b: byte)
    ensures Reversed(XorWord(a, b), 32) == Xor(Reversed(a, 32), Shift(Reversed(b, 8), 24))
  {
    Power32();
    ReversedXor(a, b, 32);
    LeadingZeros(b, 8, 24);
  }

  /** Absorbing an octet multiplies by x^8 and adds the octet times x^32, up to a multiple of the generator. */
  lemma OctetMultiplies(a: u32, b: byte) returns (q: nat)
    ensures Xor(Shift(Reversed(a, 32), 8), Shift(Reversed(b, 8), 32)) == Xor(Product(q, Generator()), Reversed(ByteStep(a, b), 32))
  {
    OctetReversed(a, b);
    ShiftXor(Reversed(a, 32), Shift(Reversed(b, 8), 24), 8);
    ShiftAdds(Reversed(b, 8), 24, 8);
    q := StepsMultiply(XorWord(a, b), 8);
  }

  lemma MessageSnoc(data: seq<byte>, b: byte)
    ensures Message(data + [b]) == Xor(Shift(Message(data), 8), Reversed(b, 8))
  {
    assert (data + [b])[..|data|] == data;
  }

  lemma SumsOfThree(a: nat, b: nat, m: nat)
    ensures Xor(Shift(a, 8), Xor(Shift(b, 8), m)) == Xor(Shift(Xor(a, b), 8), m)
  {
    ShiftXor(a, b, 8);
    XorAssociates(Shift(a, 8), Shift(b, 8), m);
  }

  lemma MessageShifted(data: seq<byte>, b: byte)
    ensures Shift(Message(data + [b]), 32) == Xor(Shift(Shift(Message(data), 32), 8), Shift(Reversed(b, 8), 32))
  {
    MessageSnoc(data, b);
    ShiftXor(Shift(Message(data), 8), Reversed(b, 8), 32);
    ShiftAdds(Message(data), 8, 32);
    ShiftAdds(Message(data), 32, 8);
  }

  lemma DividendSnoc(c: u32, data: seq<byte>, b: byte)
    ensures Dividend(c, data + [b]) == Xor(Shift(Dividend(c, data), 8), Shift(Reversed(b, 8), 32))
  {
    var n := 8 * |data|;
    MessageShifted(data, b);
    ShiftAdds(Reversed(c, 32), n, 8);
    assert 8 * |data + [b]| == n + 8;
    SumsOfThree(Shift(Reversed(c, 32), n), Shift(Message(data), 32), Shift(Reversed(b, 8), 32));
  }

  /** A remainder carried on: the old one, shifted, leaves the new one. */
  lemma CarriesOn(g: nat, d: nat, p: nat, r: nat, octet: nat, q: nat, next: nat)
    requires d == Xor(Product(p, g), r) && Xor(Shift(r, 8), octet) == Xor(Product(q, g), next)
    ensures Xor(Shift(d, 8), octet) == Xor(Product(Xor(Shift(p, 8), q), g), next)
  {
    ShiftXor(Product(p, g), r, 8);
    ProductShift(p, g, 8);
    ProductXor(Shift(p, 8), q, g);
    XorAssociates(Product(Shift(p, 8), g), Shift(r, 8), octet);
    XorAssociates(Product(Shift(p, 8), g), Product(q, g), next);
  }

  lemma AbsorbSnoc(c: u32, data: seq<byte>, b: byte)
    ensures Absorb(c, data + [b]) == ByteStep(Absorb(c, data), b)
  {
    AbsorbAppend(c, data, [b]);
    assert [b][1..] == [];
  }

  lemma {:induction false} AbsorbDivides(c: u32, data: seq<byte>) returns (q: nat)
    ensures Dividend(c, data) == Xor(Product(q, Generator()), Reversed(Absorb(c, data), 32))
    decreases |data|
  {
    if data == [] {
      q := 0;
      ShiftZero(32);
      XorCommutes(Reversed(c, 32), 0);
    } else {
      var init, b := data[..|data| - 1], data[|data| - 1];
      assert data == init + [b];
      var p := AbsorbDivides(c, init);
      var m := OctetMultiplies(Absorb(c, init), b);
      DividendSnoc(c, init, b);
      AbsorbSnoc(c, init, b);
      q := Xor(Shift(p, 8), m);
      CarriesOn(Generator(), Dividend(c, init), p, Reversed(Absorb(c, init), 32), Shift(Reversed(b, 8), 32), m,
                Reversed(ByteStep(Absorb(c, init), b), 32));
    }
  }

  /** The register, read in reverse, is a remainder of the dividend modulo the generator. */
  lemma AbsorbIsRemainder(c: u32, data: seq<byte>, a: u32)
    requires a == Absorb(c, data)
    ensures IsRemainder(Dividend(c, data), Reversed(a, 32))
  {
    var q := AbsorbDivides(c, data);
    Power32();
    ReversedFits(a, 32);
  }

  // -------------------------------------------------------------- the only one

  lemma {:induction false} ShiftsLess(a: nat, k: nat)
    ensures ShiftRight(a, k + 1) == ShiftRight(a, k) / 2
    decreases k
  {
    if k > 0 {
      ShiftsLess(a / 2, k - 1);
    }
  }

  lemma TopOfPick(q: nat, g: nat, k: nat)
    requires ShiftRight(g, k) == 1
    ensures ShiftRight(Pick(q, g), k) == q % 2
  {
    ShiftRightZero(k);
  }

  lemma {:induction false} ShiftRightZero(k: nat)
    ensures ShiftRight(0, k) == 0
  {
    if k > 0 {
      ShiftRightZero(k - 1);
    }
  }

  /** A proper multiple has at least the generator's degree. */
  lemma {:induction false} MultiplesAreLong(q: nat, g: nat, k: nat)
    requires q > 0 && k > 0 && ShiftRight(g, k) == 1
    ensures ShiftRight(Product(q, g), k) > 0
    decreases q
  {
    var half := Product(q / 2, g);
    var top := ShiftRight(2 * half, k);
    XorShifts(Pick(q, g), 2 * half, k);
    TopOfPick(q, g, k);
    assert top == ShiftRight(half, k - 1);
    if q == 1 {
      ShiftRightZero(k - 1);
      XorZero(1);
    } else {
      MultiplesAreLong(q / 2, g, k);
      ShiftsLess(half, k - 1);
      XorDigits(q % 2, top);
      XorZero(top / 2);
    }
  }

  lemma GeneratorDegree()
    ensures ShiftRight(Generator(), 32) == 1
  {
    PolynomialIsGenerator();
    Power32();
    ShiftOne(32);
    ReversedFits(POLYNOMIAL, 32);
    XorShifts(Shift(1, 32), Reversed(POLYNOMIAL, 32), 32);
    ShiftedOut(Reversed(POLYNOMIAL, 32), 32);
    TopIsOne(Pow2(32), 32);
    XorZero(1);
  }

  lemma SameMultiples(m: nat, p: nat, r: nat, q: nat, s: nat)
    requires m == Xor(p, r) == Xor(q, s)
    ensures Xor(p, q) == Xor(r, s)
  {
    XorRearranges(p, r, q, s);
    XorSelf(m);
    XorRearranges(p, q, r, s);
    XorSelf(Xor(r, s));
    XorCancels(Xor(p, q), Xor(r, s), Xor(r, s));
  }

  /** There is only one remainder. */
  lemma RemainderIsUnique(m: nat, r: nat, s: nat)
    requires IsRemainder(m, r) && IsRemainder(m, s)
    ensures r == s
  {
    var g := Generator();
    var p: nat :| m == Xor(Product(p, g), r);
    var q: nat :| m == Xor(Product(q, g), s);
    SameMultiples(m, Product(p, g), r, Product(q, g), s);
    ProductXor(p, q, g);
    Power32();
    XorFits(r, s, 32);
    ShiftedOut(Xor(r, s), 32);
    GeneratorDegree();
    if Xor(p, q) > 0 {
      MultiplesAreLong(Xor(p, q), g, 32);
    } else {
      XorSelf(s);
      XorCancels(r, s, s);
    }
  }

  /** Nor do two words read the same in reverse. */
  lemma {:induction false} ReversedInjective(a: nat, b: nat, n: nat)
    requires a < Pow2(n) && b < Pow2(n) && Reversed(a, n) == Reversed(b, n)
    ensures a == b
    decreases n
  {
    if n > 0 {
      TopOfReversed(a, n);
      TopOfReversed(b, n);
      XorCommutes(Shift(a % 2, n - 1), Reversed(a / 2, n - 1));
      XorCommutes(Shift(b % 2, n - 1), Reversed(b / 2, n - 1));
      XorCancels(Reversed(a / 2, n - 1), Reversed(b / 2, n - 1), Shift(a % 2, n - 1));
      ReversedInjective(a / 2, b / 2, n - 1);
      SameDigits(a, b);
    }
  }

  lemma TopOfReversed(a: nat, n: nat)
    requires n > 0
    ensures ShiftRight(Reversed(a, n), n - 1) == a % 2
  {
    ReversedFits(a / 2, n - 1);
    XorShifts(Shift(a % 2, n - 1), Reversed(a / 2, n - 1), n - 1);
    ShiftedOut(Reversed(a / 2, n - 1), n - 1);
    ShiftZero(n - 1);
    ShiftOne(n - 1);
    ShiftRightZero(n - 1);
    if a % 2 == 1 {
      TopIsOne(Pow2(n - 1), n - 1);
    }
    XorZero(a % 2);
  }

  lemma OneWord(m: nat, a: u32, b: u32)
    requires IsRemainder(m, Reversed(a, 32)) && IsRemainder(m, Reversed(b, 32))
    ensures a == b
  {
    RemainderIsUnique(m, Reversed(a, 32), Reversed(b, 32));
    Power32();
    ReversedInjective(a, b, 32);
  }

  lemma Complemented(crc: u32, data: seq<byte>)
    ensures ALL_ONES - Crc(crc, data) == Absorb(ALL_ONES - crc, data)
  {
  }

  lemma RemainderMeansAbsorbed(c: u32, data: seq<byte>, a: u32)
    ensures IsRemainder(Dividend(c, data), Reversed(a, 32)) <==> a == Absorb(c, data)
  {
    AbsorbIsRemainder(c, data, Absorb(c, data));
    if IsRemainder(Dividend(c, data), Reversed(a, 32)) {
      OneWord(Dividend(c, data), a, Absorb(c, data));
    }
  }

  /** crc32_update gives the one word that, complemented and read in reverse, is the remainder of the data: of the
      complemented start moved ahead of the data, plus the data times x^32. */
  lemma CrcIsTheRemainder(crc: u32, data: seq<byte>, r: u32)
    ensures r == Crc(crc, data) <==> IsRemainder(Dividend(ALL_ONES - crc, data), Reversed(ALL_ONES - r, 32))
  {
    Complemented(crc, data);
    RemainderMeansAbsorbed(ALL_ONES - crc, data, ALL_ONES - r);
  }
}
