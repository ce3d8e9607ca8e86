/** What a client reads in the response headers. */
module Content {
  import opened Bytes
  import opened FrameCodec
  import opened HpackInteger
  import opened HpackStatic
  import opened HpackSpec
  import opened HpackTheorems
  import opened ConnectionSpec

  /** The number a run of decimal digits denotes. */
  function Denotes(text: seq<byte>): int {
    if text == [] then 0 else 10 * Denotes(text[..|text| - 1]) + (text[|text| - 1] as int - 48)
  }

  predicate AllDigits(text: seq<byte>) {
    forall i :: 0 <= i < |text| ==> 48 <= text[i] <= 57
  }

  lemma {:induction false} DecimalDenotes(n: nat)
    ensures Denotes(Decimal(n)) == n && AllDigits(Decimal(n))
  {
    var text := Decimal(n);
    if n >= 10 {
      DecimalDenotes(n / 10);
      assert text[..|text| - 1] == Decimal(n / 10) && text[|text| - 1] == 48 + n % 10;
    } else {
      assert text[..0] == [] && Denotes([]) == 0;
    }
  }

  /** The fields of a response to a request whose answer has `n` octets. */
  function ResponseFields(n: nat): seq<Field> {
    [Field(Ascii(":status"), Ascii("200")), Field(CONTENT_TYPE, TEXT_PLAIN),
     Field(CONTENT_LENGTH, Decimal(n)), Field(SERVER, SERVER_NAME)]
  }

  lemma PlainText(s: string)
    requires forall i :: 0 <= i < |s| ==> 0 < s[i] as int < 128
    ensures Cut(Ascii(s)) == Ascii(s)
  {
    CutIsIdentity(Ascii(s));
  }

  lemma Row8()
    ensures Row(8) == (":status", "200")
  {
  }

  lemma Status200()
    ensures Meaning(Static(STATUS_200)) == Ok(Some(Field(Ascii(":status"), Ascii("200"))))
  {
    Row8();
    PlainText(":status");
    PlainText("200");
  }

  /** The server's literals have new names and are not indexed. */
  lemma LiteralIs(name: seq<byte>, value: seq<byte>)
    requires |name| <= U32_MAX && |value| <= U32_MAX
    ensures Coding(NewName(Plain, name, value)) == LiteralCode(name, value)
  {
    ZeroIndex();
  }

  lemma LiteralMeans(name: seq<byte>, value: seq<byte>)
    requires |name| < NAME_CAP && |value| < VALUE_CAP && NulFree(name) && NulFree(value)
    ensures Meaning(NewName(Plain, name, value)) == Ok(Some(Field(name, value)))
  {
    CutIsIdentity(name);
    CutIsIdentity(value);
  }

  lemma DigitsAreNulFree(n: nat)
    requires n < BODY_CAP
    ensures |Decimal(n)| <= 3 && NulFree(Decimal(n))
  {
    DecimalFits(n);
    DecimalDenotes(n);
  }

  function ResponseItems(n: nat): (items: seq<Coded>)
    ensures |items| == 4
  {
    [Static(STATUS_200), NewName(Plain, CONTENT_TYPE, TEXT_PLAIN), NewName(Plain, CONTENT_LENGTH, Decimal(n)),
     NewName(Plain, SERVER, SERVER_NAME)]
  }

  lemma BlockCons(item: Coded, rest: seq<Coded>)
    requires Writable(item) && AllWritable(rest)
    ensures AllWritable([item] + rest)
    ensures CodedBlock([item] + rest) == Coding(item) + CodedBlock(rest)
  {
    assert ([item] + rest)[1..] == rest;
  }

  lemma Block2(c: Coded, d: Coded)
    requires Writable(c) && Writable(d)
    ensures AllWritable([c, d]) && CodedBlock([c, d]) == Coding(c) + Coding(d)
  {
    BlockCons(d, []);
    BlockCons(c, [d]);
    assert [d] + [] == [d] && [c] + [d] == [c, d];
    assert Coding(d) + [] == Coding(d);
  }

  lemma FourTogether<T>(a: seq<T>, b: seq<T>, c: seq<T>, d: seq<T>)
    ensures a + (b + (c + d)) == a + b + c + d
  {
  }

  lemma Block4(a: Coded, b: Coded, c: Coded, d: Coded)
    requires Writable(a) && Writable(b) && Writable(c) && Writable(d)
    ensures AllWritable([a, b, c, d])
    ensures CodedBlock([a, b, c, d]) == Coding(a) + Coding(b) + Coding(c) + Coding(d)
  {
    Block2(c, d);
    BlockCons(b, [c, d]);
    BlockCons(a, [b] + [c, d]);
    assert [a] + ([b] + [c, d]) == [a, b, c, d];
    FourTogether(Coding(a), Coding(b), Coding(c), Coding(d));
  }

  lemma ReadOne(item: Coded, rest: seq<Coded>, fields: seq<Field>, field: Field, cap: nat)
    requires Meaning(item) == Ok(Some(field)) && |fields| < cap
    ensures Reading([item] + rest, fields, cap) == Reading(rest, fields + [field], cap)
  {
    assert ([item] + rest)[1..] == rest;
  }

  lemma Read2(a: Coded, b: Coded, fields: seq<Field>, p: Field, q: Field, cap: nat)
    requires Meaning(a) == Ok(Some(p)) && Meaning(b) == Ok(Some(q)) && |fields| + 2 <= cap
    ensures Reading([a, b], fields, cap) == Ok(fields + [p, q])
  {
    ReadOne(a, [b], fields, p, cap);
    ReadOne(b, [], fields + [p], q, cap);
    assert [a] + [b] == [a, b] && [b] + [] == [b];
    assert fields + [p] + [q] == fields + [p, q];
  }

  lemma {:induction false} ReadingAppends(items: seq<Coded>, more: seq<Coded>, fields: seq<Field>, cap: nat)
    requires Reading(items, fields, cap).Ok?
    ensures Reading(items + more, fields, cap) == Reading(more, Reading(items, fields, cap).value, cap)
    decreases |items|
  {
    if items == [] {
      assert items + more == more;
    } else {
      assert (items + more)[1..] == items[1..] + more;
      ReadingAppends(items[1..], more, Extend(fields, Meaning(items[0]).value), cap);
    }
  }

  lemma Read4(a: Coded, b: Coded, c: Coded, d: Coded, p: Field, q: Field, r: Field, s: Field)
    requires Meaning(a) == Ok(Some(p)) && Meaning(b) == Ok(Some(q)) && Meaning(c) == Ok(Some(r)) && Meaning(d) == Ok(Some(s))
    ensures Reading([a, b, c, d], [], 4) == Ok([p, q, r, s])
  {
    Read2(a, b, [], p, q, 4);
    Read2(c, d, [] + [p, q], r, s, 4);
    ReadingAppends([a, b], [c, d], [], 4);
    assert [a, b] + [c, d] == [a, b, c, d] && [] + [p, q] + [r, s] == [p, q, r, s];
  }

  lemma LiteralText(name: string, value: string)
    requires |name| < NAME_CAP && forall i :: 0 <= i < |name| ==> 0 < name[i] as int < 128
    requires |value| < VALUE_CAP && forall i :: 0 <= i < |value| ==> 0 < value[i] as int < 128
    ensures Meaning(NewName(Plain, Ascii(name), Ascii(value))) == Ok(Some(Field(Ascii(name), Ascii(value))))
  {
    LiteralMeans(Ascii(name), Ascii(value));
  }

  lemma TypeMeans()
    ensures Meaning(NewName(Plain, CONTENT_TYPE, TEXT_PLAIN)) == Ok(Some(Field(CONTENT_TYPE, TEXT_PLAIN)))
  {
    LiteralText("content-type", "text/plain");
  }

  lemma ServerMeans()
    ensures Meaning(NewName(Plain, SERVER, SERVER_NAME)) == Ok(Some(Field(SERVER, SERVER_NAME)))
  {
    var name, value := "server", "c11-h2";
    assert 0 < name[0] as int < 128 && 0 < name[1] as int < 128 && 0 < name[2] as int < 128;
    assert 0 < name[3] as int < 128 && 0 < name[4] as int < 128 && 0 < name[5] as int < 128;
    assert 0 < value[0] as int < 128 && 0 < value[1] as int < 128 && 0 < value[2] as int < 128;
    assert 0 < value[3] as int < 128 && 0 < value[4] as int < 128 && 0 < value[5] as int < 128;
    LiteralText(name, value);
  }

  lemma LengthMeans(n: nat)
    requires n < BODY_CAP
    ensures Meaning(NewName(Plain, CONTENT_LENGTH, Decimal(n))) == Ok(Some(Field(CONTENT_LENGTH, Decimal(n))))
  {
    DigitsAreNulFree(n);
    LiteralMeans(CONTENT_LENGTH, Decimal(n));
  }

  lemma ResponseReads(n: nat)
    requires n < BODY_CAP
    ensures Reading(ResponseItems(n), [], 4) == Ok(ResponseFields(n))
  {
    Status200();
    TypeMeans();
    ServerMeans();
    LengthMeans(n);
    var length := Decimal(n);
    Read4(Static(STATUS_200), NewName(Plain, CONTENT_TYPE, TEXT_PLAIN), NewName(Plain, CONTENT_LENGTH, length),
          NewName(Plain, SERVER, SERVER_NAME), Field(Ascii(":status"), Ascii("200")), Field(CONTENT_TYPE, TEXT_PLAIN),
          Field(CONTENT_LENGTH, length), Field(SERVER, SERVER_NAME));
  }

  lemma ResponseBlockIs(n: nat)
    requires n < BODY_CAP
    ensures AllWritable(ResponseItems(n)) && CodedBlock(ResponseItems(n)) == ResponseBlock(n)
  {
    var items := ResponseItems(n);
    DecimalFits(n);
    LiteralIs(CONTENT_TYPE, TEXT_PLAIN);
    LiteralIs(CONTENT_LENGTH, Decimal(n));
    LiteralIs(SERVER, SERVER_NAME);
    Block4(items[0], items[1], items[2], items[3]);
  }

  /** The header block decodes to exactly four fields, and its content-length denotes the body's length. */
  lemma ResponseBlockDecodes(n: nat)
    requires n < BODY_CAP
    ensures DecodeFrom(ResponseBlock(n), [], 4) == Ok(ResponseFields(n))
    ensures Denotes(ResponseFields(n)[2].value) == n && AllDigits(ResponseFields(n)[2].value)
  {
    ResponseBlockIs(n);
    FieldListRoundTrip(ResponseItems(n), 4);
    ResponseReads(n);
    DecimalDenotes(n);
  }
}
