/** Round trip of field lists, and the fused path scan against the plain decoder. */
module HpackTheorems {
  import opened Bytes
  import opened FrameCodec
  import opened HpackInteger
  import opened HpackStatic
  import opened HpackSpec

  // -------------------------------------------------------------- path scan

  /** The value of the last `:path` in a list, empty when there is none. */
  function LastPath(fields: seq<Field>): seq<byte> {
    if fields == [] then []
    else
      var last := fields[|fields| - 1];
      if last.name == PATH then last.value else LastPath(fields[..|fields| - 1])
  }

  function Verdict(path: seq<byte>): PathScan {
    PathScan(if path == [] then ProtocolError else NoError, path)
  }

  lemma LastPathSnoc(fields: seq<Field>, field: Field)
    ensures LastPath(fields + [field]) == if field.name == PATH then field.value else LastPath(fields)
  {
    assert (fields + [field])[..|fields|] == fields;
  }

  /** The path once a piece has been decoded. */
  function Seen(path: seq<byte>, field: Option<Field>): seq<byte> {
    if field.Some? && field.value.name == PATH then field.value.value else path
  }

  lemma SkipAndDecode(w: seq<byte>, cap: nat)
    ensures DecodeString(w, cap).Ok? ==> SkipString(w, cap) == Ok(DecodeString(w, cap).value.1)
    ensures DecodeString(w, cap).Ok? <==> SkipString(w, cap).Ok? && w[0] < 128
  {
  }

  lemma ScanPieceFollows(w: seq<byte>, path: seq<byte>, pathCap: nat)
    requires w != [] && DecodePiece(w).Ok? && VALUE_CAP <= pathCap
    ensures var piece := DecodePiece(w).value;
            ScanPiece(w, path, pathCap) == Ok((Seen(path, piece.field), piece.used))
  {
    if ReadItem(w).value.Literal? {
      SkipAndDecode(w[ReadItem(w).value.used..], VALUE_CAP);
    }
  }

  lemma {:induction false} ScanFollowsDecode(w: seq<byte>, fields: seq<Field>, fieldCap: nat, pathCap: nat)
    requires DecodeFrom(w, fields, fieldCap).Ok? && VALUE_CAP <= pathCap
    ensures ExtractFrom(w, LastPath(fields), pathCap) == Verdict(LastPath(DecodeFrom(w, fields, fieldCap).value))
    decreases |w|
  {
    if w != [] {
      var piece := DecodePiece(w).value;
      ScanPieceFollows(w, LastPath(fields), pathCap);
      if piece.field.Some? {
        LastPathSnoc(fields, piece.field.value);
      }
      ScanFollowsDecode(w[piece.used..], Extend(fields, piece.field), fieldCap, pathCap);
    }
  }

  /** Whenever the plain decoder accepts a block, the scan finds its last `:path`, and reports a protocol
      error exactly when that is missing or empty. */
  lemma PathScanRefinesDecoder(w: seq<byte>, fieldCap: nat)
    requires DecodeFrom(w, [], fieldCap).Ok?
    ensures ExtractPath(w, VALUE_CAP) == Verdict(LastPath(DecodeFrom(w, [], fieldCap).value))
  {
    ScanFollowsDecode(w, [], fieldCap, VALUE_CAP);
  }

  /** Is the next piece a field other than `:path` whose value has the Huffman bit set? */
  predicate HuffmanAhead(w: seq<byte>)
    requires w != []
  {
    ReadItem(w).Ok? && ReadItem(w).value.Literal? && ReadItem(w).value.name != PATH &&
    ReadItem(w).value.used < |w| && w[ReadItem(w).value.used] >= 128
  }

  /** Does the scan pass over such a value anywhere? */
  predicate SkipsHuffman(w: seq<byte>)
    decreases |w|
  {
    w != [] && ScanPiece(w, [], VALUE_CAP).Ok? &&
    (HuffmanAhead(w) || SkipsHuffman(w[ScanPiece(w, [], VALUE_CAP).value.1..]))
  }

  predicate Scanned(scan: PathScan) {
    scan.code == NoError || scan.code == ProtocolError
  }

  /** Piece by piece, the decoder refuses what the scan refuses, and Huffman values besides. */
  lemma PieceDecodesIff(w: seq<byte>, path: seq<byte>, pathCap: nat)
    requires w != [] && VALUE_CAP <= pathCap
    ensures DecodePiece(w).Ok? <==> ScanPiece(w, path, pathCap).Ok? && !HuffmanAhead(w)
    ensures ScanPiece(w, path, pathCap).Ok?
            ==> ScanPiece(w, [], VALUE_CAP).Ok? && ScanPiece(w, [], VALUE_CAP).value.1 == ScanPiece(w, path, pathCap).value.1
    ensures ScanPiece(w, path, pathCap).Err?
            ==> ScanPiece(w, path, pathCap).code != NoError && ScanPiece(w, path, pathCap).code != ProtocolError
  {
    if ReadItem(w).Ok? && ReadItem(w).value.Literal? {
      SkipAndDecode(w[ReadItem(w).value.used..], VALUE_CAP);
    }
  }

  lemma {:induction false} DecodesIff(w: seq<byte>, fields: seq<Field>, path: seq<byte>, fieldCap: nat, pathCap: nat)
    requires |fields| + |w| <= fieldCap && VALUE_CAP <= pathCap
    ensures DecodeFrom(w, fields, fieldCap).Ok? <==> Scanned(ExtractFrom(w, path, pathCap)) && !SkipsHuffman(w)
    decreases |w|
  {
    if w != [] {
      PieceDecodesIff(w, path, pathCap);
      if DecodePiece(w).Ok? {
        var piece := DecodePiece(w).value;
        ScanPieceFollows(w, path, pathCap);
        DecodesIff(w[piece.used..], Extend(fields, piece.field), Seen(path, piece.field), fieldCap, pathCap);
      }
    }
  }

  /** With room for every field, the decoder accepts a block exactly when the scan gets to its end and no
      value it skipped was Huffman coded. */
  lemma DecoderAcceptsIff(w: seq<byte>, fieldCap: nat)
    requires |w| <= fieldCap
    ensures DecodeFrom(w, [], fieldCap).Ok? <==> Scanned(ExtractPath(w, VALUE_CAP)) && !SkipsHuffman(w)
  {
    DecodesIff(w, [], [], fieldCap, VALUE_CAP);
  }

  // ---------------------------------------------- the representations of a block

  /** A literal field with incremental indexing, without indexing, or never indexed (sections 6.2.1 to 6.2.3 of
      RFC 7541): how many bits its name index has in the first octet, and the octet's other bits. */
  datatype Form = Incremental | Plain | Never {
    function Prefix(): (n: nat)
      ensures 1 <= n <= 8
    {
      if this == Incremental then 6 else 4
    }

    function High(): byte {
      match this
      case Incremental => 0x40
      case Plain => 0
      case Never => 0x10
    }
  }

  /** One representation of section 6 of RFC 7541: an indexed field, a literal whose name is that of a table
      row or spelled out, a change of the dynamic table's size. */
  datatype Coded =
    | Static(index: u32)
    | RowName(form: Form, index: u32, value: seq<byte>)
    | NewName(form: Form, name: seq<byte>, value: seq<byte>)
    | NewSize(size: u32)

  /** Lengths are 32-bit numbers, and name index 0 is the mark of a new name. */
  predicate Writable(item: Coded) {
    match item
    case RowName(_, index, value) => index != 0 && |value| <= U32_MAX
    case NewName(_, name, value) => |name| <= U32_MAX && |value| <= U32_MAX
    case _ => true
  }

  function IndexCode(form: Form, index: u32): seq<byte> {
    IntegerCode(form.Prefix(), form.High(), index)
  }

  function Coding(item: Coded): seq<byte>
    requires Writable(item)
  {
    match item
    case Static(index) => IndexedCode(index)
    case RowName(form, index, value) => IndexCode(form, index) + StringCode(value)
    case NewName(form, name, value) => IndexCode(form, 0) + StringCode(name) + StringCode(value)
    case NewSize(size) => IntegerCode(5, 0x20, size)
  }

  /** The row of appendix A; there is no row 0 and none beyond 61. */
  function RowOf(index: u32): Result<Field> {
    if 1 <= index <= TABLE_LEN then Ok(AsField(Row(index))) else Err(CompressionError)
  }

  /** A string as C reads it, if it fits a buffer. */
  function Text(text: seq<byte>, cap: nat): Result<seq<byte>> {
    if |text| >= cap then Err(RefusedStream) else Ok(Cut(text))
  }

  function Named(name: Result<seq<byte>>, value: Result<seq<byte>>): Result<Option<Field>> {
    if name.Err? then Err(name.code) else if value.Err? then Err(value.code) else Ok(Some(Field(name.value, value.value)))
  }

  /** The field a representation stands for, if any, or why it is refused. */
  function Meaning(item: Coded): Result<Option<Field>> {
    match item
    case Static(index) =>
      (match RowOf(index) case Err(code) => Err(code) case Ok(row) => Ok(Some(row)))
    case RowName(_, index, value) => Named(NameInRow(index), Text(value, VALUE_CAP))
    case NewName(_, name, value) => Named(Text(name, NAME_CAP), Text(value, VALUE_CAP))
    case NewSize(_) => Ok(None)
  }

  function NameInRow(index: u32): Result<seq<byte>> {
    match RowOf(index) case Err(code) => Err(code) case Ok(row) => Ok(row.name)
  }

  ghost predicate AllWritable(items: seq<Coded>) {
    forall i :: 0 <= i < |items| ==> Writable(items[i])
  }

  ghost function CodedBlock(items: seq<Coded>): seq<byte>
    requires AllWritable(items)
  {
    if items == [] then [] else Coding(items[0]) + CodedBlock(items[1..])
  }

  /** The fields a list of representations adds to those before it. */
  function Reading(items: seq<Coded>, fields: seq<Field>, cap: nat): Result<seq<Field>>
    decreases |items|
  {
    if items == [] then Ok(fields)
    else if |fields| >= cap then Err(RefusedStream)
    else match Meaning(items[0])
      case Err(code) => Err(code)
      case Ok(more) => Reading(items[1..], Extend(fields, more), cap)
  }

  /** The last path among them. */
  function PathReading(items: seq<Coded>, path: seq<byte>): PathScan
    decreases |items|
  {
    if items == [] then Verdict(path)
    else match Meaning(items[0])
      case Err(code) => PathScan(code, path)
      case Ok(more) => PathReading(items[1..], Seen(path, more))
  }

  // ------------------------------------------------------ octets of one of them

  lemma ZeroMask(prefix: nat)
    ensures Mask(0, prefix) == 0
  {
  }

  lemma {:induction false} OneMask(prefix: nat)
    ensures Mask(Pow2(prefix), prefix) == 0
  {
    if prefix > 0 {
      OneMask(prefix - 1);
      assert Pow2(prefix) / 2 == Pow2(prefix - 1);
    }
  }

  lemma HighBits()
    ensures Mask(0x80, 7) == 0 && Mask(0x40, 6) == 0 && Mask(0x20, 5) == 0 && Mask(0x10, 4) == 0
  {
    Powers();
    OneMask(7);
    OneMask(6);
    OneMask(5);
    OneMask(4);
  }

  lemma FormMask(form: Form)
    ensures Mask(form.High(), form.Prefix()) == 0
  {
    HighBits();
    ZeroMask(4);
  }

  /** The first octet of a code is its high bits and what of the value fits the prefix. */
  lemma FirstOctet(prefix: nat, high: byte, v: u32)
    requires 1 <= prefix <= 8 && Mask(high, prefix) == 0
    ensures high <= IntegerCode(prefix, high, v)[0]
    ensures IntegerCode(prefix, high, v)[0] as int <= high as int + PrefixMax(prefix)
  {
    HighBitsStay(prefix, high, if v < PrefixMax(prefix) then v else PrefixMax(prefix));
  }

  lemma LengthOctet(n: u32)
    ensures IntegerCode(7, 0, n)[0] < 128
  {
    Powers();
    ZeroMask(7);
    FirstOctet(7, 0, n);
  }

  lemma ZeroIndex()
    ensures IndexCode(Plain, 0) == [0]
  {
    Powers();
    ZeroMask(4);
    HighBitsStay(4, 0, 0);
  }

  /** A string of any length: its text up to the first NUL, or too long for the buffer. */
  lemma StringRoundTrip(text: seq<byte>, rest: seq<byte>, cap: nat)
    requires |text| <= U32_MAX
    ensures DecodeString(StringCode(text) + rest, cap)
            == if |text| >= cap then Err(RefusedStream) else Ok((Cut(text), |StringCode(text)|))
  {
    var code := IntegerCode(7, 0, |text|);
    var w := StringCode(text) + rest;
    LengthOctet(|text|);
    ZeroMask(7);
    assert w == code + (text + rest);
    IntegerRoundTrip(7, 0, |text|, text + rest);
    assert w[|code|..|code| + |text|] == text;
  }

  lemma RowAt(index: nat)
    requires 1 <= index <= TABLE_LEN
    ensures StaticGet(index) == Some(AsField(Row(index)))
  {
    RowBetweenIsRow(1, TABLE_LEN, index);
  }

  function IndexedItem(row: Result<Field>, used: nat): Result<Item> {
    match row case Err(code) => Err(code) case Ok(field) => Ok(Indexed(field, used))
  }

  lemma StaticItem(index: u32, rest: seq<byte>)
    ensures ReadItem(IndexedCode(index) + rest)
            == IndexedItem(RowOf(index), |IndexedCode(index)|)
  {
    HighBits();
    FirstOctet(7, 0x80, index);
    IntegerRoundTrip(7, 0x80, index, rest);
    if 1 <= index <= TABLE_LEN {
      RowAt(index);
    }
  }

  lemma SizeItem(size: u32, rest: seq<byte>)
    ensures ReadItem(IntegerCode(5, 0x20, size) + rest) == Ok(Resize(|IntegerCode(5, 0x20, size)|))
  {
    Powers();
    HighBits();
    FirstOctet(5, 0x20, size);
    IntegerRoundTrip(5, 0x20, size, rest);
  }

  function NamedItem(name: Result<(seq<byte>, nat)>): Result<Item> {
    match name case Err(code) => Err(code) case Ok((text, used)) => Ok(Literal(text, used))
  }

  function Ending(name: Result<seq<byte>>, used: nat): Result<(seq<byte>, nat)> {
    match name case Err(code) => Err(code) case Ok(text) => Ok((text, used))
  }

  /** The first octet sends a literal of either form to the decoding of its name. */
  lemma LiteralItem(form: Form, index: u32, w: seq<byte>, rest: seq<byte>)
    requires w == IndexCode(form, index) + rest
    ensures ReadItem(w) == NamedItem(DecodeName(w, form.Prefix()))
  {
    Powers();
    FormMask(form);
    FirstOctet(form.Prefix(), form.High(), index);
  }

  lemma RowNameDecodes(form: Form, index: u32, rest: seq<byte>)
    requires index != 0
    ensures DecodeName(IndexCode(form, index) + rest, form.Prefix())
            == Ending(NameInRow(index), |IndexCode(form, index)|)
  {
    FormMask(form);
    IntegerRoundTrip(form.Prefix(), form.High(), index, rest);
    if 1 <= index <= TABLE_LEN {
      RowAt(index);
    }
  }

  lemma NewNameDecodes(form: Form, name: seq<byte>, w: seq<byte>, rest: seq<byte>)
    requires |name| <= U32_MAX && w == IndexCode(form, 0) + (StringCode(name) + rest)
    ensures DecodeName(w, form.Prefix()) == Ending(Text(name, NAME_CAP), |IndexCode(form, 0)| + |StringCode(name)|)
  {
    var code := IndexCode(form, 0);
    FormMask(form);
    IntegerRoundTrip(form.Prefix(), form.High(), 0, StringCode(name) + rest);
    assert w[|code|..] == StringCode(name) + rest;
    StringRoundTrip(name, rest, NAME_CAP);
  }

  // ---------------------------------------------------------------- one piece

  function PieceOf(meaning: Result<Option<Field>>, used: nat): Result<Piece> {
    match meaning case Err(code) => Err(code) case Ok(more) => Ok(Piece(more, used))
  }

  /** What decoding and scanning make of the piece at the head of a block. */
  ghost predicate Reads(w: seq<byte>, meaning: Result<Option<Field>>, used: nat) {
    && w != [] && !HuffmanAhead(w)
    && DecodePiece(w) == PieceOf(meaning, used)
  }

  /** A literal's name has been read; its value is the string that follows. */
  lemma ValueReads(w: seq<byte>, name: Result<seq<byte>>, at: nat, value: seq<byte>, rest: seq<byte>)
    requires 0 < at <= |w| && |value| <= U32_MAX && w[at..] == StringCode(value) + rest
    requires ReadItem(w) == NamedItem(Ending(name, at))
    ensures Reads(w, Named(name, Text(value, VALUE_CAP)), at + |StringCode(value)|)
  {
    StringRoundTrip(value, rest, VALUE_CAP);
    LengthOctet(|value|);
    assert w[at] == w[at..][0] == IntegerCode(7, 0, |value|)[0];
  }

  lemma RowNameHead(form: Form, index: u32, tail: seq<byte>)
    requires index != 0
    ensures ReadItem(IndexCode(form, index) + tail) == NamedItem(Ending(NameInRow(index), |IndexCode(form, index)|))
  {
    LiteralItem(form, index, IndexCode(form, index) + tail, tail);
    RowNameDecodes(form, index, tail);
  }

  lemma NewNameItem(form: Form, name: seq<byte>, w: seq<byte>, tail: seq<byte>)
    requires |name| <= U32_MAX && w == IndexCode(form, 0) + (StringCode(name) + tail)
    ensures ReadItem(w) == NamedItem(Ending(Text(name, NAME_CAP), |IndexCode(form, 0)| + |StringCode(name)|))
  {
    LiteralItem(form, 0, w, StringCode(name) + tail);
    NewNameDecodes(form, name, w, tail);
  }

  lemma Regrouped(a: seq<byte>, b: seq<byte>, tail: seq<byte>, name: Result<seq<byte>>, at: nat)
    requires a != [] && ReadItem(a + (b + tail)) == NamedItem(Ending(name, at)) && at == |a + b|
    ensures ReadItem(a + b + tail) == NamedItem(Ending(name, |a + b|))
  {
    Assoc(a, b, tail);
  }

  lemma NewNameHead(form: Form, name: seq<byte>, tail: seq<byte>)
    requires |name| <= U32_MAX
    ensures var head := IndexCode(form, 0) + StringCode(name);
            ReadItem(head + tail) == NamedItem(Ending(Text(name, NAME_CAP), |head|))
  {
    var code, text := IndexCode(form, 0), StringCode(name);
    NewNameItem(form, name, code + (text + tail), tail);
    Regrouped(code, text, tail, Text(name, NAME_CAP), |code| + |text|);
  }

  lemma LiteralReads(head: seq<byte>, name: Result<seq<byte>>, value: seq<byte>, rest: seq<byte>)
    requires head != [] && |value| <= U32_MAX
    requires ReadItem(head + (StringCode(value) + rest)) == NamedItem(Ending(name, |head|))
    ensures Reads(head + StringCode(value) + rest, Named(name, Text(value, VALUE_CAP)), |head + StringCode(value)|)
  {
    var tail := StringCode(value) + rest;
    Assoc(head, StringCode(value), rest);
    assert (head + tail)[|head|..] == tail;
    ValueReads(head + tail, name, |head|, value, rest);
  }

  /** One representation is one piece, whatever comes after it. */
  lemma CodedPiece(item: Coded, rest: seq<byte>)
    requires Writable(item)
    ensures Reads(Coding(item) + rest, Meaning(item), |Coding(item)|)
  {
    match item {
      case Static(index) => StaticItem(index, rest);
      case RowName(form, index, value) =>
        RowNameHead(form, index, StringCode(value) + rest);
        LiteralReads(IndexCode(form, index), NameInRow(index), value, rest);
      case NewName(form, name, value) =>
        var head := IndexCode(form, 0) + StringCode(name);
        NewNameHead(form, name, StringCode(value) + rest);
        LiteralReads(head, Text(name, NAME_CAP), value, rest);
      case NewSize(size) => SizeItem(size, rest);
    }
  }

  function Passed(path: seq<byte>, meaning: Result<Option<Field>>, used: nat): Result<(seq<byte>, nat)> {
    match meaning case Err(code) => Err(code) case Ok(more) => Ok((Seen(path, more), used))
  }

  /** Without Huffman coding ahead, a scan's piece is the decoder's, errors included. */
  lemma ScanPieceReads(w: seq<byte>, meaning: Result<Option<Field>>, used: nat, path: seq<byte>)
    requires Reads(w, meaning, used)
    ensures ScanPiece(w, path, VALUE_CAP)
            == Passed(path, meaning, used)
  {
    if meaning.Ok? {
      ScanPieceFollows(w, path, VALUE_CAP);
    }
  }

  // -------------------------------------------------------------- whole blocks

  lemma TakeCoded(item: Coded, rest: seq<byte>, fields: seq<Field>, cap: nat)
    requires Writable(item)
    ensures DecodeFrom(Coding(item) + rest, fields, cap)
            == if |fields| >= cap then Err(RefusedStream)
               else if Meaning(item).Err? then Err(Meaning(item).code)
               else DecodeFrom(rest, Extend(fields, Meaning(item).value), cap)
  {
    CodedPiece(item, rest);
    assert (Coding(item) + rest)[|Coding(item)|..] == rest;
  }

  lemma ScanCoded(item: Coded, rest: seq<byte>, path: seq<byte>)
    requires Writable(item)
    ensures ExtractFrom(Coding(item) + rest, path, VALUE_CAP)
            == if Meaning(item).Err? then PathScan(Meaning(item).code, path)
               else ExtractFrom(rest, Seen(path, Meaning(item).value), VALUE_CAP)
  {
    CodedPiece(item, rest);
    ScanPieceReads(Coding(item) + rest, Meaning(item), |Coding(item)|, path);
    assert (Coding(item) + rest)[|Coding(item)|..] == rest;
  }

  lemma {:induction false} BlockDecodes(items: seq<Coded>, fields: seq<Field>, cap: nat)
    requires AllWritable(items)
    ensures DecodeFrom(CodedBlock(items), fields, cap) == Reading(items, fields, cap)
    decreases |items|
  {
    if items != [] {
      TakeCoded(items[0], CodedBlock(items[1..]), fields, cap);
      if Meaning(items[0]).Ok? {
        BlockDecodes(items[1..], Extend(fields, Meaning(items[0]).value), cap);
      }
    }
  }

  lemma {:induction false} BlockScans(items: seq<Coded>, path: seq<byte>)
    requires AllWritable(items)
    ensures ExtractFrom(CodedBlock(items), path, VALUE_CAP) == PathReading(items, path)
    decreases |items|
  {
    if items != [] {
      ScanCoded(items[0], CodedBlock(items[1..]), path);
      if Meaning(items[0]).Ok? {
        BlockScans(items[1..], Seen(path, Meaning(items[0]).value));
      }
    }
  }

  /** Any list of representations decodes to exactly what it stands for, every octet consumed, or is refused
      at the first that is not allowed. */
  lemma FieldListRoundTrip(items: seq<Coded>, cap: nat)
    requires AllWritable(items)
    ensures DecodeFrom(CodedBlock(items), [], cap) == Reading(items, [], cap)
  {
    BlockDecodes(items, [], cap);
  }

  /** And scans to the last path it stands for. */
  lemma PathRoundTrip(items: seq<Coded>)
    requires AllWritable(items)
    ensures ExtractPath(CodedBlock(items), VALUE_CAP) == PathReading(items, [])
  {
    BlockScans(items, []);
  }
}
