/** What hpack.c encodes, decodes and scans for, as functions on octet sequences. */
module HpackSpec {
  import opened Bytes
  import opened FrameCodec
  import opened HpackInteger
  import opened HpackStatic

  const PATH: seq<byte> := Ascii(":path")

  // ---------------------------------------------------------------- encoding

  function IndexedCode(index: u32): seq<byte> {
    IntegerCode(7, 0x80, index)
  }

  function StringCode(text: seq<byte>): (w: seq<byte>)
    requires |text| <= U32_MAX
    ensures |text| < |w|
  {
    IntegerCode(7, 0, |text|) + text
  }

  function LiteralCode(name: seq<byte>, value: seq<byte>): (w: seq<byte>)
    requires |name| <= U32_MAX && |value| <= U32_MAX
    ensures w != []
  {
    [0] + StringCode(name) + StringCode(value)
  }

  // ---------------------------------------------------------------- decoding

  /** The octets a string literal spans: where its text starts and ends. The flag says whether a set
      Huffman bit is an error. */
  function StringSpan(w: seq<byte>, cap: nat, huffmanIsError: bool): (r: Result<(nat, nat)>)
    ensures r.Ok? ==> 0 < r.value.0 <= r.value.1 <= |w| && r.value.1 - r.value.0 < cap
  {
    if w == [] || (huffmanIsError && w[0] >= 128) then Err(CompressionError)
    else match DecodeInteger(w, 7)
      case Err(_) => Err(CompressionError)
      case Ok((length, start)) =>
        if start + length > |w| then Err(CompressionError)
        else if length >= cap then Err(RefusedStream)
        else Ok((start, start + length))
  }

  function DecodeString(w: seq<byte>, cap: nat): (r: Result<(seq<byte>, nat)>)
    ensures r.Ok? ==> 0 < r.value.1 <= |w| && |r.value.0| < cap
  {
    match StringSpan(w, cap, true)
    case Err(code) => Err(code)
    case Ok((start, end)) => Ok((Cut(w[start..end]), end))
  }

  function SkipString(w: seq<byte>, cap: nat): (r: Result<nat>)
    ensures r.Ok? ==> 0 < r.value <= |w|
  {
    match StringSpan(w, cap, false)
    case Err(code) => Err(code)
    case Ok((start, end)) => Ok(end)
  }

  /** The name of a literal field: spelled out after index 0, else taken from the static table. */
  function DecodeName(w: seq<byte>, prefix: nat): (r: Result<(seq<byte>, nat)>)
    ensures r.Ok? ==> 0 < r.value.1 <= |w| && |r.value.0| < NAME_CAP
  {
    match DecodeInteger(w, prefix)
    case Err(_) => Err(CompressionError)
    case Ok((index, used)) =>
      if index == 0 then
        match DecodeString(w[used..], NAME_CAP)
        case Err(code) => Err(code)
        case Ok((name, more)) => Ok((name, used + more))
      else
        match StaticGet(index)
        case None => Err(CompressionError)
        case Some(field) => Ok((field.name, used))
  }

  /** The head of the next representation in a block, and the octets it takes. */
  datatype Item =
    | Indexed(field: Field, used: nat)
    | Resize(used: nat)
    | Literal(name: seq<byte>, used: nat)

  function ReadItem(w: seq<byte>): (r: Result<Item>)
    requires w != []
    ensures r.Ok? ==> 0 < r.value.used <= |w|
    ensures r.Ok? && r.value.Indexed? ==> |r.value.field.name| < NAME_CAP && |r.value.field.value| < VALUE_CAP
  {
    if w[0] >= 128 then
      match DecodeInteger(w, 7)
      case Err(_) => Err(CompressionError)
      case Ok((index, used)) =>
        match StaticGet(index)
        case None => Err(CompressionError)
        case Some(field) => Ok(Indexed(field, used))
    else if 32 <= w[0] < 64 then
      match DecodeInteger(w, 5)
      case Err(_) => Err(CompressionError)
      case Ok((_, used)) => Ok(Resize(used))
    else
      match DecodeName(w, if w[0] >= 64 then 6 else 4)
      case Err(code) => Err(code)
      case Ok((name, used)) => Ok(Literal(name, used))
  }

  /** One turn of the decoding loop: the field it adds, if any, and the octets it takes. */
  datatype Piece = Piece(field: Option<Field>, used: nat)

  function DecodePiece(w: seq<byte>): (r: Result<Piece>)
    requires w != []
    ensures r.Ok? ==> 0 < r.value.used <= |w|
  {
    match ReadItem(w)
    case Err(code) => Err(code)
    case Ok(Indexed(field, used)) => Ok(Piece(Some(field), used))
    case Ok(Resize(used)) => Ok(Piece(None, used))
    case Ok(Literal(name, used)) =>
      match DecodeString(w[used..], VALUE_CAP)
      case Err(code) => Err(code)
      case Ok((value, more)) => Ok(Piece(Some(Field(name, value)), used + more))
  }

  function Extend(fields: seq<Field>, more: Option<Field>): seq<Field> {
    match more case None => fields case Some(field) => fields + [field]
  }

  /** h2_hpack_decode_headers on the rest of a block, with `fields` already decoded. */
  function DecodeFrom(w: seq<byte>, fields: seq<Field>, cap: nat): Result<seq<Field>>
    decreases |w|
  {
    if w == [] then Ok(fields)
    else if |fields| >= cap then Err(RefusedStream)
    else match DecodePiece(w)
      case Err(code) => Err(code)
      case Ok(piece) => DecodeFrom(w[piece.used..], Extend(fields, piece.field), cap)
  }

  datatype PathScan = PathScan(code: Code, path: seq<byte>)

  /** h2_copy_text into the path buffer. */
  function CopyPath(value: seq<byte>, used: nat, cap: nat): Result<(seq<byte>, nat)> {
    if |value| >= cap then Err(RefusedStream) else Ok((value, used))
  }

  /** One turn of the scanning loop: the path it leaves and the octets it takes. */
  function ScanPiece(w: seq<byte>, path: seq<byte>, cap: nat): (r: Result<(seq<byte>, nat)>)
    requires w != []
    ensures r.Ok? ==> 0 < r.value.1 <= |w|
  {
    match ReadItem(w)
    case Err(code) => Err(code)
    case Ok(Indexed(field, used)) =>
      if field.name == PATH then CopyPath(field.value, used, cap) else Ok((path, used))
    case Ok(Resize(used)) => Ok((path, used))
    case Ok(Literal(name, used)) =>
      if name == PATH then
        match DecodeString(w[used..], VALUE_CAP)
        case Err(code) => Err(code)
        case Ok((value, more)) => CopyPath(value, used + more, cap)
      else
        match SkipString(w[used..], VALUE_CAP)
        case Err(code) => Err(code)
        case Ok(more) => Ok((path, used + more))
  }

  /** h2_hpack_extract_path on the rest of a block, with `path` the last path seen. */
  function ExtractFrom(w: seq<byte>, path: seq<byte>, cap: nat): PathScan
    decreases |w|
  {
    if w == [] then PathScan(if path == [] then ProtocolError else NoError, path)
    else match ScanPiece(w, path, cap)
      case Err(code) => PathScan(code, path)
      case Ok((now, used)) => ExtractFrom(w[used..], now, cap)
  }

  function ExtractPath(w: seq<byte>, cap: nat): PathScan {
    if cap == 0 then PathScan(CompressionError, []) else ExtractFrom(w, [], cap)
  }
}
