/** hpack.c: encoders that fill a buffer from an offset on, decoders that walk one. */
module Hpack {
  import opened Bytes
  import opened FrameCodec
  import opened HpackInteger
  import opened HpackStatic
  import Spec = HpackSpec

  method EncodeIndexed(wire: array<byte>, off: nat, index: u32) returns (n: nat)
    requires off <= wire.Length
    modifies wire
    ensures if StaticGet(index).Some? then Wrote(wire, off, n, Spec.IndexedCode(index))
            else n == 0 && wire[..] == old(wire[..])
  {
    if StaticGet(index) == None {
      return 0;
    }
    n := EncodeInteger(wire, off, 7, 0x80, index);
  }

  /** memcpy to the end of what has been written. */
  method Append(wire: array<byte>, at: nat, data: seq<byte>)
    requires at + |data| <= wire.Length
    modifies wire
    ensures wire[..at + |data|] == old(wire[..at]) + data
  {
    CopyInto(wire, at, data);
  }

  method EncodeString(wire: array<byte>, off: nat, text: seq<byte>) returns (n: nat)
    requires off <= wire.Length && |text| <= U32_MAX
    modifies wire
    ensures Wrote(wire, off, n, Spec.StringCode(text))
  {
    ghost var before, prefix := wire[..off], IntegerCode(7, 0, |text|);
    var prefixLen := EncodeInteger(wire, off, 7, 0, |text|);
    if prefixLen == 0 {
      return 0;
    }
    if off + prefixLen + |text| > wire.Length {
      Shorter(wire[..off + prefixLen], before, prefix);
      return 0;
    }
    Append(wire, off + prefixLen, text);
    Assoc(before, prefix, text);
    n := prefixLen + |text|;
  }

  method EncodeLiteralNewName(wire: array<byte>, off: nat, name: seq<byte>, value: seq<byte>) returns (n: nat)
    requires off <= wire.Length && |name| <= U32_MAX && |value| <= U32_MAX
    modifies wire
    ensures Wrote(wire, off, n, Spec.LiteralCode(name, value))
  {
    if off == wire.Length {
      return 0;
    }
    ghost var before, nameCode, valueCode := wire[..off], Spec.StringCode(name), Spec.StringCode(value);
    Put(wire, off, 0);
    var nameLen := EncodeString(wire, off + 1, name);
    if nameLen == 0 {
      Shorter(wire[..off + 1], before, [0]);
      return 0;
    }
    Assoc(before, [0], nameCode);
    ghost var front := [0] + nameCode;
    var start := off + 1 + nameLen;
    assert wire[..start] == before + front;
    var valueLen := EncodeString(wire, start, value);
    if valueLen == 0 {
      Shorter(wire[..start], before, front);
      return 0;
    }
    Assoc(before, front, valueCode);
    n := 1 + nameLen + valueLen;
  }

  method DecodeString(w: seq<byte>, cap: nat) returns (r: Result<(seq<byte>, nat)>)
    ensures r == Spec.DecodeString(w, cap)
  {
    if |w| == 0 {
      return Err(CompressionError);
    }
    if w[0] >= 128 {
      return Err(CompressionError);
    }
    var length := DecodeIntegerLoop(w, 7);
    match length {
      case Err(_) => return Err(CompressionError);
      case Ok((valueLen, prefixLen)) =>
        if prefixLen + valueLen > |w| {
          return Err(CompressionError);
        }
        if valueLen >= cap {
          return Err(RefusedStream);
        }
        return Ok((Cut(w[prefixLen..prefixLen + valueLen]), prefixLen + valueLen));
    }
  }

  method SkipString(w: seq<byte>, cap: nat) returns (r: Result<nat>)
    ensures r == Spec.SkipString(w, cap)
  {
    if |w| == 0 {
      return Err(CompressionError);
    }
    var length := DecodeIntegerLoop(w, 7);
    match length {
      case Err(_) => return Err(CompressionError);
      case Ok((valueLen, prefixLen)) =>
        if prefixLen + valueLen > |w| {
          return Err(CompressionError);
        }
        if valueLen >= cap {
          return Err(RefusedStream);
        }
        return Ok(prefixLen + valueLen);
    }
  }

  method DecodeName(w: seq<byte>, prefix: nat) returns (r: Result<(seq<byte>, nat)>)
    ensures r == Spec.DecodeName(w, prefix)
  {
    var index := DecodeIntegerLoop(w, prefix);
    match index {
      case Err(_) => return Err(CompressionError);
      case Ok((nameIndex, used)) =>
        if nameIndex == 0 {
          var text := DecodeString(w[used..], NAME_CAP);
          match text {
            case Err(code) => return Err(code);
            case Ok((name, more)) => return Ok((name, used + more));
          }
        }
        match StaticGet(nameIndex) {
          case None => return Err(CompressionError);
          case Some(field) => return Ok((field.name, used));
        }
    }
  }

  method ReadItem(w: seq<byte>) returns (r: Result<Spec.Item>)
    requires w != []
    ensures r == Spec.ReadItem(w)
  {
    if w[0] >= 128 {
      var index := DecodeIntegerLoop(w, 7);
      match index {
        case Err(_) => return Err(CompressionError);
        case Ok((i, used)) =>
          match StaticGet(i) {
            case None => return Err(CompressionError);
            case Some(field) => return Ok(Spec.Indexed(field, used));
          }
      }
    }
    if 32 <= w[0] < 64 {
      var size := DecodeIntegerLoop(w, 5);
      match size {
        case Err(_) => return Err(CompressionError);
        case Ok((_, used)) => return Ok(Spec.Resize(used));
      }
    }
    var name := DecodeName(w, if w[0] >= 64 then 6 else 4);
    match name {
      case Err(code) => return Err(code);
      case Ok((text, used)) => return Ok(Spec.Literal(text, used));
    }
  }

  method DecodePiece(w: seq<byte>) returns (r: Result<Spec.Piece>)
    requires w != []
    ensures r == Spec.DecodePiece(w)
  {
    var head := ReadItem(w);
    if head.Err? {
      return Err(head.code);
    }
    match head.value {
      case Indexed(field, used) =>
        return Ok(Spec.Piece(Some(field), used));
      case Resize(used) =>
        return Ok(Spec.Piece(None, used));
      case Literal(name, used) =>
        var text := DecodeString(w[used..], VALUE_CAP);
        if text.Err? {
          return Err(text.code);
        }
        var (value, more) := text.value;
        assert Spec.DecodeString(w[used..], VALUE_CAP).value.0 == value;
        assert Spec.DecodePiece(w).value.field.value == Field(name, value);
        return Ok(Spec.Piece(Some(Field(name, value)), used + more));
    }
  }

  method ScanPiece(w: seq<byte>, path: seq<byte>, cap: nat) returns (r: Result<(seq<byte>, nat)>)
    requires w != []
    ensures r == Spec.ScanPiece(w, path, cap)
  {
    var head := ReadItem(w);
    if head.Err? {
      return Err(head.code);
    }
    match head.value {
      case Indexed(field, used) =>
        return if field.name == Spec.PATH then Spec.CopyPath(field.value, used, cap) else Ok((path, used));
      case Resize(used) =>
        return Ok((path, used));
      case Literal(name, used) =>
        if name == Spec.PATH {
          var text := DecodeString(w[used..], VALUE_CAP);
          if text.Err? {
            return Err(text.code);
          }
          return Spec.CopyPath(text.value.0, used + text.value.1, cap);
        }
        var skipped := SkipString(w[used..], VALUE_CAP);
        if skipped.Err? {
          return Err(skipped.code);
        }
        return Ok((path, used + skipped.value));
    }
  }

  lemma DecodeUnrolls(w: seq<byte>, list: seq<Field>, cap: nat, piece: Result<Spec.Piece>)
    requires w != [] && |list| < cap && piece == Spec.DecodePiece(w)
    ensures Spec.DecodeFrom(w, list, cap)
            == if piece.Err? then Err(piece.code)
               else Spec.DecodeFrom(w[piece.value.used..], Spec.Extend(list, piece.value.field), cap)
  {
  }

  method Store(fields: array<Field>, count: nat, field: Field)
    requires count < fields.Length
    modifies fields
    ensures fields[..count + 1] == old(fields[..count]) + [field]
  {
    fields[count] := field;
  }

  /** h2_hpack_decode_headers: fill `fields` in place until the block ends, fails or overflows the array. */
  method DecodeHeaders(wire: seq<byte>, fields: array<Field>) returns (ret: Code, count: nat)
    modifies fields
    ensures count <= fields.Length
    ensures match Spec.DecodeFrom(wire, [], fields.Length)
            case Ok(list) => ret == NoError && fields[..count] == list
            case Err(code) => ret == code
  {
    var pos := 0;
    count := 0;
    ghost var list, rest := [], wire;
    while pos < |wire|
      invariant 0 <= pos <= |wire| && rest == wire[pos..]
      invariant count == |list| <= fields.Length && fields[..count] == list
      invariant Spec.DecodeFrom(rest, list, fields.Length) == Spec.DecodeFrom(wire, [], fields.Length)
    {
      if count >= fields.Length {
        return RefusedStream, count;
      }
      var piece := DecodePiece(wire[pos..]);
      DecodeUnrolls(rest, list, fields.Length, piece);
      if piece.Err? {
        return piece.code, count;
      }
      list := Spec.Extend(list, piece.value.field);
      if piece.value.field.Some? {
        Store(fields, count, piece.value.field.value);
        count := count + 1;
      }
      rest := rest[piece.value.used..];
      pos := pos + piece.value.used;
    }
    ret := NoError;
  }

  /** h2_hpack_extract_path: one pass over the block that keeps only the last path. */
  method ExtractPath(wire: seq<byte>, cap: nat) returns (scan: Spec.PathScan)
    ensures scan == Spec.ExtractPath(wire, cap)
  {
    if cap == 0 {
      return Spec.PathScan(CompressionError, []);
    }
    var path: seq<byte> := [];
    var pos := 0;
    ghost var rest := wire;
    while pos < |wire|
      invariant 0 <= pos <= |wire| && rest == wire[pos..]
      invariant Spec.ExtractFrom(rest, path, cap) == Spec.ExtractFrom(wire, [], cap)
    {
      var piece := ScanPiece(wire[pos..], path, cap);
      if piece.Err? {
        return Spec.PathScan(piece.code, path);
      }
      path := piece.value.0;
      rest := rest[piece.value.1..];
      pos := pos + piece.value.1;
    }
    if path == [] {
      return Spec.PathScan(ProtocolError, path);
    }
    return Spec.PathScan(NoError, path);
  }
}
