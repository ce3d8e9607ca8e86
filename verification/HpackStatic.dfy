/** The static table of appendix A of RFC 7541 (hpack_static.c). */
module HpackStatic {
  import opened Bytes

  const TABLE_LEN := 61
  const NAME_CAP := 64
  const VALUE_CAP := 256

  /** A header field; both parts are C strings, given by their characters before the terminator. */
  datatype Field = Field(name: seq<byte>, value: seq<byte>)

  function Ascii(s: string): (text: seq<byte>)
    ensures |text| == |s|
  {
    seq(|s|, i requires 0 <= i < |s| => s[i] as int % 256)
  }

  ghost predicate NulFree(text: seq<byte>) {
    forall i :: 0 <= i < |text| ==> text[i] != 0
  }

  /** What C reads from a character buffer: everything before the first NUL. */
  function Cut(text: seq<byte>): (c: seq<byte>)
    ensures |c| <= |text|
  {
    if text == [] || text[0] == 0 then [] else [text[0]] + Cut(text[1..])
  }

  lemma {:induction false} CutMeans(text: seq<byte>)
    ensures var c := Cut(text);
            c == text[..|c|] && NulFree(c) && (c == text || text[|c|] == 0)
  {
    if text != [] && text[0] != 0 {
      CutMeans(text[1..]);
    }
  }

  lemma CutIsIdentity(text: seq<byte>)
    requires NulFree(text)
    ensures Cut(text) == text
  {
    CutMeans(text);
  }

  type Entry = e: (string, string) | |e.0| < NAME_CAP && |e.1| < VALUE_CAP
    witness ("", "")

  function Entries1To15(index: nat): Entry {
    match index
    case 1 => (":authority", "")
    case 2 => (":method", "GET")
    case 3 => (":method", "POST")
    case 4 => (":path", "/")
    case 5 => (":path", "/index.html")
    case 6 => (":scheme", "http")
    case 7 => (":scheme", "https")
    case 8 => (":status", "200")
    case 9 => (":status", "204")
    case 10 => (":status", "206")
    case 11 => (":status", "304")
    case 12 => (":status", "400")
    case 13 => (":status", "404")
    case 14 => (":status", "500")
    case _ => ("accept-charset", "")
  }

  function Entries16To31(index: nat): Entry {
    match index
    case 16 => ("accept-encoding", "gzip, deflate")
    case 17 => ("accept-language", "")
    case 18 => ("accept-ranges", "")
    case 19 => ("accept", "")
    case 20 => ("access-control-allow-origin", "")
    case 21 => ("age", "")
    case 22 => ("allow", "")
    case 23 => ("authorization", "")
    case 24 => ("cache-control", "")
    case 25 => ("content-disposition", "")
    case 26 => ("content-encoding", "")
    case 27 => ("content-language", "")
    case 28 => ("content-length", "")
    case 29 => ("content-location", "")
    case 30 => ("content-range", "")
    case _ => ("content-type", "")
  }

  function Entries32To46(index: nat): Entry {
    match index
    case 32 => ("cookie", "")
    case 33 => ("date", "")
    case 34 => ("etag", "")
    case 35 => ("expect", "")
    case 36 => ("expires", "")
    case 37 => ("from", "")
    case 38 => ("host", "")
    case 39 => ("if-match", "")
    case 40 => ("if-modified-since", "")
    case 41 => ("if-none-match", "")
    case 42 => ("if-range", "")
    case 43 => ("if-unmodified-since", "")
    case 44 => ("last-modified", "")
    case 45 => ("link", "")
    case _ => ("location", "")
  }

  function Entries47To61(index: nat): Entry {
    match index
    case 47 => ("max-forwards", "")
    case 48 => ("proxy-authenticate", "")
    case 49 => ("proxy-authorization", "")
    case 50 => ("range", "")
    case 51 => ("referer", "")
    case 52 => ("refresh", "")
    case 53 => ("retry-after", "")
    case 54 => ("server", "")
    case 55 => ("set-cookie", "")
    case 56 => ("strict-transport-security", "")
    case 57 => ("transfer-encoding", "")
    case 58 => ("user-agent", "")
    case 59 => ("vary", "")
    case 60 => ("via", "")
    case _ => ("www-authenticate", "")
  }

  function Row(index: nat): Entry {
    if index <= 15 then Entries1To15(index)
    else if index <= 31 then Entries16To31(index)
    else if index <= 46 then Entries32To46(index)
    else Entries47To61(index)
  }

  /** Row `index`, found by halving the range it is known to lie in. */
  function RowBetween(lo: nat, hi: nat, index: nat): Entry
    requires lo <= index <= hi
    decreases hi - lo, index
  {
    if lo == hi then Row(index)
    else if index <= (lo + hi) / 2 then RowBetween(lo, (lo + hi) / 2, index)
    else RowBetween((lo + hi) / 2 + 1, hi, index)
  }

  lemma {:induction false} RowBetweenIsRow(lo: nat, hi: nat, index: nat)
    requires lo <= index <= hi
    ensures RowBetween(lo, hi, index) == Row(index)
    decreases hi - lo
  {
    if lo < hi {
      if index <= (lo + hi) / 2 {
        RowBetweenIsRow(lo, (lo + hi) / 2, index);
      } else {
        RowBetweenIsRow((lo + hi) / 2 + 1, hi, index);
      }
    }
  }

  function AsField(e: Entry): (field: Field)
    ensures |field.name| < NAME_CAP && |field.value| < VALUE_CAP
  {
    Field(Cut(Ascii(e.0)), Cut(Ascii(e.1)))
  }

  /** h2_hpack_static_get: no entry outside 1..61. */
  function StaticGet(index: nat): (field: Option<Field>)
    ensures field.Some? <==> 1 <= index <= TABLE_LEN
    ensures field.Some? ==> |field.value.name| < NAME_CAP && |field.value.value| < VALUE_CAP
  {
    if index == 0 || index > TABLE_LEN then None else Some(AsField(RowBetween(1, TABLE_LEN, index)))
  }
}
