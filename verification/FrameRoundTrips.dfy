/** What parsing recovers from what encoding wrote, and the exact layout of accepted payloads. */
module FrameRoundTrips {
  import opened Bytes
  import opened FrameCodec

  /** On the wire a frame is its nine-octet header followed by its payload, whatever comes after. */
  lemma HeaderRoundTrip(f: Frame, rest: seq<byte>)
    requires Encodable(f)
    ensures ParseHeader(Wire(f) + rest) == Ok(HeaderOf(f))
    ensures (Wire(f) + rest)[HEADER_LEN..HEADER_LEN + |f.payload|] == f.payload
    ensures (Wire(f) + rest)[HEADER_LEN + |f.payload|..] == rest
  {
    var w := Wire(f) + rest;
    var n := |f.payload|;
    assert w[0] == n / 0x1_0000 && w[1] == n / 256 % 256 && w[2] == n % 256;
    assert w[5..] == Be32(f.streamId % U31_SPAN) + (f.payload + rest);
    Read32OfBe32(f.streamId % U31_SPAN, f.payload + rest);
  }

  /** A parsed header determines its nine octets, up to the reserved bit. */
  lemma HeaderIsInjective(wire: seq<byte>)
    requires HEADER_LEN <= |wire| && wire[5] < 128
    ensures var h := ParseHeader(wire).value;
            h.length <= MAX_FRAME_SIZE && HeaderBytes(h.length, h.kind, h.flags, h.streamId) == wire[..HEADER_LEN]
  {
    var h := ParseHeader(wire).value;
    var a, b, c := wire[0] as int, wire[1] as int, wire[2] as int;
    assert h.length / 256 == a * 256 + b && h.length % 256 == c;
    assert h.length / 0x1_0000 == (h.length / 256) / 256 == a;
    Be32OfRead32(wire[5..9]);
    assert Read32(wire[5..9]) == h.streamId == h.streamId % U31_SPAN;
  }

  /** Recover header and payload of an encoded frame. */
  ghost predicate Recovers(f: Option<Frame>, kind: byte, streamId: u32, flags: byte) {
    && f.Some?
    && Encodable(f.value)
    && ParseHeader(Wire(f.value)) == Ok(FrameHeader(|f.value.payload|, kind, flags, streamId % U31_SPAN))
    && Wire(f.value)[HEADER_LEN..] == f.value.payload
  }

  lemma WireParts(f: Frame)
    requires Encodable(f)
    ensures Recovers(Some(f), f.kind, f.streamId, f.flags)
  {
    HeaderRoundTrip(f, []);
    assert Wire(f) + [] == Wire(f);
  }

  lemma DataRoundTrip(streamId: u32, flags: byte, data: seq<byte>)
    requires streamId % U31_SPAN != 0 && !HasPadding(flags) && |data| <= MAX_FRAME_SIZE
    ensures var f := DataFrame(streamId, flags, data);
            Recovers(f, DATA, streamId, flags) && ParseData(HeaderOf(f.value), f.value.payload) == Ok(DataPayload(data, 0))
  {
    WireParts(DataFrame(streamId, flags, data).value);
  }

  lemma HeadersRoundTrip(streamId: u32, flags: byte, block: seq<byte>)
    requires streamId % U31_SPAN != 0 && !HasPadding(flags) && !HasPriority(flags) && |block| <= MAX_FRAME_SIZE
    ensures var f := HeadersFrame(streamId, flags, block);
            && Recovers(f, HEADERS, streamId, flags)
            && ParseHeaders(HeaderOf(f.value), f.value.payload) == Ok(HeadersPayload(block, 0, None))
  {
    WireParts(HeadersFrame(streamId, flags, block).value);
  }

  lemma ContinuationRoundTrip(streamId: u32, flags: byte, block: seq<byte>)
    requires streamId % U31_SPAN != 0 && |block| <= MAX_FRAME_SIZE
    ensures var f := ContinuationFrame(streamId, flags, block);
            && Recovers(f, CONTINUATION, streamId, flags)
            && ParseContinuation(HeaderOf(f.value), f.value.payload) == Ok(block)
  {
    WireParts(ContinuationFrame(streamId, flags, block).value);
  }

  lemma PriorityOctets(p: Priority, streamId: u32, rest: seq<byte>)
    requires p.dependency < U31_SPAN
    ensures ReadPriority(streamId, PriorityBytes(p) + rest) ==
            if p.dependency == streamId then Err(ProtocolError) else Ok(p)
  {
    var v := p.dependency as int + if p.exclusive then U31_SPAN else 0;
    var w := PriorityBytes(p) + rest;
    assert w == Be32(v) + ([p.weight] + rest);
    Read32OfBe32(v, [p.weight] + rest);
    assert v % U31_SPAN == p.dependency;
    assert w[0] == v / 0x100_0000 && w[4] == p.weight;
    assert w[0] >= 128 <==> p.exclusive;
  }

  /** A stream may not depend on itself: the parser refuses exactly that. */
  lemma PriorityRoundTrip(streamId: u32, p: Priority)
    requires streamId % U31_SPAN != 0 && p.dependency < U31_SPAN
    ensures var f := PriorityFrame(streamId, p);
            && Recovers(f, PRIORITY, streamId, 0)
            && ParsePriority(HeaderOf(f.value), f.value.payload) ==
               if p.dependency == streamId % U31_SPAN then Err(ProtocolError) else Ok(p)
  {
    WireParts(PriorityFrame(streamId, p).value);
    PriorityOctets(p, streamId % U31_SPAN, []);
    assert PriorityBytes(p) + [] == PriorityBytes(p);
  }

  lemma RstStreamRoundTrip(streamId: u32, errorCode: u32)
    requires streamId % U31_SPAN != 0
    ensures var f := RstStreamFrame(streamId, errorCode);
            && Recovers(f, RST_STREAM, streamId, 0)
            && ParseRstStream(HeaderOf(f.value), f.value.payload) == Ok(errorCode)
  {
    WireParts(RstStreamFrame(streamId, errorCode).value);
    Read32OfBe32(errorCode, []);
    assert Be32(errorCode) + [] == Be32(errorCode);
  }

  lemma WindowUpdateRoundTrip(streamId: u32, increment: u32)
    requires 0 < increment < U31_SPAN
    ensures var f := WindowUpdateFrame(streamId, increment);
            && Recovers(f, WINDOW_UPDATE, streamId, 0)
            && ParseWindowUpdate(HeaderOf(f.value), f.value.payload) == Ok(increment)
  {
    WireParts(WindowUpdateFrame(streamId, increment).value);
    Read32OfBe32(increment, []);
    assert Be32(increment) + [] == Be32(increment);
  }

  lemma PingRoundTrip(flags: byte, opaqueBytes: seq<byte>)
    requires |opaqueBytes| == 8
    ensures var f := PingFrame(flags, opaqueBytes);
            && Recovers(f, PING, 0, flags)
            && ParsePing(HeaderOf(f.value), f.value.payload) == Ok(opaqueBytes)
  {
    WireParts(PingFrame(flags, opaqueBytes).value);
  }

  lemma GoawayRoundTrip(lastStreamId: u32, errorCode: u32, debug: seq<byte>)
    requires |debug| + 8 <= DEFAULT_MAX_FRAME_SIZE
    ensures var f := GoawayFrame(lastStreamId, errorCode, debug);
            && Recovers(f, GOAWAY, 0, 0)
            && ParseGoaway(HeaderOf(f.value), f.value.payload)
               == Ok(GoawayPayload(lastStreamId % U31_SPAN, errorCode, debug))
  {
    var f := GoawayFrame(lastStreamId, errorCode, debug).value;
    WireParts(f);
    assert f.payload == Be32(lastStreamId % U31_SPAN) + (Be32(errorCode) + debug);
    Read32OfBe32(lastStreamId % U31_SPAN, Be32(errorCode) + debug);
    assert f.payload[4..] == Be32(errorCode) + debug;
    Read32OfBe32(errorCode, debug);
  }

  lemma PushPromiseRoundTrip(streamId: u32, flags: byte, promised: u32, block: seq<byte>)
    requires streamId % U31_SPAN != 0 && promised != 0 && !HasPadding(flags)
    requires |block| <= DEFAULT_MAX_FRAME_SIZE - 4
    ensures var f := PushPromiseFrame(streamId, flags, promised, block);
            && Recovers(f, PUSH_PROMISE, streamId, flags)
            && ParsePushPromise(HeaderOf(f.value), f.value.payload)
               == Ok(PushPromisePayload(promised % U31_SPAN, block, 0))
  {
    WireParts(PushPromiseFrame(streamId, flags, promised, block).value);
    Read32OfBe32(promised % U31_SPAN, block);
  }

  lemma {:induction false} SettingsOctets(items: seq<Setting>)
    ensures SettingsIn(SettingsBytes(items)) == items
  {
    if items != [] {
      var head, tail := items[0], SettingsBytes(items[1..]);
      var w := SettingsBytes(items);
      SettingsOctets(items[1..]);
      Read16OfBe16(head.id, Be32(head.value) + tail);
      Read32OfBe32(head.value, tail);
      assert w == Be16(head.id) + (Be32(head.value) + tail);
      assert w[2..] == Be32(head.value) + tail;
      assert w[6..] == tail;
    }
  }

  /** Every list the encoder accepts comes back whole, through any parser that has room for it. */
  lemma SettingsRoundTrip(flags: byte, items: seq<Setting>, maxItems: nat)
    requires SettingsFrame(flags, items).Some? && |items| <= maxItems
    ensures var f := SettingsFrame(flags, items);
            && Recovers(f, SETTINGS, 0, if HasAck(flags) then FLAG_ACK else flags)
            && ParseSettings(HeaderOf(f.value), f.value.payload, maxItems) == Ok(items)
  {
    WireParts(SettingsFrame(flags, items).value);
    SettingsOctets(items);
  }

  // ------------------------------------------------------ layout of payloads

  /** Pad-length octet (if flagged), prefix, content and padding, adding up to the header length. */
  ghost predicate Splits(h: FrameHeader, payload: seq<byte>, padLen: byte, prefix: seq<byte>, content: seq<byte>) {
    var padOctet := if HasPadding(h.flags) then [padLen] else [];
    && |padOctet| + |prefix| + |content| + padLen as int == h.length == |payload|
    && padOctet + prefix + content <= payload
    && (!HasPadding(h.flags) ==> padLen == 0)
  }

  lemma UnpadLayout(h: FrameHeader, payload: seq<byte>, d: DataPayload)
    requires |payload| == h.length
    ensures Unpad(h.flags, payload) == Ok(d) <==> Splits(h, payload, d.padLen, [], d.data)
  {
    var padOctet := if HasPadding(h.flags) then [d.padLen] else [];
    var front := padOctet + [] + d.data;
    if Unpad(h.flags, payload) == Ok(d) {
      assert front == payload[..h.length - d.padLen as int];
    }
    if Splits(h, payload, d.padLen, [], d.data) {
      assert front == payload[..|front|];
      if HasPadding(h.flags) {
        assert payload[0] == front[0] == d.padLen;
        assert d.data == front[1..] == payload[1..|front|];
      } else {
        assert d.data == front == payload[..|payload|] == payload;
      }
    }
  }

  lemma DataLayout(h: FrameHeader, payload: seq<byte>, d: DataPayload)
    requires |payload| == h.length <= MAX_FRAME_SIZE && h.kind == DATA
    ensures ParseData(h, payload) == Ok(d) <==> h.streamId != 0 && Splits(h, payload, d.padLen, [], d.data)
  {
    UnpadLayout(h, payload, d);
  }

  /** What the five octets of a priority block say, and nothing else reads that way. */
  lemma PriorityLayout(streamId: u32, w: seq<byte>, p: Priority)
    requires |w| >= 5
    ensures ReadPriority(streamId, w) == Ok(p)
            <==> p.dependency < U31_SPAN && p.dependency != streamId && w[..5] == PriorityBytes(p)
  {
    if ReadPriority(streamId, w) == Ok(p) {
      Be32OfRead32(w[..4]);
      assert Read32(w[..4]) == p.dependency % U31_SPAN + if p.exclusive then U31_SPAN else 0;
      assert w[..5] == w[..4] + [w[4]];
    }
    if p.dependency < U31_SPAN && p.dependency != streamId && w[..5] == PriorityBytes(p) {
      PriorityOctets(p, streamId, w[5..]);
      assert w == PriorityBytes(p) + w[5..];
    }
  }

  function PriorityPrefix(p: Option<Priority>): seq<byte> {
    match p case None => [] case Some(priority) => PriorityBytes(priority)
  }

  /** The fragment and optional priority block that make up the unpadded part of HEADERS. */
  lemma PrioritisedLayout(streamId: u32, data: seq<byte>, priority: Option<Priority>, block: seq<byte>)
    requires priority.Some?
    ensures |data| >= 5 && ReadPriority(streamId, data) == Ok(priority.value) && data[5..] == block
            <==> && priority.value.dependency < U31_SPAN && priority.value.dependency != streamId
                 && data == PriorityPrefix(priority) + block
  {
    if |data| >= 5 {
      PriorityLayout(streamId, data, priority.value);
      assert data == data[..5] + data[5..];
    }
    var whole := PriorityPrefix(priority) + block;
    assert whole[..5] == PriorityBytes(priority.value) && whole[5..] == block;
  }

  lemma SplitsPrefix(h: FrameHeader, payload: seq<byte>, padLen: byte, prefix: seq<byte>, content: seq<byte>)
    ensures Splits(h, payload, padLen, prefix, content) <==> Splits(h, payload, padLen, [], prefix + content)
  {
    var padOctet := if HasPadding(h.flags) then [padLen] else [];
    assert padOctet + prefix + content == padOctet + [] + (prefix + content);
  }

  ghost predicate HeadersFields(h: FrameHeader, d: HeadersPayload) {
    && h.streamId != 0
    && (HasPriority(h.flags) <==> d.priority.Some?)
    && (d.priority.Some? ==> d.priority.value.dependency < U31_SPAN && d.priority.value.dependency != h.streamId)
  }

  /** HEADERS: accepted exactly when pad length, priority block, fragment and padding fill the payload. */
  lemma HeadersLayout(h: FrameHeader, payload: seq<byte>, d: HeadersPayload)
    requires |payload| == h.length <= MAX_FRAME_SIZE && h.kind == HEADERS
    ensures ParseHeaders(h, payload) == Ok(d)
            <==> HeadersFields(h, d) && Splits(h, payload, d.padLen, PriorityPrefix(d.priority), d.block)
  {
    var whole := PriorityPrefix(d.priority) + d.block;
    SplitsPrefix(h, payload, d.padLen, PriorityPrefix(d.priority), d.block);
    UnpadLayout(h, payload, DataPayload(whole, d.padLen));
    match d.priority {
      case None =>
        assert whole == d.block;
      case Some(p) =>
        PrioritisedLayout(h.streamId, whole, d.priority, d.block);
        if ParseHeaders(h, payload) == Ok(d) {
          PrioritisedLayout(h.streamId, Unpad(h.flags, payload).value.data, d.priority, d.block);
        }
    }
  }

  ghost predicate PushPromiseSplits(h: FrameHeader, payload: seq<byte>, d: PushPromisePayload, id: seq<byte>) {
    |id| == 4 && Read31(id) == d.promised && h.streamId != 0 && Splits(h, payload, d.padLen, id, d.block)
  }

  lemma PushPromiseAccepted(h: FrameHeader, payload: seq<byte>, d: PushPromisePayload, id: seq<byte>)
    requires |payload| == h.length <= MAX_FRAME_SIZE && h.kind == PUSH_PROMISE && PushPromiseSplits(h, payload, d, id)
    ensures ParsePushPromise(h, payload) == Ok(d)
  {
    SplitsPrefix(h, payload, d.padLen, id, d.block);
    UnpadLayout(h, payload, DataPayload(id + d.block, d.padLen));
    assert (id + d.block)[4..] == d.block;
  }

  /** PUSH_PROMISE: accepted exactly when pad length, promised id, fragment and padding fill the payload. */
  lemma PushPromiseLayout(h: FrameHeader, payload: seq<byte>, d: PushPromisePayload)
    requires |payload| == h.length <= MAX_FRAME_SIZE && h.kind == PUSH_PROMISE
    ensures ParsePushPromise(h, payload) == Ok(d) <==> exists id: seq<byte> :: PushPromiseSplits(h, payload, d, id)
  {
    if ParsePushPromise(h, payload) == Ok(d) {
      var p := Unpad(h.flags, payload).value;
      UnpadLayout(h, payload, p);
      var id := p.data[..4];
      assert p.data == id + d.block;
      SplitsPrefix(h, payload, d.padLen, id, d.block);
      assert PushPromiseSplits(h, payload, d, id);
    }
    if id: seq<byte> :| PushPromiseSplits(h, payload, d, id) {
      PushPromiseAccepted(h, payload, d, id);
    }
  }

  /** The kinds without padding: accepted exactly at their lengths, on stream 0 or on another. */
  lemma FixedLayouts(h: FrameHeader, payload: seq<byte>, maxItems: nat)
    requires |payload| == h.length <= MAX_FRAME_SIZE
    ensures h.kind == PRIORITY ==> (ParsePriority(h, payload).Ok? <==> h.streamId != 0 && h.length == 5 && Read31(payload) != h.streamId)
    ensures h.kind == RST_STREAM ==> (ParseRstStream(h, payload).Ok? <==> h.streamId != 0 && h.length == 4)
    ensures h.kind == SETTINGS ==>
              (ParseSettings(h, payload, maxItems).Ok?
               <==> h.streamId == 0 && if HasAck(h.flags) then h.length == 0 else h.length % 6 == 0 && h.length / 6 <= maxItems)
    ensures h.kind == PING ==> (ParsePing(h, payload).Ok? <==> h.streamId == 0 && h.length == 8)
    ensures h.kind == GOAWAY ==> (ParseGoaway(h, payload).Ok? <==> h.streamId == 0 && h.length >= 8)
    ensures h.kind == WINDOW_UPDATE ==> (ParseWindowUpdate(h, payload).Ok? <==> h.length == 4 && Read31(payload) != 0)
    ensures h.kind == CONTINUATION ==> (ParseContinuation(h, payload).Ok? <==> h.streamId != 0)
  {
  }

  // ------------------------------------------------------------------- numbers

  /** The frame types of section 6 of RFC 7540, in the order of their numbers. */
  const FRAME_TYPES: seq<string> := [
    "DATA", "HEADERS", "PRIORITY", "RST_STREAM", "SETTINGS", "PUSH_PROMISE", "PING", "GOAWAY", "WINDOW_UPDATE",
    "CONTINUATION"]

  lemma TypesAreListed()
    ensures FRAME_TYPES[DATA] == "DATA" && FRAME_TYPES[HEADERS] == "HEADERS" && FRAME_TYPES[PRIORITY] == "PRIORITY"
    ensures FRAME_TYPES[RST_STREAM] == "RST_STREAM" && FRAME_TYPES[SETTINGS] == "SETTINGS"
    ensures FRAME_TYPES[PUSH_PROMISE] == "PUSH_PROMISE" && FRAME_TYPES[PING] == "PING" && FRAME_TYPES[GOAWAY] == "GOAWAY"
    ensures FRAME_TYPES[WINDOW_UPDATE] == "WINDOW_UPDATE" && FRAME_TYPES[CONTINUATION] == "CONTINUATION"
  {
  }

  /** Flags put together from their bits (sections 6.1 and 6.2 of RFC 7540) come apart into them. */
  lemma FlagsComeApart(endStream: bool, endHeaders: bool, padded: bool, priority: bool)
    ensures var flags := (if endStream then 0x1 else 0) + (if endHeaders then 0x4 else 0)
                         + (if padded then 0x8 else 0) + (if priority then 0x20 else 0);
            && HasEndStream(flags) == HasAck(flags) == endStream && HasEndHeaders(flags) == endHeaders
            && HasPadding(flags) == padded && HasPriority(flags) == priority
  {
  }
}
