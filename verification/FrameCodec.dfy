/** The frame layout of sections 4.1 and 6 of RFC 7540, as frame.c reads and writes it. */
module FrameCodec {
  import opened Bytes

  const HEADER_LEN := 9
  const DEFAULT_MAX_FRAME_SIZE := 16384
  const MAX_FRAME_SIZE := 16777215

  const DATA: byte := 0
  const HEADERS: byte := 1
  const PRIORITY: byte := 2
  const RST_STREAM: byte := 3
  const SETTINGS: byte := 4
  const PUSH_PROMISE: byte := 5
  const PING: byte := 6
  const GOAWAY: byte := 7
  const WINDOW_UPDATE: byte := 8
  const CONTINUATION: byte := 9

  const FLAG_END_STREAM: byte := 1
  const FLAG_ACK: byte := 1
  const FLAG_END_HEADERS: byte := 4

  datatype Code =
    | NoError
    | ProtocolError
    | InternalError
    | FlowControlError
    | StreamClosed
    | FrameSizeError
    | RefusedStream
    | CompressionError
  {
    /** The error code put on the wire. */
    function Number(): u32 {
      match this
      case NoError => 0
      case ProtocolError => 1
      case InternalError => 2
      case FlowControlError => 3
      case StreamClosed => 5
      case FrameSizeError => 6
      case RefusedStream => 7
      case CompressionError => 9
    }
  }

  datatype Result<+T> = Ok(value: T) | Err(code: Code)

  datatype FrameHeader = FrameHeader(length: nat, kind: byte, flags: byte, streamId: u32)
  datatype Frame = Frame(kind: byte, flags: byte, streamId: u32, payload: seq<byte>)
  datatype Setting = Setting(id: u16, value: u32)
  datatype Priority = Priority(exclusive: bool, dependency: u32, weight: byte)
  datatype DataPayload = DataPayload(data: seq<byte>, padLen: byte)
  datatype HeadersPayload = HeadersPayload(block: seq<byte>, padLen: byte, priority: Option<Priority>)
  datatype PushPromisePayload = PushPromisePayload(promised: u32, block: seq<byte>, padLen: byte)
  datatype GoawayPayload = GoawayPayload(lastStreamId: u32, errorCode: u32, debug: seq<byte>)

  // END_STREAM and ACK share bit 0.
  predicate HasEndStream(flags: byte) { flags % 2 == 1 }
  predicate HasAck(flags: byte) { flags % 2 == 1 }
  predicate HasEndHeaders(flags: byte) { flags / 4 % 2 == 1 }
  predicate HasPadding(flags: byte) { flags / 8 % 2 == 1 }
  predicate HasPriority(flags: byte) { flags / 32 % 2 == 1 }

  // ---------------------------------------------------------------- reading

  function ParseHeader(wire: seq<byte>): Result<FrameHeader> {
    if |wire| < HEADER_LEN then Err(FrameSizeError)
    else Ok(FrameHeader((wire[0] as int) * 0x1_0000 + (wire[1] as int) * 256 + wire[2] as int,
                        wire[3], wire[4], Read31(wire[5..])))
  }

  function Validate(h: FrameHeader): Code {
    if h.length > MAX_FRAME_SIZE then FrameSizeError
    else if h.kind == DATA || h.kind == HEADERS || h.kind == CONTINUATION then
      if h.streamId == 0 then ProtocolError else NoError
    else if h.kind == PRIORITY then
      if h.streamId == 0 then ProtocolError else if h.length == 5 then NoError else FrameSizeError
    else if h.kind == RST_STREAM then
      if h.streamId == 0 then ProtocolError else if h.length == 4 then NoError else FrameSizeError
    else if h.kind == SETTINGS then
      if h.streamId != 0 then ProtocolError
      else if HasAck(h.flags) then if h.length == 0 then NoError else FrameSizeError
      else if h.length % 6 == 0 then NoError else FrameSizeError
    else if h.kind == PUSH_PROMISE then
      if h.streamId == 0 then ProtocolError
      else if h.length >= (if HasPadding(h.flags) then 5 else 4) then NoError else FrameSizeError
    else if h.kind == PING then
      if h.streamId != 0 then ProtocolError else if h.length == 8 then NoError else FrameSizeError
    else if h.kind == GOAWAY then
      if h.streamId != 0 then ProtocolError else if h.length >= 8 then NoError else FrameSizeError
    else if h.kind == WINDOW_UPDATE then
      if h.length == 4 then NoError else FrameSizeError
    else NoError
  }

  /** Drop the pad-length octet and the trailing padding it announces. */
  function Unpad(flags: byte, payload: seq<byte>): Result<DataPayload> {
    if !HasPadding(flags) then Ok(DataPayload(payload, 0))
    else if |payload| == 0 then Err(FrameSizeError)
    else if payload[0] as int > |payload| - 1 then Err(ProtocolError)
    else Ok(DataPayload(payload[1..|payload| - payload[0] as int], payload[0]))
  }

  function ParseData(h: FrameHeader, payload: seq<byte>): Result<DataPayload>
    requires |payload| == h.length
  {
    if h.kind != DATA || Validate(h) != NoError then Err(ProtocolError)
    else Unpad(h.flags, payload)
  }

  function ReadPriority(streamId: u32, w: seq<byte>): Result<Priority>
    requires 5 <= |w|
  {
    if Read31(w) == streamId then Err(ProtocolError)
    else Ok(Priority(w[0] >= 128, Read31(w), w[4]))
  }

  function ParsePriority(h: FrameHeader, payload: seq<byte>): Result<Priority>
    requires |payload| == h.length
  {
    if h.kind != PRIORITY || Validate(h) != NoError then Err(FrameSizeError)
    else ReadPriority(h.streamId, payload)
  }

  function ParseHeaders(h: FrameHeader, payload: seq<byte>): Result<HeadersPayload>
    requires |payload| == h.length
  {
    if h.kind != HEADERS || Validate(h) != NoError then Err(ProtocolError)
    else match Unpad(h.flags, payload)
      case Err(code) => Err(code)
      case Ok(p) =>
        if !HasPriority(h.flags) then Ok(HeadersPayload(p.data, p.padLen, None))
        else if |p.data| < 5 then Err(FrameSizeError)
        else match ReadPriority(h.streamId, p.data)
          case Err(code) => Err(code)
          case Ok(priority) => Ok(HeadersPayload(p.data[5..], p.padLen, Some(priority)))
  }

  function SettingsIn(payload: seq<byte>): (items: seq<Setting>)
    requires |payload| % 6 == 0
    ensures |items| == |payload| / 6
  {
    if payload == [] then []
    else [Setting(Read16(payload), Read32(payload[2..]))] + SettingsIn(payload[6..])
  }

  function ParseSettings(h: FrameHeader, payload: seq<byte>, maxItems: nat): Result<seq<Setting>>
    requires |payload| == h.length
  {
    if h.kind != SETTINGS then Err(ProtocolError)
    else if Validate(h) != NoError then Err(Validate(h))
    else if HasAck(h.flags) then Ok([])
    else if h.length / 6 > maxItems then Err(InternalError)
    else Ok(SettingsIn(payload))
  }

  function ParseWindowUpdate(h: FrameHeader, payload: seq<byte>): Result<u32>
    requires |payload| == h.length
  {
    if h.kind != WINDOW_UPDATE then Err(ProtocolError)
    else if Validate(h) != NoError then Err(Validate(h))
    else if Read31(payload) == 0 then Err(ProtocolError)
    else Ok(Read31(payload))
  }

  function ParsePing(h: FrameHeader, payload: seq<byte>): Result<seq<byte>>
    requires |payload| == h.length
  {
    if h.kind != PING then Err(ProtocolError)
    else if Validate(h) != NoError then Err(Validate(h))
    else Ok(payload)
  }

  function ParseGoaway(h: FrameHeader, payload: seq<byte>): Result<GoawayPayload>
    requires |payload| == h.length
  {
    if h.kind != GOAWAY then Err(ProtocolError)
    else if Validate(h) != NoError then Err(Validate(h))
    else Ok(GoawayPayload(Read31(payload), Read32(payload[4..]), payload[8..]))
  }

  function ParseRstStream(h: FrameHeader, payload: seq<byte>): Result<u32>
    requires |payload| == h.length
  {
    if h.kind != RST_STREAM then Err(ProtocolError)
    else if Validate(h) != NoError then Err(Validate(h))
    else Ok(Read32(payload))
  }

  function ParseContinuation(h: FrameHeader, payload: seq<byte>): Result<seq<byte>>
    requires |payload| == h.length
  {
    if h.kind != CONTINUATION || Validate(h) != NoError then Err(ProtocolError)
    else Ok(payload)
  }

  function ParsePushPromise(h: FrameHeader, payload: seq<byte>): Result<PushPromisePayload>
    requires |payload| == h.length
  {
    if h.kind != PUSH_PROMISE || Validate(h) != NoError then Err(ProtocolError)
    else match Unpad(h.flags, payload)
      case Err(code) => Err(code)
      case Ok(p) =>
        if |p.data| < 4 then Err(FrameSizeError)
        else Ok(PushPromisePayload(Read31(p.data), p.data[4..], p.padLen))
  }

  /** The loop of h2_frame_parse_settings: fill `settings` from the payload. */
  method ParseSettingsInto(h: FrameHeader, payload: seq<byte>, settings: array<Setting>)
    returns (ret: Code, count: nat)
    requires |payload| == h.length
    modifies settings
    ensures count <= settings.Length
    ensures match ParseSettings(h, payload, settings.Length)
            case Err(code) => ret == code && code != NoError
            case Ok(items) => ret == NoError && settings[..count] == items
  {
    count := 0;
    if h.kind != SETTINGS {
      return ProtocolError, 0;
    }
    var valid := Validate(h);
    if valid != NoError {
      return valid, 0;
    }
    if HasAck(h.flags) {
      return NoError, 0;
    }
    var itemCount := h.length / 6;
    if itemCount > settings.Length {
      return InternalError, 0;
    }
    while count < itemCount
      invariant 0 <= count <= itemCount
      invariant settings[..count] + SettingsIn(payload[count * 6..]) == SettingsIn(payload)
    {
      ghost var rest := payload[count * 6..];
      assert rest[6..] == payload[(count + 1) * 6..];
      settings[count] := Setting(Read16(payload[count * 6..]), Read32(payload[count * 6 + 2..]));
      assert payload[count * 6 + 2..] == rest[2..];
      count := count + 1;
    }
    ret := NoError;
  }

  // ---------------------------------------------------------------- writing

  function HeaderBytes(length: nat, kind: byte, flags: byte, streamId: u32): seq<byte>
    requires length <= MAX_FRAME_SIZE
  {
    [length / 0x1_0000, length / 256 % 256, length % 256, kind, flags] + Be32(streamId % U31_SPAN)
  }

  predicate Encodable(f: Frame) {
    |f.payload| <= MAX_FRAME_SIZE
  }

  function Wire(f: Frame): (w: seq<byte>)
    requires Encodable(f)
    ensures |w| == HEADER_LEN + |f.payload|
  {
    HeaderBytes(|f.payload|, f.kind, f.flags, f.streamId) + f.payload
  }

  function HeaderOf(f: Frame): FrameHeader {
    FrameHeader(|f.payload|, f.kind, f.flags, f.streamId % U31_SPAN)
  }

  // Each encoder's frame, or None where the encoder writes nothing and returns 0.

  function DataFrame(streamId: u32, flags: byte, data: seq<byte>): Option<Frame> {
    if streamId == 0 || HasPadding(flags) then None else Some(Frame(DATA, flags, streamId, data))
  }

  function HeadersFrame(streamId: u32, flags: byte, block: seq<byte>): Option<Frame> {
    if streamId == 0 || HasPadding(flags) || HasPriority(flags) then None
    else Some(Frame(HEADERS, flags, streamId, block))
  }

  function PriorityBytes(p: Priority): (w: seq<byte>)
    ensures |w| == 5
  {
    Be32(p.dependency % U31_SPAN + if p.exclusive then U31_SPAN else 0) + [p.weight]
  }

  function PriorityFrame(streamId: u32, p: Priority): Option<Frame> {
    if streamId == 0 then None else Some(Frame(PRIORITY, 0, streamId, PriorityBytes(p)))
  }

  function RstStreamFrame(streamId: u32, errorCode: u32): Option<Frame> {
    if streamId == 0 then None else Some(Frame(RST_STREAM, 0, streamId, Be32(errorCode)))
  }

  function SettingsBytes(items: seq<Setting>): (w: seq<byte>)
    ensures |w| == |items| * 6
  {
    if items == [] then [] else Be16(items[0].id) + Be32(items[0].value) + SettingsBytes(items[1..])
  }

  const SETTINGS_CAP := 16

  function SettingsFrame(flags: byte, items: seq<Setting>): Option<Frame> {
    if HasAck(flags) then if items == [] then Some(Frame(SETTINGS, FLAG_ACK, 0, [])) else None
    else if |items| > SETTINGS_CAP then None
    else Some(Frame(SETTINGS, flags, 0, SettingsBytes(items)))
  }

  function PushPromiseFrame(streamId: u32, flags: byte, promised: u32, block: seq<byte>): Option<Frame> {
    if streamId == 0 || promised == 0 || HasPadding(flags) || |block| > DEFAULT_MAX_FRAME_SIZE - 4 then None
    else Some(Frame(PUSH_PROMISE, flags, streamId, Be32(promised % U31_SPAN) + block))
  }

  function PingFrame(flags: byte, opaqueBytes: seq<byte>): Option<Frame>
    requires |opaqueBytes| == 8
  {
    Some(Frame(PING, flags, 0, opaqueBytes))
  }

  function GoawayFrame(lastStreamId: u32, errorCode: u32, debug: seq<byte>): Option<Frame> {
    if |debug| + 8 > DEFAULT_MAX_FRAME_SIZE then None
    else Some(Frame(GOAWAY, 0, 0, Be32(lastStreamId % U31_SPAN) + Be32(errorCode) + debug))
  }

  function WindowUpdateFrame(streamId: u32, increment: u32): Option<Frame> {
    if increment == 0 || increment >= U31_SPAN then None
    else Some(Frame(WINDOW_UPDATE, 0, streamId, Be32(increment)))
  }

  function ContinuationFrame(streamId: u32, flags: byte, block: seq<byte>): Option<Frame> {
    if streamId == 0 then None else Some(Frame(CONTINUATION, flags, streamId, block))
  }

  /** What an encoder leaves in a buffer that held `before`, and the length it returns. */
  ghost predicate Encoded(before: seq<byte>, after: seq<byte>, n: nat, frame: Option<Frame>) {
    if frame.Some? && Encodable(frame.value) && HEADER_LEN + |frame.value.payload| <= |before| then
      var w := Wire(frame.value);
      n == |w| && after == w + before[n..]
    else n == 0 && after == before
  }

  method WriteHeader(wire: array<byte>, h: FrameHeader) returns (ret: Code)
    modifies wire
    ensures ret == (if wire.Length < HEADER_LEN || h.length > MAX_FRAME_SIZE then FrameSizeError else NoError)
    ensures wire[..] == if ret == NoError
                        then HeaderBytes(h.length, h.kind, h.flags, h.streamId) + old(wire[HEADER_LEN..])
                        else old(wire[..])
  {
    if wire.Length < HEADER_LEN || h.length > MAX_FRAME_SIZE {
      return FrameSizeError;
    }
    wire[0] := h.length / 0x1_0000;
    wire[1] := h.length / 256 % 256;
    wire[2] := h.length % 256;
    wire[3] := h.kind;
    wire[4] := h.flags;
    WriteU32(wire, 5, h.streamId % U31_SPAN);
    assert wire[..5] == HeaderBytes(h.length, h.kind, h.flags, h.streamId)[..5];
    ret := NoError;
  }

  method EncodeRaw(wire: array<byte>, f: Frame) returns (n: nat)
    modifies wire
    ensures Encoded(old(wire[..]), wire[..], n, Some(f))
  {
    if |f.payload| > MAX_FRAME_SIZE || wire.Length < HEADER_LEN + |f.payload| {
      return 0;
    }
    var _ := WriteHeader(wire, FrameHeader(|f.payload|, f.kind, f.flags, f.streamId));
    CopyInto(wire, HEADER_LEN, f.payload);
    n := HEADER_LEN + |f.payload|;
    assert old(wire[HEADER_LEN..])[|f.payload|..] == old(wire[..])[n..];
  }

  method EncodeFrame(wire: array<byte>, f: Option<Frame>) returns (n: nat)
    modifies wire
    ensures Encoded(old(wire[..]), wire[..], n, f)
  {
    match f
    case None => n := 0;
    case Some(frame) => n := EncodeRaw(wire, frame);
  }

  method WriteSetting(payload: array<byte>, off: nat, item: Setting)
    requires off + 6 <= payload.Length
    modifies payload
    ensures payload[..off + 6] == old(payload[..off]) + (Be16(item.id) + Be32(item.value))
  {
    WriteU16(payload, off, item.id);
    assert payload[..off + 2] == old(payload[..off]) + Be16(item.id);
    WriteU32(payload, off + 2, item.value);
  }

  lemma SettingsBytesAppend(items: seq<Setting>, item: Setting)
    ensures SettingsBytes(items + [item]) == SettingsBytes(items) + (Be16(item.id) + Be32(item.value))
  {
    if items == [] {
      assert items + [item] == [item];
      assert SettingsBytes([item]) == Be16(item.id) + Be32(item.value) + SettingsBytes([]);
    } else {
      SettingsBytesAppend(items[1..], item);
      assert (items + [item])[1..] == items[1..] + [item];
    }
  }

  /** The loop of h2_frame_encode_settings: lay the settings out in a local payload buffer. */
  method EncodeSettings(wire: array<byte>, flags: byte, items: seq<Setting>) returns (n: nat)
    modifies wire
    ensures Encoded(old(wire[..]), wire[..], n, SettingsFrame(flags, items))
  {
    if HasAck(flags) {
      n := EncodeFrame(wire, SettingsFrame(flags, items));
      return;
    }
    if |items| > SETTINGS_CAP {
      return 0;
    }
    var payload := new byte[SETTINGS_CAP * 6](_ => 0);
    var k := 0;
    while k < |items|
      invariant 0 <= k <= |items|
      invariant payload[..k * 6] == SettingsBytes(items[..k])
      invariant wire[..] == old(wire[..])
    {
      WriteSetting(payload, k * 6, items[k]);
      SettingsBytesAppend(items[..k], items[k]);
      assert items[..k] + [items[k]] == items[..k + 1];
      k := k + 1;
    }
    assert items[..k] == items;
    n := EncodeRaw(wire, Frame(SETTINGS, flags, 0, payload[..k * 6]));
  }
}
