/** The connection engine of connection.c as functions on its state: what each handler does to the
    windows, the stream table, the header block under assembly and the output, on every path. */
module ConnectionSpec {
  import opened Bytes
  import opened FrameCodec
  import opened HpackStatic
  import opened HpackSpec
  import opened Streams

  const INPUT_CAP := 131072
  const OUTPUT_CAP := 131072
  const MAX_STREAMS := 128
  const BLOCK_CAP := 65536
  const SETTINGS_MAX := 32
  const PREFACE_LEN := 24
  const PREFACE: seq<byte> := Ascii("PRI * HTTP/2.0\r\n\r\nSM\r\n\r\n")
  const SLASH: seq<byte> := [47]
  const NEWLINE: seq<byte> := [10]

  const ENABLE_PUSH: u16 := 2
  const INITIAL_WINDOW_SIZE: u16 := 4
  const MAX_FRAME_SIZE_ID: u16 := 5

  /** History: frames taken up from the input, streams opened with the path they ask for, frames put in
      the output. */
  datatype Event =
    | In(header: FrameHeader, payload: seq<byte>)
    | Opened(id: u32, path: seq<byte>)
    | Out(frame: Frame)

  /** The header block under assembly. */
  datatype Block = Block(open: bool, streamId: u32, flags: byte, bytes: seq<byte>)

  /** h2_connection without its input side. `pending` is output[output_sent..output_len]; `drained` and
      `log` are history: the octets already consumed, and the events so far. */
  datatype Core = Core(
    goawaySent: bool, goawayError: u32, lastStreamId: u32, maxFrameSize: u32,
    initialWindow: int, sendWindow: int, recvWindow: int, responsesSent: u32,
    block: Block, slots: seq<Slot>, pending: seq<byte>, drained: seq<byte>, log: seq<Event>)

  datatype Step = Step(core: Core, ret: Code)

  function Note(c: Core, e: Event): Core {
    c.(log := c.log + [e])
  }

  function SetSlot(c: Core, k: nat, s: Slot): (r: Core)
    requires k < |c.slots|
    ensures |r.slots| == |c.slots|
  {
    c.(slots := c.slots[k := s])
  }

  // ------------------------------------------------------------------ output

  /** Encode a frame and queue its octets; nothing changes when it cannot be encoded or does not fit. */
  function Emit(c: Core, frame: Option<Frame>): (r: Step)
    ensures r.core.slots == c.slots
  {
    if frame.None? || HEADER_LEN + |frame.value.payload| > OUTPUT_CAP - |c.pending| then Step(c, InternalError)
    else Step(Note(c.(pending := c.pending + Wire(frame.value)), Out(frame.value)), NoError)
  }

  function QueueGoaway(c: Core, errorCode: u32): (r: Step)
    ensures r.core.slots == c.slots
  {
    if c.goawaySent then Step(c, NoError)
    else Emit(c.(goawaySent := true, goawayError := errorCode), GoawayFrame(c.lastStreamId, errorCode, []))
  }

  function QueueSettings(c: Core): Step {
    Emit(c, SettingsFrame(0, [Setting(ENABLE_PUSH, 0)]))
  }

  // ------------------------------------------------------------ stream table

  /** The first slot from `k` on that holds `id`. */
  function FindFrom(slots: seq<Slot>, id: u32, k: nat): (at: Option<nat>)
    requires k <= |slots|
    ensures at.Some? ==> k <= at.value < |slots| && slots[at.value].id == id
    decreases |slots| - k
  {
    if k == |slots| then None else if slots[k].id == id then Some(k) else FindFrom(slots, id, k + 1)
  }

  function Find(slots: seq<Slot>, id: u32): (at: Option<nat>)
    ensures at.Some? ==> at.value < |slots| && slots[at.value].id == id
  {
    FindFrom(slots, id, 0)
  }

  predicate Reusable(s: Slot) {
    s.id == 0 || s.state == Closed
  }

  predicate Live(s: Slot) {
    !Reusable(s)
  }

  function FreeFrom(slots: seq<Slot>, k: nat): (at: Option<nat>)
    requires k <= |slots|
    ensures at.Some? ==> k <= at.value < |slots| && Reusable(slots[at.value])
    decreases |slots| - k
  {
    if k == |slots| then None else if Reusable(slots[k]) then Some(k) else FreeFrom(slots, k + 1)
  }

  /** The slot for a new stream: the one it already has, else the first reusable one, reinitialised. */
  datatype Got = Got(core: Core, at: Option<nat>)

  function GetStream(c: Core, id: u32): (g: Got)
    ensures |g.core.slots| == |c.slots|
    ensures g.at.Some? ==> g.at.value < |c.slots|
  {
    var found := Find(c.slots, id);
    if found.Some? then Got(c, found)
    else
      var free := FreeFrom(c.slots, 0);
      if free.None? then Got(c, None) else Got(SetSlot(c, free.value, Init(id, c.initialWindow)), free)
  }

  // --------------------------------------------------------- receive windows

  function RefreshConn(c: Core): (r: Step)
    ensures r.core.slots == c.slots
  {
    if c.recvWindow > DEFAULT_WINDOW / 2 then Step(c, NoError)
    else
      var increment := DEFAULT_WINDOW - c.recvWindow;
      Emit(c.(recvWindow := c.recvWindow + increment), WindowUpdateFrame(0, increment % U32_SPAN))
  }

  function RefreshStream(c: Core, k: nat): (r: Step)
    requires k < |c.slots|
    ensures |r.core.slots| == |c.slots|
  {
    var s := c.slots[k];
    if s.recvWindow > DEFAULT_WINDOW / 2 then Step(c, NoError)
    else
      var increment := DEFAULT_WINDOW - s.recvWindow;
      Emit(SetSlot(c, k, s.(recvWindow := s.recvWindow + increment)), WindowUpdateFrame(s.id, increment % U32_SPAN))
  }

  function RefreshWindows(c: Core, at: Option<nat>): (r: Step)
    requires at.Some? ==> at.value < |c.slots|
    ensures |r.core.slots| == |c.slots|
  {
    var r := RefreshConn(c);
    if r.ret != NoError || at.None? then r else RefreshStream(r.core, at.value)
  }

  // ---------------------------------------------------------------- settings

  function AdjustOne(c: Core, delta: int, k: nat): (r: Step)
    requires k < |c.slots|
    ensures |r.core.slots| == |c.slots|
  {
    var s := c.slots[k];
    if Reusable(s) then Step(c, NoError)
    else if s.sendWindow + delta < INT32_MIN || s.sendWindow + delta > INT32_MAX then Step(c, FlowControlError)
    else Step(SetSlot(c, k, s.(sendWindow := s.sendWindow + delta)), NoError)
  }

  /** Shift every live stream's send window, stopping at the first that leaves 32 bits. */
  function AdjustFrom(c: Core, delta: int, k: nat): (r: Step)
    requires k <= |c.slots|
    ensures |r.core.slots| == |c.slots|
    decreases |c.slots| - k
  {
    if k == |c.slots| then Step(c, NoError)
    else
      var r := AdjustOne(c, delta, k);
      if r.ret != NoError then r else AdjustFrom(r.core, delta, k + 1)
  }

  function ApplyOne(c: Core, item: Setting): (r: Step)
    ensures |r.core.slots| == |c.slots|
  {
    if item.id == ENABLE_PUSH then Step(c, if item.value > 1 then ProtocolError else NoError)
    else if item.id == INITIAL_WINDOW_SIZE then
      if item.value > INT32_MAX then Step(c, FlowControlError)
      else
        var r := AdjustFrom(c, item.value - c.initialWindow, 0);
        if r.ret != NoError then r else Step(r.core.(initialWindow := item.value), NoError)
    else if item.id == MAX_FRAME_SIZE_ID then
      if item.value < DEFAULT_MAX_FRAME_SIZE || item.value > MAX_FRAME_SIZE then Step(c, ProtocolError)
      else Step(c.(maxFrameSize := item.value), NoError)
    else Step(c, NoError)
  }

  function ApplyAll(c: Core, items: seq<Setting>): (r: Step)
    ensures |r.core.slots| == |c.slots|
    decreases |items|
  {
    if items == [] then Step(c, NoError)
    else
      var r := ApplyOne(c, items[0]);
      if r.ret != NoError then r else ApplyAll(r.core, items[1..])
  }

  function ApplySettings(c: Core, ack: bool, parsed: Result<seq<Setting>>): (r: Step)
    ensures |r.core.slots| == |c.slots|
  {
    if parsed.Err? then Step(c, parsed.code)
    else if ack then Step(c, NoError)
    else
      var r := ApplyAll(c, parsed.value);
      if r.ret != NoError then r else Emit(r.core, SettingsFrame(FLAG_ACK, []))
  }

  // --------------------------------------------------------------- responses

  /** The decimal digits printed by "%zu". */
  function Decimal(n: nat): (text: seq<byte>)
    ensures text != []
  {
    if n < 10 then [48 + n] else Decimal(n / 10) + [48 + n % 10]
  }

  const CONTENT_TYPE: seq<byte> := Ascii("content-type")
  const TEXT_PLAIN: seq<byte> := Ascii("text/plain")
  const CONTENT_LENGTH: seq<byte> := Ascii("content-length")
  const SERVER: seq<byte> := Ascii("server")
  const SERVER_NAME: seq<byte> := Ascii("c11-h2")
  const STATUS_200: u32 := 8
  const BODY_CAP := 320

  /** The response header block for a body of `n` octets. */
  function ResponseBlock(n: nat): seq<byte>
    requires n < BODY_CAP
  {
    DecimalFits(n);
    IndexedCode(STATUS_200) + LiteralCode(CONTENT_TYPE, TEXT_PLAIN)
    + LiteralCode(CONTENT_LENGTH, Decimal(n)) + LiteralCode(SERVER, SERVER_NAME)
  }

  lemma DecimalFits(n: nat)
    requires n < 1000
    ensures |Decimal(n)| <= 3
  {
    assert n / 10 < 10 ==> |Decimal(n / 10)| == 1;
    assert n / 10 / 10 < 10;
    assert |Decimal(n / 10)| <= 2;
  }

  function PathOrSlash(path: seq<byte>): seq<byte> {
    if path == [] then SLASH else path
  }

  /** What the response for a slot carries: its path and a newline. */
  function Body(s: Slot): seq<byte> {
    PathOrSlash(s.path) + NEWLINE
  }

  /** DATA has been queued for slot `k`: charge both windows and move the stream on. */
  function DataSent(c: Core, k: nat, length: nat): (r: Step)
    requires k < |c.slots|
    ensures |r.core.slots| == |c.slots|
  {
    var s := c.slots[k];
    var moved := SendEndStream(s.(sendWindow := s.sendWindow - length, bodyDeferred := false, responseSent := true));
    Step(SetSlot(c.(sendWindow := c.sendWindow - length, responsesSent := (c.responsesSent + 1) % U32_SPAN), k, moved.slot),
         moved.ret)
  }

  predicate Blocked(c: Core, s: Slot, length: nat) {
    c.sendWindow < length || s.sendWindow < length
  }

  function QueueDeferredData(c: Core, k: nat, body: seq<byte>): (r: Step)
    requires k < |c.slots|
    ensures |r.core.slots| == |c.slots|
  {
    var s := c.slots[k];
    if Blocked(c, s, |body|) then Step(SetSlot(c, k, s.(bodyDeferred := true)), NoError)
    else
      var e := Emit(c, DataFrame(s.id, FLAG_END_STREAM, body));
      if e.ret != NoError then Step(e.core, InternalError) else DataSent(e.core, k, |body|)
  }

  function QueueHeaders(c: Core, k: nat, length: nat): (r: Step)
    requires k < |c.slots| && length < BODY_CAP
    ensures |r.core.slots| == |c.slots|
  {
    var s := c.slots[k];
    if s.headersSent then Step(c, NoError)
    else
      var e := Emit(c, HeadersFrame(s.id, FLAG_END_HEADERS, ResponseBlock(length)));
      if e.ret != NoError then Step(e.core, InternalError)
      else Step(SetSlot(e.core, k, s.(headersSent := true)), NoError)
  }

  function QueueResponse(c: Core, k: nat): (r: Step)
    requires k < |c.slots|
    ensures |r.core.slots| == |c.slots|
  {
    var s := c.slots[k];
    if s.responseSent then Step(c, NoError)
    else
      var named := SetSlot(c, k, s.(path := PathOrSlash(s.path)));
      if |Body(s)| >= BODY_CAP then Step(named, InternalError)
      else
        var r := QueueHeaders(named, k, |Body(s)|);
        if r.ret != NoError then r else QueueDeferredData(r.core, k, Body(s))
  }

  predicate Waiting(s: Slot) {
    Live(s) && s.bodyDeferred
  }

  function FlushOne(c: Core, k: nat): (r: Step)
    requires k < |c.slots|
    ensures |r.core.slots| == |c.slots|
  {
    if Waiting(c.slots[k]) then QueueResponse(c, k) else Step(c, NoError)
  }

  /** The pass over the table that retries deferred responses. */
  function FlushFrom(c: Core, k: nat): (r: Step)
    requires k <= |c.slots|
    ensures |r.core.slots| == |c.slots|
    decreases |c.slots| - k
  {
    if k == |c.slots| then Step(c, NoError)
    else
      var r := FlushOne(c, k);
      if r.ret != NoError then r else FlushFrom(r.core, k + 1)
  }

  // ------------------------------------------------------------ header blocks

  /** The stream has its slot: record the path found in the block and answer. */
  function OpenStream(c: Core, k: nat, endStream: bool, scan: PathScan): (r: Step)
    requires k < |c.slots|
    ensures |r.core.slots| == |c.slots|
  {
    var s := c.slots[k].(path := scan.path);
    if scan.code != NoError then Step(SetSlot(c, k, s), scan.code)
    else
      var moved := ReceiveHeaders(s, endStream);
      var entered := SetSlot(c, k, moved.slot);
      if moved.ret != NoError then Step(entered, moved.ret) else QueueResponse(entered, k)
  }

  function FinishHeaders(c: Core, streamId: u32, endStream: bool, scan: PathScan): (r: Step)
    ensures |r.core.slots| == |c.slots|
  {
    if streamId % 2 == 0 || streamId <= c.lastStreamId then Step(c, ProtocolError)
    else
      var g := GetStream(c, streamId);
      if g.at.None? then Step(g.core, RefusedStream)
      else OpenStream(Note(g.core.(lastStreamId := streamId), Opened(streamId, scan.path)), g.at.value, endStream, scan)
  }

  function AppendBlock(c: Core, data: seq<byte>): Step {
    if |data| > BLOCK_CAP - |c.block.bytes| then Step(c, CompressionError)
    else Step(c.(block := c.block.(bytes := c.block.bytes + data)), NoError)
  }

  function ProcessHeaders(c: Core, h: FrameHeader, parsed: Result<HeadersPayload>): (r: Step)
    ensures |r.core.slots| == |c.slots|
  {
    if parsed.Err? then Step(c, parsed.code)
    else if HasEndHeaders(h.flags) then
      FinishHeaders(c, h.streamId, HasEndStream(h.flags), ExtractPath(parsed.value.block, VALUE_CAP))
    else if c.block.open then Step(c, ProtocolError)
    else AppendBlock(c.(block := Block(true, h.streamId, h.flags, [])), parsed.value.block)
  }

  function ProcessContinuation(c: Core, h: FrameHeader, parsed: Result<seq<byte>>): (r: Step)
    ensures |r.core.slots| == |c.slots|
  {
    if !c.block.open || h.streamId != c.block.streamId then Step(c, ProtocolError)
    else if parsed.Err? then Step(c, parsed.code)
    else
      var r := AppendBlock(c, parsed.value);
      if r.ret != NoError || !HasEndHeaders(h.flags) then r
      else
        var b := r.core.block;
        FinishHeaders(r.core.(block := b.(open := false)), b.streamId, HasEndStream(b.flags), ExtractPath(b.bytes, VALUE_CAP))
  }

  // ------------------------------------------------------------ other frames

  /** DATA for a stream that no longer takes any: count it, then have the stream reset. */
  function DataOnClosed(c: Core, length: nat): (r: Step)
    ensures r.core.slots == c.slots
  {
    if AsSize(c.recvWindow) < length then Step(c, FlowControlError)
    else Step(RefreshConn(c.(recvWindow := c.recvWindow - length)).core, StreamClosed)
  }

  /** Both windows are charged: top them up, but a stream that DATA has just closed gets no WINDOW_UPDATE. */
  function AfterData(c: Core, k: nat, ret: Code): (r: Step)
    requires k < |c.slots|
    ensures |r.core.slots| == |c.slots|
  {
    if ret != NoError then Step(c, ret)
    else RefreshWindows(c, if c.slots[k].state == Closed then None else Some(k))
  }

  function DataOnOpen(c: Core, k: nat, length: nat, endStream: bool): (r: Step)
    requires k < |c.slots|
    ensures |r.core.slots| == |c.slots|
  {
    if AsSize(c.recvWindow) < length then Step(c, FlowControlError)
    else
      var taken := ReceiveData(c.slots[k], length, endStream);
      AfterData(SetSlot(c.(recvWindow := c.recvWindow - length), k, taken.slot), k, taken.ret)
  }

  lemma DataOnOpenCharges(c: Core, k: nat, length: nat, endStream: bool, charged: Core, ret: Code)
    requires k < |c.slots| && AsSize(c.recvWindow) >= length
    requires var taken := ReceiveData(c.slots[k], length, endStream);
             charged == SetSlot(c.(recvWindow := c.recvWindow - length), k, taken.slot) && ret == taken.ret
    ensures DataOnOpen(c, k, length, endStream) == AfterData(charged, k, ret)
  {
  }

  function ProcessData(c: Core, h: FrameHeader, parsed: Result<DataPayload>): (r: Step)
    ensures |r.core.slots| == |c.slots|
  {
    if parsed.Err? then Step(c, parsed.code)
    else
      var at := Find(c.slots, h.streamId);
      if at.None? then Step(c, ProtocolError)
      else if c.slots[at.value].state != Open && c.slots[at.value].state != HalfClosedLocal then DataOnClosed(c, h.length)
      else DataOnOpen(c, at.value, h.length, HasEndStream(h.flags))
  }

  function CreditStream(c: Core, k: nat, increment: u32): (r: Step)
    requires k < |c.slots|
    ensures |r.core.slots| == |c.slots|
  {
    var credited := AddSendWindow(c.slots[k], increment);
    var c1 := SetSlot(c, k, credited.slot);
    if credited.ret != NoError then Step(c1, credited.ret) else FlushFrom(c1, 0)
  }

  function ProcessWindowUpdate(c: Core, streamId: u32, parsed: Result<u32>): (r: Step)
    ensures |r.core.slots| == |c.slots|
  {
    if parsed.Err? then Step(c, parsed.code)
    else if streamId == 0 then
      if c.sendWindow + parsed.value > INT32_MAX then Step(c, FlowControlError)
      else FlushFrom(c.(sendWindow := c.sendWindow + parsed.value), 0)
    else
      var at := Find(c.slots, streamId);
      if at.None? then Step(c, NoError) else CreditStream(c, at.value, parsed.value)
  }

  function ProcessRstStream(c: Core, streamId: u32, parsed: Result<u32>): (r: Step)
    ensures |r.core.slots| == |c.slots|
  {
    if parsed.Err? then Step(c, parsed.code)
    else
      var at := Find(c.slots, streamId);
      if at.Some? then Step(SetSlot(c, at.value, Close(c.slots[at.value])), NoError)
      else if streamId % 2 == 0 || streamId > c.lastStreamId then Step(c, ProtocolError)
      else Step(c, NoError)
  }

  function ProcessPing(c: Core, ack: bool, parsed: Result<seq<byte>>): (r: Step)
    requires parsed.Ok? ==> |parsed.value| == 8
    ensures r.core.slots == c.slots
  {
    if parsed.Err? then Step(c, parsed.code)
    else if ack then Step(c, NoError)
    else Emit(c, PingFrame(FLAG_ACK, parsed.value))
  }

  function ProcessFrame(c: Core, h: FrameHeader, payload: seq<byte>): (r: Step)
    requires |payload| == h.length
    ensures |r.core.slots| == |c.slots|
  {
    if h.length > c.maxFrameSize then Step(c, FrameSizeError)
    else if c.block.open && (h.kind != CONTINUATION || h.streamId != c.block.streamId) then Step(c, ProtocolError)
    else if h.kind == DATA then ProcessData(c, h, ParseData(h, payload))
    else if h.kind == HEADERS then ProcessHeaders(c, h, ParseHeaders(h, payload))
    else if h.kind == PRIORITY then
      var parsed := ParsePriority(h, payload);
      Step(c, if parsed.Err? then parsed.code else NoError)
    else if h.kind == RST_STREAM then ProcessRstStream(c, h.streamId, ParseRstStream(h, payload))
    else if h.kind == SETTINGS then ApplySettings(c, HasAck(h.flags), ParseSettings(h, payload, SETTINGS_MAX))
    else if h.kind == PUSH_PROMISE then Step(c, ProtocolError)
    else if h.kind == PING then ProcessPing(c, HasAck(h.flags), ParsePing(h, payload))
    else if h.kind == GOAWAY then Step(c, Validate(h))
    else if h.kind == WINDOW_UPDATE then ProcessWindowUpdate(c, h.streamId, ParseWindowUpdate(h, payload))
    else if h.kind == CONTINUATION then ProcessContinuation(c, h, ParseContinuation(h, payload))
    else Step(c, NoError)
  }

  // ---------------------------------------------------------- error handling

  predicate IsStreamError(code: Code) {
    code == RefusedStream || code == StreamClosed
  }

  function ResetStream(c: Core, streamId: u32, errorCode: u32): (r: Step)
    ensures |r.core.slots| == |c.slots|
  {
    var at := Find(c.slots, streamId);
    var e := Emit(c, RstStreamFrame(streamId, errorCode));
    if e.ret != NoError || at.None? then e
    else Step(SetSlot(e.core, at.value, Close(c.slots[at.value])), NoError)
  }

  /** A stream error resets the stream and goes on; any other error says GOAWAY and stops. */
  function Recover(r: Step, streamId: u32): (s: Step)
    ensures |s.core.slots| == |r.core.slots|
  {
    if r.ret == NoError then r
    else if IsStreamError(r.ret) && streamId != 0 then ResetStream(r.core, streamId, r.ret.Number())
    else Step(QueueGoaway(r.core, r.ret.Number()).core, r.ret)
  }

  function HandleFrame(c: Core, h: FrameHeader, payload: seq<byte>): (r: Step)
    requires |payload| == h.length
    ensures |r.core.slots| == |c.slots|
  {
    Recover(ProcessFrame(Note(c, In(h, payload)), h, payload), h.streamId)
  }

  // ------------------------------------------------------------------- input

  /** What the frame loop leaves: the state, the input it did not take, and its result. */
  datatype Drained = Drained(core: Core, rest: seq<byte>, ret: Code)

  /** A whole frame stands at the head of the input. */
  predicate FrameReady(input: seq<byte>) {
    |input| >= HEADER_LEN && HEADER_LEN + ParseHeader(input).value.length <= |input|
  }

  function FrameEnd(input: seq<byte>): (n: nat)
    requires FrameReady(input)
    ensures HEADER_LEN <= n <= |input|
  {
    HEADER_LEN + ParseHeader(input).value.length
  }

  function HandleHead(c: Core, input: seq<byte>): (r: Step)
    requires FrameReady(input)
    ensures |r.core.slots| == |c.slots|
  {
    HandleFrame(c, ParseHeader(input).value, input[HEADER_LEN..FrameEnd(input)])
  }

  /** The frame loop: whole frames are handled and removed; the one that fails stays. */
  function Drain(c: Core, input: seq<byte>): (d: Drained)
    ensures |d.core.slots| == |c.slots|
    ensures |d.rest| <= |input|
    decreases |input|
  {
    if !FrameReady(input) then Drained(c, input, NoError)
    else
      var r := HandleHead(c, input);
      if r.ret != NoError then Drained(r.core, input, r.ret) else Drain(r.core, input[FrameEnd(input)..])
  }

  datatype Conn = Conn(core: Core, prefaceSeen: bool, settingsSent: bool, input: seq<byte>)
  datatype Fed = Fed(conn: Conn, ret: Code)

  function EmptyTable(): (slots: seq<Slot>)
    ensures |slots| == MAX_STREAMS
  {
    seq(MAX_STREAMS, i requires 0 <= i => BLANK)
  }

  /** h2_connection_init. */
  function InitialCore(): Core {
    Core(false, 0, 0, DEFAULT_MAX_FRAME_SIZE, DEFAULT_WINDOW, DEFAULT_WINDOW, DEFAULT_WINDOW, 0,
         Block(false, 0, 0, []), EmptyTable(), [], [], [])
  }

  function InitialConn(): Conn {
    Conn(InitialCore(), false, false, [])
  }

  function Pump(conn: Conn): Fed {
    var d := Drain(conn.core, conn.input);
    Fed(conn.(core := d.core, input := d.rest), d.ret)
  }

  /** The preface has arrived: answer with SETTINGS, once. */
  function Greet(conn: Conn): Fed {
    if conn.settingsSent then Pump(conn)
    else
      var r := QueueSettings(conn.core);
      if r.ret != NoError then Fed(conn.(core := r.core), r.ret)
      else Pump(conn.(core := r.core, settingsSent := true))
  }

  /** The input with the new octets appended, looked at for the preface and then for frames. */
  function Advance(conn: Conn): Fed {
    if conn.prefaceSeen then Pump(conn)
    else if |conn.input| < PREFACE_LEN then Fed(conn, NoError)
    else if conn.input[..PREFACE_LEN] != PREFACE then
      Fed(conn.(core := QueueGoaway(conn.core, ProtocolError.Number()).core), ProtocolError)
    else Greet(conn.(prefaceSeen := true, input := conn.input[PREFACE_LEN..]))
  }

  function Feed(conn: Conn, data: seq<byte>): Fed {
    if |data| > INPUT_CAP - |conn.input| then Fed(conn, InternalError)
    else Advance(conn.(input := conn.input + data))
  }

  /** The caller has sent `n` octets of the output. */
  function Consume(c: Core, n: nat): Core {
    var taken := if n > |c.pending| then |c.pending| else n;
    c.(pending := c.pending[taken..], drained := c.drained + c.pending[..taken])
  }

  // -------------------------------------------------------------------- runs

  datatype Op = Receive(data: seq<byte>) | Sent(n: nat)

  function Apply(conn: Conn, op: Op): Fed {
    match op
    case Receive(data) => Feed(conn, data)
    case Sent(n) => Fed(conn.(core := Consume(conn.core, n)), NoError)
  }

  /** The state after a run from a fresh connection, and whether every feed of it succeeded. */
  datatype Outcome = Outcome(conn: Conn, allOk: bool)

  function Run(ops: seq<Op>): Outcome {
    if ops == [] then Outcome(InitialConn(), true)
    else
      var before := Run(ops[..|ops| - 1]);
      var after := Apply(before.conn, ops[|ops| - 1]);
      Outcome(after.conn, before.allOk && after.ret == NoError)
  }
}
