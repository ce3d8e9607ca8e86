/** connection.c: the connection object, whose handlers update its fields, its stream table and its buffers
    in place. `core` is the state of ConnectionSpec that the fields represent. */
module Connections {
  import opened Bytes
  import opened FrameCodec
  import opened HpackStatic
  import Spec = HpackSpec
  import Content
  import Hpack
  import opened Streams
  import opened ConnectionSpec

  const WIRE_CAP := 1033
  const RESPONSE_BLOCK_CAP := 512

  /** The table's slots are distinct objects with these values. */
  ghost predicate Holds(streams: seq<Stream>, slots: seq<Slot>)
    reads streams
  {
    && |streams| == |slots| == MAX_STREAMS
    && (forall i, j :: 0 <= i < j < MAX_STREAMS ==> streams[i] != streams[j])
    && (forall i :: 0 <= i < MAX_STREAMS ==> streams[i].Val() == slots[i])
  }

  /** The buffer holds `data` from `lo` to `hi`. */
  ghost predicate Window(buffer: array<byte>, lo: nat, hi: nat, data: seq<byte>)
    reads buffer
  {
    lo <= hi <= buffer.Length && buffer[lo..hi] == data
  }

  /** Add one field to the block; 0 when it does not fit. */
  method AddField(block: array<byte>, at: nat, name: seq<byte>, value: seq<byte>) returns (n: nat)
    requires at <= block.Length && |name| < NAME_CAP && |value| < VALUE_CAP
    modifies block
    ensures var code := Spec.LiteralCode(name, value);
            if at + |code| <= block.Length then n == at + |code| && block[..n] == old(block[..at]) + code
            else n == 0
  {
    n := Hpack.EncodeLiteralNewName(block, at, name, value);
    if n > 0 {
      n := at + n;
    }
  }

  method AddFields(block: array<byte>, at: nat, a: Field, b: Field, c: Field) returns (n: nat)
    requires 0 < at <= block.Length && Short(a) && Short(b) && Short(c)
    modifies block
    ensures var more := Coding(a) + Coding(b) + Coding(c);
            if at + |more| <= block.Length then n == at + |more| && block[..n] == old(block[..at]) + more
            else n == 0
  {
    n := AddField(block, at, a.name, a.value);
    if n == 0 {
      return;
    }
    n := AddField(block, n, b.name, b.value);
    if n == 0 {
      return;
    }
    Assoc(old(block[..at]), Coding(a), Coding(b));
    n := AddField(block, n, c.name, c.value);
    Assoc(old(block[..at]), Coding(a) + Coding(b), Coding(c));
  }

  predicate Short(field: Field) {
    |field.name| < NAME_CAP && |field.value| < VALUE_CAP
  }

  function Coding(field: Field): (code: seq<byte>)
    requires Short(field)
    ensures code != []
  {
    Spec.LiteralCode(field.name, field.value)
  }

  /** Lay the four response fields out in a buffer; 0 when they do not fit. */
  method BuildResponseBlock(block: array<byte>, length: nat) returns (n: nat)
    requires length < BODY_CAP
    modifies block
    ensures if |ResponseBlock(length)| <= block.Length
            then n == |ResponseBlock(length)| && block[..n] == ResponseBlock(length)
            else n == 0
  {
    Content.Status200();
    DecimalFits(length);
    var a, b, c := Field(CONTENT_TYPE, TEXT_PLAIN), Field(CONTENT_LENGTH, Decimal(length)), Field(SERVER, SERVER_NAME);
    ghost var head, rest := Spec.IndexedCode(STATUS_200), Coding(a) + Coding(b) + Coding(c);
    BlockIs(length, a, b, c);
    n := Hpack.EncodeIndexed(block, 0, STATUS_200);
    if n > 0 {
      assert block[..n] == head;
      n := AddFields(block, n, a, b, c);
    }
  }

  lemma BlockIs(length: nat, a: Field, b: Field, c: Field)
    requires length < BODY_CAP && Short(b)
    requires a == Field(CONTENT_TYPE, TEXT_PLAIN) && b == Field(CONTENT_LENGTH, Decimal(length))
    requires c == Field(SERVER, SERVER_NAME)
    ensures Short(a) && Short(c)
    ensures ResponseBlock(length) == Spec.IndexedCode(STATUS_200) + (Coding(a) + Coding(b) + Coding(c))
    ensures Spec.IndexedCode(STATUS_200) != []
  {
    var head := Spec.IndexedCode(STATUS_200);
    Assoc(head, Coding(a), Coding(b));
    Assoc(head, Coding(a) + Coding(b), Coding(c));
  }

  lemma ResponseBlockFits(length: nat)
    requires length < BODY_CAP
    ensures 0 < |ResponseBlock(length)| <= RESPONSE_BLOCK_CAP
  {
    DecimalFits(length);
  }

  /** The stream's part of having sent its DATA. */
  method ChargeSlot(stream: Stream, length: nat) returns (ret: Code)
    modifies stream
    ensures var s := old(stream.Val());
            SlotStep(stream.Val(), ret)
            == SendEndStream(s.(sendWindow := s.sendWindow - length, bodyDeferred := false, responseSent := true))
  {
    stream.sendWindow := stream.sendWindow - length;
    stream.bodyDeferred := false;
    stream.responseSent := true;
    ret := stream.OnEndStreamSent();
  }

  lemma HeadIs(c: Core, unread: seq<byte>, h: FrameHeader, payload: seq<byte>)
    requires FrameReady(unread) && ParseHeader(unread) == Ok(h) && payload == unread[HEADER_LEN..HEADER_LEN + h.length]
    ensures HandleHead(c, unread) == HandleFrame(c, h, payload)
  {
  }

  lemma DrainTurn(c: Core, unread: seq<byte>, r: Step)
    requires FrameReady(unread) && r == HandleHead(c, unread)
    ensures Drain(c, unread)
            == if r.ret != NoError then Drained(r.core, unread, r.ret) else Drain(r.core, unread[FrameEnd(unread)..])
  {
  }

  lemma DrainRests(c: Core, unread: seq<byte>)
    requires !FrameReady(unread)
    ensures Drain(c, unread) == Drained(c, unread, NoError)
  {
  }

  /** What an accepted preface leaves, before any frame is looked at. */
  ghost function Welcome(conn: Conn): Fed
    requires |conn.input| >= PREFACE_LEN
  {
    var greeted := conn.(prefaceSeen := true, input := conn.input[PREFACE_LEN..]);
    if conn.settingsSent then Fed(greeted, NoError)
    else
      var r := QueueSettings(conn.core);
      Fed(greeted.(core := r.core, settingsSent := r.ret == NoError), r.ret)
  }

  lemma PrefaceOrNot(conn: Conn)
    requires !conn.prefaceSeen && |conn.input| >= PREFACE_LEN
    ensures Advance(conn)
            == if conn.input[..PREFACE_LEN] != PREFACE
               then Fed(conn.(core := QueueGoaway(conn.core, ProtocolError.Number()).core), ProtocolError)
               else if Welcome(conn).ret != NoError then Welcome(conn) else Pump(Welcome(conn).conn)
  {
  }

  lemma FinishUnfolds(c: Core, streamId: u32, endStream: bool, scan: Spec.PathScan, d: Core, at: Option<nat>)
    requires streamId % 2 == 1 && streamId > c.lastStreamId && Got(d, at) == GetStream(c, streamId)
    ensures FinishHeaders(c, streamId, endStream, scan)
            == if at.None? then Step(d, RefusedStream)
               else OpenStream(Note(d.(lastStreamId := streamId), Opened(streamId, scan.path)), at.value, endStream, scan)
  {
  }

  class Connection {
    var prefaceSeen: bool
    var settingsSent: bool
    var goawaySent: bool
    var goawayError: u32
    var lastStreamId: u32
    var maxFrameSize: u32
    var initialWindow: int
    var sendWindow: int
    var recvWindow: int
    var responsesSent: u32
    var blockOpen: bool
    var blockStreamId: u32
    var blockFlags: byte
    const headerBlock: array<byte>
    var blockLen: nat
    const streams: seq<Stream>
    const input: array<byte>
    var inputLen: nat
    const output: array<byte>
    var outputLen: nat
    var outputSent: nat
    ghost var core: Core

    ghost predicate FieldsMatch()
      reads this
    {
      && core.goawaySent == goawaySent && core.goawayError == goawayError
      && core.lastStreamId == lastStreamId && core.maxFrameSize == maxFrameSize
      && core.initialWindow == initialWindow && core.sendWindow == sendWindow && core.recvWindow == recvWindow
      && core.responsesSent == responsesSent
      && core.block.open == blockOpen && core.block.streamId == blockStreamId && core.block.flags == blockFlags
    }

    ghost predicate Valid()
      reads this, streams, headerBlock, output
    {
      && FieldsMatch()
      && Holds(streams, core.slots)
      && headerBlock.Length == BLOCK_CAP && Window(headerBlock, 0, blockLen, core.block.bytes)
      && output.Length == OUTPUT_CAP && Window(output, outputSent, outputLen, core.pending)
      && input.Length == INPUT_CAP && inputLen <= INPUT_CAP
      && output != headerBlock && output != input && headerBlock != input
    }

    /** The whole connection, input side included. */
    ghost function Val(): Conn
      requires Valid()
      reads this, streams, headerBlock, output, input
    {
      Conn(core, prefaceSeen, settingsSent, input[..inputLen])
    }

    twostate predicate InputKept()
      reads this
    {
      prefaceSeen == old(prefaceSeen) && settingsSent == old(settingsSent) && inputLen == old(inputLen)
    }

    constructor ()
      ensures Valid() && Val() == InitialConn()
      ensures fresh(streams) && fresh(headerBlock) && fresh(input) && fresh(output)
    {
      var table: seq<Stream> := [];
      while |table| < MAX_STREAMS
        invariant |table| <= MAX_STREAMS && fresh(table)
        invariant forall i, j :: 0 <= i < j < |table| ==> table[i] != table[j]
        invariant forall i :: 0 <= i < |table| ==> table[i].Val() == BLANK
      {
        var slot := new Stream();
        table := table + [slot];
      }
      streams := table;
      headerBlock := new byte[BLOCK_CAP](_ => 0);
      input := new byte[INPUT_CAP](_ => 0);
      output := new byte[OUTPUT_CAP](_ => 0);
      prefaceSeen, settingsSent, goawaySent, goawayError, lastStreamId := false, false, false, 0, 0;
      maxFrameSize := DEFAULT_MAX_FRAME_SIZE;
      initialWindow, sendWindow, recvWindow := DEFAULT_WINDOW, DEFAULT_WINDOW, DEFAULT_WINDOW;
      responsesSent, blockOpen, blockStreamId, blockFlags, blockLen := 0, false, 0, 0, 0;
      inputLen, outputLen, outputSent := 0, 0, 0;
      core := InitialCore();
    }

    // ---------------------------------------------------------------- output

    /** Slide the octets still to be sent to the start of the buffer. */
    method CompactOutput()
      requires Valid()
      modifies this`outputLen, this`outputSent, output
      ensures Valid() && outputSent == 0 && outputLen == |core.pending|
    {
      if outputSent == 0 {
        return;
      }
      if outputSent >= outputLen {
        outputLen := 0;
        outputSent := 0;
        return;
      }
      forall i | 0 <= i < outputLen - outputSent {
        output[i] := output[outputSent + i];
      }
      outputLen := outputLen - outputSent;
      outputSent := 0;
    }

    method QueueBytes(data: array<byte>, n: nat) returns (ret: Code)
      requires Valid() && n <= data.Length && data != output && data != headerBlock
      modifies this`outputLen, this`outputSent, this`core, output
      ensures Valid()
      ensures Step(core, ret) == if n > OUTPUT_CAP - |old(core.pending)| then Step(old(core), InternalError)
                                 else Step(old(core).(pending := old(core.pending) + data[..n]), NoError)
    {
      CompactOutput();
      if n > OUTPUT_CAP - outputLen {
        return InternalError;
      }
      CopyInto(output, outputLen, data[..n]);
      outputLen := outputLen + n;
      core := core.(pending := core.pending + data[..n]);
      ret := NoError;
    }

    /** Queue what an encoder left in a local buffer; a length of 0 is its failure. */
    method QueueWire(wire: array<byte>, n: nat, ghost frame: Option<Frame>) returns (ret: Code)
      requires Valid() && n <= wire.Length && wire != output && wire != headerBlock
      requires if frame.None? then n == 0 else Encodable(frame.value) && n > 0 && wire[..n] == Wire(frame.value)
      modifies this`outputLen, this`outputSent, this`core, output
      ensures Valid() && Step(core, ret) == Emit(old(core), frame)
    {
      if n == 0 {
        return InternalError;
      }
      ret := QueueBytes(wire, n);
      if ret == NoError {
        core := Note(core, Out(frame.value));
      }
    }

    /** Encode a frame in a local buffer of `cap` octets and queue it. */
    method QueueFrame(frame: Option<Frame>, cap: nat) returns (ret: Code)
      requires Valid() && (frame.Some? ==> HEADER_LEN + |frame.value.payload| <= cap <= WIRE_CAP)
      modifies this`outputLen, this`outputSent, this`core, output
      ensures Valid() && Step(core, ret) == Emit(old(core), frame)
    {
      var wire := new byte[cap](_ => 0);
      var n := EncodeFrame(wire, frame);
      ret := QueueWire(wire, n, frame);
    }

    /** The same for SETTINGS, whose encoder lays out a list. */
    method QueueSettingsFrame(flags: byte, items: seq<Setting>) returns (ret: Code)
      requires Valid() && |items| <= SETTINGS_CAP
      modifies this`outputLen, this`outputSent, this`core, output
      ensures Valid() && Step(core, ret) == Emit(old(core), SettingsFrame(flags, items))
    {
      var wire := new byte[HEADER_LEN + 6 * |items|](_ => 0);
      var n := EncodeSettings(wire, flags, items);
      ret := QueueWire(wire, n, SettingsFrame(flags, items));
    }

    method QueueGoawayFrame(errorCode: u32) returns (ret: Code)
      requires Valid()
      modifies this`outputLen, this`outputSent, this`goawaySent, this`goawayError, this`core, output
      ensures Valid() && Step(core, ret) == QueueGoaway(old(core), errorCode)
    {
      if goawaySent {
        return NoError;
      }
      goawaySent := true;
      goawayError := errorCode;
      core := core.(goawaySent := true, goawayError := errorCode);
      ret := QueueFrame(GoawayFrame(lastStreamId, errorCode, []), HEADER_LEN + 8);
    }

    method QueueHello() returns (ret: Code)
      requires Valid()
      modifies this`outputLen, this`outputSent, this`core, output
      ensures Valid() && Step(core, ret) == QueueSettings(old(core))
    {
      ret := QueueSettingsFrame(0, [Setting(ENABLE_PUSH, 0)]);
    }

    method QueueSettingsAck() returns (ret: Code)
      requires Valid()
      modifies this`outputLen, this`outputSent, this`core, output
      ensures Valid() && Step(core, ret) == Emit(old(core), SettingsFrame(FLAG_ACK, []))
    {
      ret := QueueSettingsFrame(FLAG_ACK, []);
    }

    method QueueWindowUpdate(streamId: u32, increment: u32) returns (ret: Code)
      requires Valid()
      modifies this`outputLen, this`outputSent, this`core, output
      ensures Valid() && Step(core, ret) == Emit(old(core), WindowUpdateFrame(streamId, increment))
    {
      ret := QueueFrame(WindowUpdateFrame(streamId, increment), HEADER_LEN + 4);
    }

    method QueueRstStream(streamId: u32, errorCode: u32) returns (ret: Code)
      requires Valid()
      modifies this`outputLen, this`outputSent, this`core, output
      ensures Valid() && Step(core, ret) == Emit(old(core), RstStreamFrame(streamId, errorCode))
    {
      ret := QueueFrame(RstStreamFrame(streamId, errorCode), HEADER_LEN + 4);
    }

    // ---------------------------------------------------------- stream table

    method FindStream(streamId: u32) returns (at: Option<nat>)
      requires Valid()
      ensures at == Find(core.slots, streamId)
    {
      var pos := 0;
      while pos < MAX_STREAMS
        invariant 0 <= pos <= MAX_STREAMS
        invariant FindFrom(core.slots, streamId, 0) == FindFrom(core.slots, streamId, pos)
      {
        if streams[pos].id == streamId {
          return Some(pos);
        }
        pos := pos + 1;
      }
      at := None;
    }

    method FindReusable() returns (at: Option<nat>)
      requires Valid()
      ensures at == FreeFrom(core.slots, 0)
    {
      var pos := 0;
      while pos < MAX_STREAMS
        invariant 0 <= pos <= MAX_STREAMS
        invariant FreeFrom(core.slots, 0) == FreeFrom(core.slots, pos)
      {
        if streams[pos].id == 0 || streams[pos].state == Closed {
          return Some(pos);
        }
        pos := pos + 1;
      }
      at := None;
    }

    method TakeStream(streamId: u32) returns (at: Option<nat>)
      requires Valid()
      modifies this`core, streams
      ensures Valid() && Got(core, at) == GetStream(old(core), streamId)
    {
      at := FindStream(streamId);
      if at.Some? {
        return;
      }
      at := FindReusable();
      if at.Some? {
        streams[at.value].Reinit(streamId, initialWindow);
        core := SetSlot(core, at.value, Init(streamId, initialWindow));
      }
    }

    // ------------------------------------------------------- receive windows

    method RefreshRecvWindows(at: Option<nat>) returns (ret: Code)
      requires Valid() && (at.Some? ==> at.value < MAX_STREAMS)
      modifies this`outputLen, this`outputSent, this`recvWindow, this`core, output, streams
      ensures Valid() && Step(core, ret) == RefreshWindows(old(core), at)
    {
      ret := RefreshConnWindow();
      if ret == NoError && at.Some? {
        ret := RefreshStreamWindow(at.value);
      }
    }

    method RefreshConnWindow() returns (ret: Code)
      requires Valid()
      modifies this`outputLen, this`outputSent, this`recvWindow, this`core, output
      ensures Valid() && Step(core, ret) == RefreshConn(old(core))
    {
      if recvWindow > DEFAULT_WINDOW / 2 {
        return NoError;
      }
      var increment := DEFAULT_WINDOW - recvWindow;
      recvWindow := recvWindow + increment;
      core := core.(recvWindow := recvWindow);
      ret := QueueWindowUpdate(0, increment % U32_SPAN);
    }

    method RefreshStreamWindow(k: nat) returns (ret: Code)
      requires Valid() && k < MAX_STREAMS
      modifies this`outputLen, this`outputSent, this`core, output, streams
      ensures Valid() && Step(core, ret) == RefreshStream(old(core), k)
    {
      var stream := streams[k];
      if stream.recvWindow > DEFAULT_WINDOW / 2 {
        return NoError;
      }
      var increment := DEFAULT_WINDOW - stream.recvWindow;
      stream.recvWindow := stream.recvWindow + increment;
      core := SetSlot(core, k, stream.Val());
      ret := QueueWindowUpdate(stream.id, increment % U32_SPAN);
    }

    // -------------------------------------------------------------- settings

    method AdjustSendWindow(k: nat, delta: int) returns (ret: Code)
      requires Valid() && k < MAX_STREAMS
      modifies this`core, streams
      ensures Valid() && Step(core, ret) == AdjustOne(old(core), delta, k)
    {
      var stream := streams[k];
      if stream.id != 0 && stream.state != Closed {
        var window := stream.sendWindow + delta;
        if window < INT32_MIN || window > INT32_MAX {
          return FlowControlError;
        }
        stream.sendWindow := window;
        core := SetSlot(core, k, stream.Val());
      }
      ret := NoError;
    }

    /** Shift the send window of every live stream, up to the first that leaves 32 bits. */
    method AdjustSendWindows(delta: int) returns (ret: Code)
      requires Valid()
      modifies this`core, streams
      ensures Valid() && Step(core, ret) == AdjustFrom(old(core), delta, 0)
    {
      var k := 0;
      while k < MAX_STREAMS
        invariant 0 <= k <= MAX_STREAMS && Valid()
        invariant AdjustFrom(old(core), delta, 0) == AdjustFrom(core, delta, k)
      {
        ret := AdjustSendWindow(k, delta);
        if ret != NoError {
          return;
        }
        k := k + 1;
      }
      ret := NoError;
    }

    method SetInitialWindow(value: u32)
      requires Valid()
      modifies this`initialWindow, this`core
      ensures Valid() && core == old(core).(initialWindow := value)
    {
      initialWindow := value;
      core := core.(initialWindow := value);
    }

    method ResetInitialWindow(value: u32) returns (ret: Code)
      requires Valid()
      modifies this`initialWindow, this`core, streams
      ensures Valid() && Step(core, ret) == ApplyOne(old(core), Setting(INITIAL_WINDOW_SIZE, value))
    {
      if value > INT32_MAX {
        return FlowControlError;
      }
      ret := AdjustSendWindows(value - initialWindow);
      ghost var adjusted := Step(core, ret);
      assert adjusted == AdjustFrom(old(core), value - old(core.initialWindow), 0);
      if ret == NoError {
        SetInitialWindow(value);
      }
    }

    method ApplySetting(item: Setting) returns (ret: Code)
      requires Valid()
      modifies this`initialWindow, this`maxFrameSize, this`core, streams
      ensures Valid() && Step(core, ret) == ApplyOne(old(core), item)
    {
      if item.id == ENABLE_PUSH {
        return if item.value > 1 then ProtocolError else NoError;
      }
      if item.id == INITIAL_WINDOW_SIZE {
        ret := ResetInitialWindow(item.value);
        return;
      }
      if item.id == MAX_FRAME_SIZE_ID {
        if item.value < DEFAULT_MAX_FRAME_SIZE || item.value > MAX_FRAME_SIZE {
          return ProtocolError;
        }
        maxFrameSize := item.value;
        core := core.(maxFrameSize := item.value);
      }
      ret := NoError;
    }

    /** Settings take effect one by one, up to the first that is refused. */
    method ApplySettingList(settings: array<Setting>, count: nat) returns (ret: Code)
      requires Valid() && count <= settings.Length
      modifies this`initialWindow, this`maxFrameSize, this`core, streams
      ensures Valid() && Step(core, ret) == ApplyAll(old(core), settings[..count])
    {
      var k := 0;
      ghost var rest := settings[..count];
      while k < count
        invariant 0 <= k <= count && Valid() && rest == settings[k..count]
        invariant ApplyAll(old(core), settings[..count]) == ApplyAll(core, rest)
      {
        ret := ApplySetting(settings[k]);
        if ret != NoError {
          return;
        }
        rest := rest[1..];
        k := k + 1;
      }
      ret := NoError;
    }

    method TakeSettings(h: FrameHeader, payload: seq<byte>) returns (ret: Code)
      requires Valid() && |payload| == h.length
      modifies this`initialWindow, this`maxFrameSize, this`outputLen, this`outputSent, this`core, output, streams
      ensures Valid()
      ensures Step(core, ret) == ApplySettings(old(core), HasAck(h.flags), ParseSettings(h, payload, SETTINGS_MAX))
    {
      var settings := new Setting[SETTINGS_MAX](_ => Setting(0, 0));
      var count;
      ret, count := ParseSettingsInto(h, payload, settings);
      if ret != NoError || HasAck(h.flags) {
        return;
      }
      ret := ApplySettingList(settings, count);
      if ret == NoError {
        ret := QueueSettingsAck();
      }
    }

    // ------------------------------------------------------------- responses

    method ChargeConnection(length: nat)
      requires Valid()
      modifies this`sendWindow, this`responsesSent, this`core
      ensures Valid()
      ensures core == old(core).(sendWindow := old(core).sendWindow - length,
                                 responsesSent := (old(core).responsesSent + 1) % U32_SPAN)
    {
      sendWindow := sendWindow - length;
      responsesSent := (responsesSent + 1) % U32_SPAN;
      core := core.(sendWindow := sendWindow, responsesSent := responsesSent);
    }

    method ChargeStream(k: nat, length: nat) returns (ret: Code)
      requires Valid() && k < MAX_STREAMS
      modifies this`core, streams
      ensures Valid()
      ensures var s := old(core.slots[k]);
              var moved := SendEndStream(s.(sendWindow := s.sendWindow - length, bodyDeferred := false, responseSent := true));
              core == SetSlot(old(core), k, moved.slot) && ret == moved.ret
    {
      ret := ChargeSlot(streams[k], length);
      core := SetSlot(core, k, streams[k].Val());
    }

    /** DATA is in the output: charge both windows and move the stream on. */
    method ChargeData(k: nat, length: nat) returns (ret: Code)
      requires Valid() && k < MAX_STREAMS
      modifies this`sendWindow, this`responsesSent, this`core, streams
      ensures Valid() && Step(core, ret) == DataSent(old(core), k, length)
    {
      ChargeConnection(length);
      ret := ChargeStream(k, length);
    }

    method DeferBody(k: nat)
      requires Valid() && k < MAX_STREAMS
      modifies this`core, streams
      ensures Valid() && core == SetSlot(old(core), k, old(core.slots[k]).(bodyDeferred := true))
    {
      streams[k].bodyDeferred := true;
      core := SetSlot(core, k, streams[k].Val());
    }

    method QueueBody(k: nat, body: seq<byte>) returns (ret: Code)
      requires Valid() && k < MAX_STREAMS && HEADER_LEN + |body| <= WIRE_CAP
      modifies this`sendWindow, this`responsesSent, this`outputLen, this`outputSent, this`core, output, streams
      ensures Valid() && Step(core, ret) == QueueDeferredData(old(core), k, body)
    {
      if sendWindow < |body| || streams[k].sendWindow < |body| {
        DeferBody(k);
        return NoError;
      }
      ret := QueueFrame(DataFrame(streams[k].id, FLAG_END_STREAM, body), WIRE_CAP);
      if ret != NoError {
        return InternalError;
      }
      ret := ChargeData(k, |body|);
    }

    method MarkHeadersSent(k: nat)
      requires Valid() && k < MAX_STREAMS
      modifies this`core, streams
      ensures Valid() && core == SetSlot(old(core), k, old(core.slots[k]).(headersSent := true))
    {
      streams[k].headersSent := true;
      core := SetSlot(core, k, streams[k].Val());
    }

    method QueueResponseHeaders(k: nat, length: nat) returns (ret: Code)
      requires Valid() && k < MAX_STREAMS && length < BODY_CAP
      modifies this`outputLen, this`outputSent, this`core, output, streams
      ensures Valid() && Step(core, ret) == QueueHeaders(old(core), k, length)
    {
      if streams[k].headersSent {
        return NoError;
      }
      var block := new byte[RESPONSE_BLOCK_CAP](_ => 0);
      ResponseBlockFits(length);
      var n := BuildResponseBlock(block, length);
      ret := QueueFrame(HeadersFrame(streams[k].id, FLAG_END_HEADERS, block[..n]), WIRE_CAP);
      if ret != NoError {
        return InternalError;
      }
      MarkHeadersSent(k);
    }

    method NamePath(k: nat)
      requires Valid() && k < MAX_STREAMS
      modifies this`core, streams
      ensures Valid() && core == SetSlot(old(core), k, old(core.slots[k]).(path := PathOrSlash(old(core.slots[k]).path)))
    {
      var stream := streams[k];
      if stream.path == [] {
        stream.path := SLASH;
      }
      core := SetSlot(core, k, stream.Val());
    }

    method Respond(k: nat) returns (ret: Code)
      requires Valid() && k < MAX_STREAMS
      modifies this`sendWindow, this`responsesSent, this`outputLen, this`outputSent, this`core, output, streams
      ensures Valid() && Step(core, ret) == QueueResponse(old(core), k)
    {
      if streams[k].responseSent {
        return NoError;
      }
      NamePath(k);
      var body := streams[k].path + NEWLINE;
      if |body| >= BODY_CAP {
        return InternalError;
      }
      ret := QueueResponseHeaders(k, |body|);
      if ret == NoError {
        ret := QueueBody(k, body);
      }
    }

    method FlushStream(k: nat) returns (ret: Code)
      requires Valid() && k < MAX_STREAMS
      modifies this`sendWindow, this`responsesSent, this`outputLen, this`outputSent, this`core, output, streams
      ensures Valid() && Step(core, ret) == FlushOne(old(core), k)
    {
      ret := NoError;
      if streams[k].id != 0 && streams[k].state != Closed && streams[k].bodyDeferred {
        ret := Respond(k);
      }
    }

    method FlushDeferredResponses() returns (ret: Code)
      requires Valid()
      modifies this`sendWindow, this`responsesSent, this`outputLen, this`outputSent, this`core, output, streams
      ensures Valid() && Step(core, ret) == FlushFrom(old(core), 0)
    {
      var k := 0;
      while k < MAX_STREAMS
        invariant 0 <= k <= MAX_STREAMS && Valid()
        invariant FlushFrom(old(core), 0) == FlushFrom(core, k)
      {
        ret := FlushStream(k);
        if ret != NoError {
          return;
        }
        k := k + 1;
      }
      ret := NoError;
    }

    // ---------------------------------------------------------- header blocks

    method SetPath(k: nat, path: seq<byte>)
      requires Valid() && k < MAX_STREAMS
      modifies this`core, streams
      ensures Valid() && core == SetSlot(old(core), k, old(core.slots[k]).(path := path))
    {
      streams[k].path := path;
      core := SetSlot(core, k, streams[k].Val());
    }

    method EnterStream(k: nat, endStream: bool, path: seq<byte>) returns (ret: Code)
      requires Valid() && k < MAX_STREAMS
      modifies this`core, streams
      ensures Valid()
      ensures var moved := ReceiveHeaders(old(core.slots[k]).(path := path), endStream);
              core == SetSlot(old(core), k, moved.slot) && ret == moved.ret
    {
      streams[k].path := path;
      ret := streams[k].OnHeaders(endStream);
      core := SetSlot(core, k, streams[k].Val());
    }

    /** The block has been scanned for its path into the stream's slot: enter the stream and answer. */
    method AnswerRequest(k: nat, endStream: bool, scan: Spec.PathScan) returns (ret: Code)
      requires Valid() && k < MAX_STREAMS
      modifies this`sendWindow, this`responsesSent, this`outputLen, this`outputSent, this`core, output, streams
      ensures Valid() && Step(core, ret) == OpenStream(old(core), k, endStream, scan)
    {
      if scan.code != NoError {
        SetPath(k, scan.path);
        return scan.code;
      }
      ret := EnterStream(k, endStream, scan.path);
      if ret == NoError {
        ret := Respond(k);
      }
    }

    method OpenSlot(streamId: u32, ghost path: seq<byte>)
      requires Valid()
      modifies this`lastStreamId, this`core
      ensures Valid() && core == Note(old(core).(lastStreamId := streamId), Opened(streamId, path))
    {
      lastStreamId := streamId;
      core := Note(core.(lastStreamId := streamId), Opened(streamId, path));
    }

    method CompleteHeaders(streamId: u32, endStream: bool, block: seq<byte>) returns (ret: Code)
      requires Valid()
      modifies this`lastStreamId, this`sendWindow, this`responsesSent, this`outputLen, this`outputSent, this`core, output, streams
      ensures Valid()
      ensures Step(core, ret) == FinishHeaders(old(core), streamId, endStream, Spec.ExtractPath(block, VALUE_CAP))
    {
      if streamId % 2 == 0 || streamId <= lastStreamId {
        return ProtocolError;
      }
      var at := TakeStream(streamId);
      FinishUnfolds(old(core), streamId, endStream, Spec.ExtractPath(block, VALUE_CAP), core, at);
      if at.None? {
        return RefusedStream;
      }
      var scan := Hpack.ExtractPath(block, VALUE_CAP);
      OpenSlot(streamId, scan.path);
      ret := AnswerRequest(at.value, endStream, scan);
    }

    method AppendHeaderBlock(data: seq<byte>) returns (ret: Code)
      requires Valid()
      modifies this`blockLen, this`core, headerBlock
      ensures Valid() && Step(core, ret) == AppendBlock(old(core), data)
    {
      if |data| > BLOCK_CAP - blockLen {
        return CompressionError;
      }
      CopyInto(headerBlock, blockLen, data);
      blockLen := blockLen + |data|;
      core := core.(block := core.block.(bytes := core.block.bytes + data));
      ret := NoError;
    }

    method OpenBlock(h: FrameHeader)
      requires Valid()
      modifies this`blockOpen, this`blockStreamId, this`blockFlags, this`blockLen, this`core
      ensures Valid() && core == old(core).(block := Block(true, h.streamId, h.flags, []))
    {
      blockOpen := true;
      blockStreamId := h.streamId;
      blockFlags := h.flags;
      blockLen := 0;
      core := core.(block := Block(true, h.streamId, h.flags, []));
    }

    method CloseBlock()
      requires Valid()
      modifies this`blockOpen, this`core
      ensures Valid() && core == old(core).(block := old(core.block).(open := false))
    {
      blockOpen := false;
      core := core.(block := core.block.(open := false));
    }

    method TakeHeaders(h: FrameHeader, payload: seq<byte>) returns (ret: Code)
      requires Valid() && |payload| == h.length
      modifies this, headerBlock, output, streams
      ensures Valid() && InputKept()
      ensures Step(core, ret) == ProcessHeaders(old(core), h, ParseHeaders(h, payload))
    {
      var parsed := ParseHeaders(h, payload);
      if parsed.Err? {
        return parsed.code;
      }
      if HasEndHeaders(h.flags) {
        ret := CompleteHeaders(h.streamId, HasEndStream(h.flags), parsed.value.block);
        return;
      }
      if blockOpen {
        return ProtocolError;
      }
      OpenBlock(h);
      ret := AppendHeaderBlock(parsed.value.block);
    }

    /** The block is whole: hand it on as if one HEADERS frame had carried it. */
    method CompleteBlock() returns (ret: Code)
      requires Valid()
      modifies this, output, streams
      ensures Valid() && InputKept()
      ensures var b := old(core.block);
              Step(core, ret) == FinishHeaders(old(core).(block := b.(open := false)), b.streamId, HasEndStream(b.flags),
                                               Spec.ExtractPath(b.bytes, VALUE_CAP))
    {
      CloseBlock();
      ret := CompleteHeaders(blockStreamId, HasEndStream(blockFlags), headerBlock[..blockLen]);
    }

    method TakeContinuation(h: FrameHeader, payload: seq<byte>) returns (ret: Code)
      requires Valid() && |payload| == h.length
      modifies this, headerBlock, output, streams
      ensures Valid() && InputKept()
      ensures Step(core, ret) == ProcessContinuation(old(core), h, ParseContinuation(h, payload))
    {
      if !blockOpen || h.streamId != blockStreamId {
        return ProtocolError;
      }
      var parsed := ParseContinuation(h, payload);
      if parsed.Err? {
        return parsed.code;
      }
      ret := AppendHeaderBlock(parsed.value);
      if ret != NoError || !HasEndHeaders(h.flags) {
        return;
      }
      ret := CompleteBlock();
    }

    // ----------------------------------------------------------- other frames

    method ChargeRecv(length: nat)
      requires Valid()
      modifies this`recvWindow, this`core
      ensures Valid() && core == old(core).(recvWindow := old(core).recvWindow - length)
    {
      recvWindow := recvWindow - length;
      core := core.(recvWindow := recvWindow);
    }

    method DataReceived(k: nat, length: nat, endStream: bool) returns (ret: Code)
      requires Valid() && k < MAX_STREAMS
      modifies this`core, streams
      ensures Valid()
      ensures core == SetSlot(old(core), k, ReceiveData(old(core.slots[k]), length, endStream).slot)
      ensures ret == ReceiveData(old(core.slots[k]), length, endStream).ret
    {
      ret := streams[k].OnData(length, endStream);
      core := SetSlot(core, k, streams[k].Val());
    }

    method TakeDataOnClosed(length: nat) returns (ret: Code)
      requires Valid()
      modifies this`recvWindow, this`outputLen, this`outputSent, this`core, output
      ensures Valid() && Step(core, ret) == DataOnClosed(old(core), length)
    {
      if AsSize(recvWindow) < length {
        return FlowControlError;
      }
      ChargeRecv(length);
      var _ := RefreshConnWindow();
      ret := StreamClosed;
    }

    method RefreshAfterData(k: nat, taken: Code) returns (ret: Code)
      requires Valid() && k < MAX_STREAMS
      modifies this`recvWindow, this`outputLen, this`outputSent, this`core, output, streams
      ensures Valid() && Step(core, ret) == AfterData(old(core), k, taken)
    {
      if taken != NoError {
        return taken;
      }
      ret := RefreshRecvWindows(if streams[k].state == Closed then None else Some(k));
    }

    method ChargeBoth(k: nat, length: nat, endStream: bool) returns (ret: Code)
      requires Valid() && k < MAX_STREAMS
      modifies this`recvWindow, this`core, streams
      ensures Valid()
      ensures var taken := ReceiveData(old(core.slots[k]), length, endStream);
              && core == SetSlot(old(core).(recvWindow := old(core).recvWindow - length), k, taken.slot)
              && ret == taken.ret
    {
      ChargeRecv(length);
      ret := DataReceived(k, length, endStream);
    }

    method TakeDataOnOpen(k: nat, length: nat, endStream: bool) returns (ret: Code)
      requires Valid() && k < MAX_STREAMS
      modifies this`recvWindow, this`outputLen, this`outputSent, this`core, output, streams
      ensures Valid() && Step(core, ret) == DataOnOpen(old(core), k, length, endStream)
    {
      if AsSize(recvWindow) < length {
        return FlowControlError;
      }
      ghost var before := core;
      var taken := ChargeBoth(k, length, endStream);
      ghost var charged := core;
      ret := RefreshAfterData(k, taken);
      DataOnOpenCharges(before, k, length, endStream, charged, taken);
    }

    method TakeData(h: FrameHeader, payload: seq<byte>) returns (ret: Code)
      requires Valid() && |payload| == h.length
      modifies this`recvWindow, this`outputLen, this`outputSent, this`core, output, streams
      ensures Valid() && Step(core, ret) == ProcessData(old(core), h, ParseData(h, payload))
    {
      var parsed := ParseData(h, payload);
      if parsed.Err? {
        return parsed.code;
      }
      var at := FindStream(h.streamId);
      if at.None? {
        return ProtocolError;
      }
      var state := streams[at.value].state;
      if state != Open && state != HalfClosedLocal {
        ret := TakeDataOnClosed(h.length);
      } else {
        ret := TakeDataOnOpen(at.value, h.length, HasEndStream(h.flags));
      }
    }

    method CreditSlot(k: nat, increment: u32) returns (ret: Code)
      requires Valid() && k < MAX_STREAMS
      modifies this`core, streams
      ensures Valid()
      ensures core == SetSlot(old(core), k, AddSendWindow(old(core.slots[k]), increment).slot)
      ensures ret == AddSendWindow(old(core.slots[k]), increment).ret
    {
      ret := streams[k].Credit(increment);
      core := SetSlot(core, k, streams[k].Val());
    }

    method CreditConnection(increment: u32)
      requires Valid()
      modifies this`sendWindow, this`core
      ensures Valid() && core == old(core).(sendWindow := old(core).sendWindow + increment)
    {
      sendWindow := sendWindow + increment;
      core := core.(sendWindow := sendWindow);
    }

    method CreditStreamAndFlush(k: nat, increment: u32) returns (ret: Code)
      requires Valid() && k < MAX_STREAMS
      modifies this`sendWindow, this`responsesSent, this`outputLen, this`outputSent, this`core, output, streams
      ensures Valid() && Step(core, ret) == CreditStream(old(core), k, increment)
    {
      ret := CreditSlot(k, increment);
      if ret == NoError {
        ret := FlushDeferredResponses();
      }
    }

    method GrantConnection(increment: u32) returns (ret: Code)
      requires Valid()
      modifies this`sendWindow, this`responsesSent, this`outputLen, this`outputSent, this`core, output, streams
      ensures Valid() && Step(core, ret) == ProcessWindowUpdate(old(core), 0, Ok(increment))
    {
      if sendWindow + increment > INT32_MAX {
        return FlowControlError;
      }
      CreditConnection(increment);
      ret := FlushDeferredResponses();
    }

    method GrantStream(streamId: u32, increment: u32) returns (ret: Code)
      requires Valid() && streamId != 0
      modifies this`sendWindow, this`responsesSent, this`outputLen, this`outputSent, this`core, output, streams
      ensures Valid() && Step(core, ret) == ProcessWindowUpdate(old(core), streamId, Ok(increment))
    {
      var at := FindStream(streamId);
      if at.None? {
        return NoError;
      }
      ret := CreditStreamAndFlush(at.value, increment);
    }

    method TakeWindowUpdate(h: FrameHeader, payload: seq<byte>) returns (ret: Code)
      requires Valid() && |payload| == h.length
      modifies this`sendWindow, this`responsesSent, this`outputLen, this`outputSent, this`core, output, streams
      ensures Valid() && Step(core, ret) == ProcessWindowUpdate(old(core), h.streamId, ParseWindowUpdate(h, payload))
    {
      var parsed := ParseWindowUpdate(h, payload);
      if parsed.Err? {
        return parsed.code;
      }
      if h.streamId == 0 {
        ret := GrantConnection(parsed.value);
      } else {
        ret := GrantStream(h.streamId, parsed.value);
      }
    }

    method ShutStream(k: nat)
      requires Valid() && k < MAX_STREAMS
      modifies this`core, streams
      ensures Valid() && core == SetSlot(old(core), k, Close(old(core.slots[k])))
    {
      streams[k].Shut();
      core := SetSlot(core, k, streams[k].Val());
    }

    method TakeRstStream(h: FrameHeader, payload: seq<byte>) returns (ret: Code)
      requires Valid() && |payload| == h.length
      modifies this`core, streams
      ensures Valid() && Step(core, ret) == ProcessRstStream(old(core), h.streamId, ParseRstStream(h, payload))
    {
      var parsed := ParseRstStream(h, payload);
      if parsed.Err? {
        return parsed.code;
      }
      var at := FindStream(h.streamId);
      if at.Some? {
        ShutStream(at.value);
        return NoError;
      }
      if h.streamId % 2 == 0 || h.streamId > lastStreamId {
        return ProtocolError;
      }
      ret := NoError;
    }

    method TakePing(h: FrameHeader, payload: seq<byte>) returns (ret: Code)
      requires Valid() && |payload| == h.length
      modifies this`outputLen, this`outputSent, this`core, output
      ensures Valid() && Step(core, ret) == ProcessPing(old(core), HasAck(h.flags), ParsePing(h, payload))
    {
      var parsed := ParsePing(h, payload);
      if parsed.Err? {
        return parsed.code;
      }
      if HasAck(h.flags) {
        return NoError;
      }
      ret := QueueFrame(PingFrame(FLAG_ACK, parsed.value), HEADER_LEN + 8);
    }

    method ResetStreamError(streamId: u32, errorCode: u32) returns (ret: Code)
      requires Valid()
      modifies this`outputLen, this`outputSent, this`core, output, streams
      ensures Valid() && Step(core, ret) == ResetStream(old(core), streamId, errorCode)
    {
      var at := FindStream(streamId);
      ret := QueueRstStream(streamId, errorCode);
      if ret == NoError && at.Some? {
        ShutStream(at.value);
      }
    }

    method DispatchControl(h: FrameHeader, payload: seq<byte>) returns (ret: Code)
      requires Valid() && |payload| == h.length
      requires h.length <= core.maxFrameSize && !core.block.open && h.kind != DATA && h.kind != HEADERS && h.kind != CONTINUATION
      modifies this`sendWindow, this`initialWindow, this`maxFrameSize, this`responsesSent, this`outputLen, this`outputSent,
               this`core, output, streams
      ensures Valid() && Step(core, ret) == ProcessFrame(old(core), h, payload)
    {
      if h.kind == PRIORITY {
        var parsed := ParsePriority(h, payload);
        ret := if parsed.Err? then parsed.code else NoError;
      } else if h.kind == RST_STREAM {
        ret := TakeRstStream(h, payload);
      } else if h.kind == SETTINGS {
        ret := TakeSettings(h, payload);
      } else if h.kind == PUSH_PROMISE {
        ret := ProtocolError;
      } else if h.kind == PING {
        ret := TakePing(h, payload);
      } else if h.kind == GOAWAY {
        ret := Validate(h);
      } else if h.kind == WINDOW_UPDATE {
        ret := TakeWindowUpdate(h, payload);
      } else {
        ret := NoError;
      }
    }

    /** The guards and the switch of h2_connection_process_frame. */
    method DispatchFrame(h: FrameHeader, payload: seq<byte>) returns (ret: Code)
      requires Valid() && |payload| == h.length
      modifies this, headerBlock, output, streams
      ensures Valid() && InputKept()
      ensures Step(core, ret) == ProcessFrame(old(core), h, payload)
    {
      if h.length > maxFrameSize {
        return FrameSizeError;
      }
      if blockOpen && (h.kind != CONTINUATION || h.streamId != blockStreamId) {
        return ProtocolError;
      }
      if h.kind == DATA {
        ret := TakeData(h, payload);
      } else if h.kind == HEADERS {
        ret := TakeHeaders(h, payload);
      } else if h.kind == CONTINUATION {
        ret := TakeContinuation(h, payload);
      } else {
        ret := DispatchControl(h, payload);
      }
    }

    // ------------------------------------------------------------------ input

    /** The frame has been handled; a stream error resets its stream, any other says GOAWAY. */
    method RecoverFrom(ret: Code, streamId: u32) returns (after: Code)
      requires Valid()
      modifies this`outputLen, this`outputSent, this`goawaySent, this`goawayError, this`core, output, streams
      ensures Valid() && Step(core, after) == Recover(Step(old(core), ret), streamId)
    {
      if ret == NoError {
        return NoError;
      }
      if IsStreamError(ret) && streamId != 0 {
        after := ResetStreamError(streamId, ret.Number());
        return;
      }
      var _ := QueueGoawayFrame(ret.Number());
      after := ret;
    }

    ghost method TakeUp(h: FrameHeader, payload: seq<byte>)
      requires Valid()
      modifies this`core
      ensures Valid() && core == Note(old(core), In(h, payload))
    {
      core := Note(core, In(h, payload));
    }

    method TakeFrame(h: FrameHeader, payload: seq<byte>) returns (ret: Code)
      requires Valid() && |payload| == h.length
      modifies this, headerBlock, output, streams
      ensures Valid() && InputKept()
      ensures Step(core, ret) == HandleFrame(old(core), h, payload)
    {
      TakeUp(h, payload);
      ret := DispatchFrame(h, payload);
      ret := RecoverFrom(ret, h.streamId);
    }

    /** Slide the input past its first `n` octets. */
    method DropInput(n: nat)
      requires Valid() && n <= inputLen
      modifies this`inputLen, input
      ensures Valid() && inputLen == old(inputLen) - n && input[..inputLen] == old(input[n..inputLen])
    {
      forall i | 0 <= i < inputLen - n {
        input[i] := input[n + i];
      }
      inputLen := inputLen - n;
    }

    /** Handle the frame at the head of the input, and remove it unless it fails. */
    method TakeHead(h: FrameHeader) returns (ret: Code)
      requires Valid() && FrameReady(input[..inputLen]) && ParseHeader(input[..inputLen]) == Ok(h)
      modifies this, headerBlock, input, output, streams
      ensures Valid() && prefaceSeen == old(prefaceSeen) && settingsSent == old(settingsSent)
      ensures Step(core, ret) == HandleHead(old(core), old(input[..inputLen]))
      ensures input[..inputLen] == if ret == NoError then old(input[HEADER_LEN + h.length..inputLen]) else old(input[..inputLen])
    {
      var whole := HEADER_LEN + h.length;
      var payload := input[HEADER_LEN..whole];
      assert payload == input[..inputLen][HEADER_LEN..whole];
      HeadIs(core, input[..inputLen], h, payload);
      ret := TakeFrame(h, payload);
      if ret == NoError {
        DropInput(whole);
      }
    }

    /** The frame loop: handle and remove whole frames until one fails or the rest is short. */
    method DrainInput() returns (ret: Code)
      requires Valid()
      modifies this, headerBlock, input, output, streams
      ensures Valid() && prefaceSeen == old(prefaceSeen) && settingsSent == old(settingsSent)
      ensures Drained(core, input[..inputLen], ret) == Drain(old(core), old(input[..inputLen]))
    {
      ghost var goal := Drain(core, input[..inputLen]);
      while inputLen >= HEADER_LEN
        invariant Valid() && prefaceSeen == old(prefaceSeen) && settingsSent == old(settingsSent)
        invariant Drain(core, input[..inputLen]) == goal
        decreases inputLen
      {
        ghost var before, unread := core, input[..inputLen];
        var h := ParseHeader(input[..inputLen]).value;
        if HEADER_LEN + h.length > inputLen {
          break;
        }
        ret := TakeHead(h);
        DrainTurn(before, unread, Step(core, ret));
        if ret != NoError {
          return;
        }
        assert input[..inputLen] == unread[FrameEnd(unread)..];
      }
      DrainRests(core, input[..inputLen]);
      ret := NoError;
    }

    method AppendInput(data: seq<byte>)
      requires Valid() && |data| <= INPUT_CAP - inputLen
      modifies this`inputLen, input
      ensures Valid() && input[..inputLen] == old(input[..inputLen]) + data
    {
      CopyInto(input, inputLen, data);
      inputLen := inputLen + |data|;
    }

    method RefusePreface() returns (ret: Code)
      requires Valid()
      modifies this`outputLen, this`outputSent, this`goawaySent, this`goawayError, this`core, output
      ensures Valid() && core == QueueGoaway(old(core), ProtocolError.Number()).core && ret == ProtocolError
    {
      var _ := QueueGoawayFrame(ProtocolError.Number());
      ret := ProtocolError;
    }

    method DropPreface()
      requires Valid() && inputLen >= PREFACE_LEN
      modifies this`inputLen, this`prefaceSeen, input
      ensures Valid() && Val() == old(Val()).(prefaceSeen := true, input := old(Val()).input[PREFACE_LEN..])
    {
      ghost var before := input[..inputLen];
      DropInput(PREFACE_LEN);
      assert input[..inputLen] == before[PREFACE_LEN..];
      prefaceSeen := true;
    }

    /** The preface is in: drop it and answer with SETTINGS, once. */
    method AcceptPreface() returns (ret: Code)
      requires Valid() && inputLen >= PREFACE_LEN
      modifies this, input, output
      ensures Valid() && Fed(Val(), ret) == Welcome(old(Val()))
    {
      DropPreface();
      ret := NoError;
      if !settingsSent {
        ret := QueueHello();
        settingsSent := ret == NoError;
      }
    }

    method TakePreface() returns (ret: Code)
      requires Valid() && !prefaceSeen && inputLen >= PREFACE_LEN
      modifies this, input, output
      ensures Valid()
      ensures Advance(old(Val())) == if ret != NoError then Fed(Val(), ret) else Pump(Val())
    {
      PrefaceOrNot(Val());
      assert input[..PREFACE_LEN] == input[..inputLen][..PREFACE_LEN];
      if input[..PREFACE_LEN] != PREFACE {
        ret := RefusePreface();
      } else {
        ret := AcceptPreface();
      }
    }

    /** h2_connection_feed. */
    method Receive(data: seq<byte>) returns (ret: Code)
      requires Valid()
      modifies this, headerBlock, input, output, streams
      ensures Valid() && Fed(Val(), ret) == Feed(old(Val()), data)
    {
      if |data| > INPUT_CAP - inputLen {
        return InternalError;
      }
      AppendInput(data);
      if !prefaceSeen {
        if inputLen < PREFACE_LEN {
          return NoError;
        }
        ret := TakePreface();
        if ret != NoError {
          return;
        }
      }
      ret := DrainInput();
    }

    // ---------------------------------------------------------- output side

    method WantsWrite() returns (wants: bool)
      requires Valid()
      ensures wants <==> core.pending != []
    {
      wants := outputSent < outputLen;
    }

    method PendingOutput() returns (data: seq<byte>)
      requires Valid()
      ensures data == core.pending
    {
      data := output[outputSent..outputLen];
    }

    /** h2_connection_consume_output: the caller has sent `n` octets, or all there were. */
    method ConsumeOutput(n: nat)
      requires Valid()
      modifies this`outputLen, this`outputSent, this`core, output
      ensures Valid() && core == Consume(old(core), n)
    {
      var available := outputLen - outputSent;
      var sent := if n > available then available else n;
      outputSent := outputSent + sent;
      core := Consume(core, n);
      CompactOutput();
    }
  }
}
