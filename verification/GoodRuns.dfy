/** New streams, whole frames, feeds and runs keep the invariant. */
module GoodRuns {
  import opened Bytes
  import opened FrameCodec
  import opened HpackStatic
  import opened HpackSpec
  import opened Streams
  import opened ConnectionSpec
  import opened History
  import opened Invariants
  import opened GoodSteps
  import opened GoodResponses

  // ------------------------------------------------------------- new streams

  lemma {:induction false} ScanIsShort(w: seq<byte>, path: seq<byte>, cap: nat)
    requires |path| < cap
    ensures |ExtractFrom(w, path, cap).path| < cap
    decreases |w|
  {
    if w != [] {
      var piece := ScanPiece(w, path, cap);
      if piece.Ok? {
        ScanIsShort(w[piece.value.1..], piece.value.0, cap);
      }
    }
  }

  /** The state in which a new stream has been entered in slot `k`. */
  function Entered(c: Core, k: nat, id: u32, path: seq<byte>): Core
    requires k < |c.slots|
  {
    Note(SetSlot(c, k, Init(id, c.initialWindow)).(lastStreamId := id), Opened(id, path))
  }

  lemma EnteredDiscipline(log: Log, last: u32, id: u32, path: seq<byte>)
    requires Discipline(log, last) && id > last && |path| < VALUE_CAP
    ensures Discipline(log + [Opened(id, path)], id)
    ensures Answered(log + [Opened(id, path)], id) == 0 && PathOf(log + [Opened(id, path)], id) == path
  {
    var log' := log + [Opened(id, path)];
    forall i: u32 ensures |PathOf(log', i)| < VALUE_CAP && (i > id || i % 2 == 0 ==> Answered(log', i) == 0) {
      NoteStream(log, Opened(id, path), i);
    }
    NoteStream(log, Opened(id, path), id);
  }

  lemma EnteredTable(c: Core, k: nat, id: u32, path: seq<byte>)
    requires Good(c) && k < |c.slots| && Reusable(c.slots[k])
    requires c.lastStreamId < id < U31_SPAN && id % 2 == 1 && |path| < VALUE_CAP
    ensures var d := Entered(c, k, id, path); Table(d.log, id, d.slots)
  {
    var d := Entered(c, k, id, path);
    EnteredDiscipline(c.log, c.lastStreamId, id, path);
    forall j | 0 <= j < |d.slots| ensures SlotOk(d.log, id, d.slots[j]) && (j != k ==> d.slots[j].id != id) {
      assert SlotOk(c.log, c.lastStreamId, c.slots[j]);
      NoteStream(c.log, Opened(id, path), c.slots[j].id);
    }
  }

  lemma EnteredKeeps(c: Core, k: nat, id: u32, path: seq<byte>)
    requires k < |c.slots| && Reusable(c.slots[k]) && c.lastStreamId < id
    ensures Keeps(c, Entered(c, k, id, path))
  {
    var d := Entered(c, k, id, path);
    NoteWhole(c.log, Opened(id, path));
    forall i: u32 | Retired(c, i) ensures Retired(d, i) && Talk(d.log, i) == Talk(c.log, i) {
      NoteStream(c.log, Opened(id, path), i);
      forall j | 0 <= j < |d.slots| && d.slots[j].id == i ensures !Live(d.slots[j]) {
        assert j != k;
        assert c.slots[j].id == i;
      }
    }
  }

  lemma EnteredGood(c: Core, k: nat, id: u32, path: seq<byte>)
    requires Good(c) && k < |c.slots| && Reusable(c.slots[k])
    requires c.lastStreamId < id < U31_SPAN && id % 2 == 1 && |path| < VALUE_CAP
    ensures GoodStep(c, Entered(c, k, id, path))
  {
    EnteredDiscipline(c.log, c.lastStreamId, id, path);
    EnteredTable(c, k, id, path);
    EnteredKeeps(c, k, id, path);
    NoteWhole(c.log, Opened(id, path));
    NoteWires(c.log, Opened(id, path));
  }

  /** No slot can hold an id beyond the last, so a new stream always gets a fresh slot or none. */
  lemma GetStreamIsFresh(c: Core, id: u32)
    requires Good(c) && c.lastStreamId < id
    ensures var g := GetStream(c, id);
            if g.at.None? then g.core == c
            else Reusable(c.slots[g.at.value]) && g.core == SetSlot(c, g.at.value, Init(id, c.initialWindow))
  {
    forall k | 0 <= k < |c.slots| ensures c.slots[k].id != id {
      assert SlotOk(c.log, c.lastStreamId, c.slots[k]);
    }
  }

  /** The slot just entered, still idle. */
  ghost predicate Fresh(c: Core, k: nat, path: seq<byte>) {
    && k < |c.slots| && c.slots[k] == Init(c.slots[k].id, c.slots[k].sendWindow) && c.slots[k].id != 0
    && PathOf(c.log, c.slots[k].id) == path
  }

  lemma PathSet(c: Core, k: nat, path: seq<byte>)
    requires Good(c) && Fresh(c, k, path) && |path| < VALUE_CAP
    ensures GoodStep(c, SetSlot(c, k, c.slots[k].(path := path)))
  {
    assert SlotOk(c.log, c.lastStreamId, c.slots[k]);
    SlotStays(c, k, c.slots[k].(path := path));
  }

  lemma HeadersTaken(c: Core, k: nat, path: seq<byte>, endStream: bool)
    requires Good(c) && Fresh(c, k, path) && |path| < VALUE_CAP
    ensures var s := ReceiveHeaders(c.slots[k].(path := path), endStream).slot;
            GoodStep(c, SetSlot(c, k, s)) && Answering(SetSlot(c, k, s), k)
  {
    var s := ReceiveHeaders(c.slots[k].(path := path), endStream).slot;
    assert SlotOk(c.log, c.lastStreamId, c.slots[k]);
    SlotStays(c, k, s);
  }

  lemma OpenStreamGood(c: Core, k: nat, endStream: bool, scan: PathScan)
    requires Good(c) && Fresh(c, k, scan.path) && |scan.path| < VALUE_CAP
    ensures GoodStep(c, OpenStream(c, k, endStream, scan).core)
  {
    if scan.code != NoError {
      PathSet(c, k, scan.path);
    } else {
      var entered := SetSlot(c, k, ReceiveHeaders(c.slots[k].(path := scan.path), endStream).slot);
      HeadersTaken(c, k, scan.path, endStream);
      QueueResponseGood(entered, k);
      StepTrans(c, entered, QueueResponse(entered, k).core);
    }
  }

  lemma FinishHeadersGood(c: Core, streamId: u32, endStream: bool, scan: PathScan)
    requires Good(c) && streamId < U31_SPAN && |scan.path| < VALUE_CAP
    ensures GoodStep(c, FinishHeaders(c, streamId, endStream, scan).core)
  {
    StepRefl(c);
    if streamId % 2 == 1 && c.lastStreamId < streamId {
      GetStreamIsFresh(c, streamId);
      var g := GetStream(c, streamId);
      if g.at.Some? {
        var d := Entered(c, g.at.value, streamId, scan.path);
        EnteredGood(c, g.at.value, streamId, scan.path);
        EnteredDiscipline(c.log, c.lastStreamId, streamId, scan.path);
        OpenStreamGood(d, g.at.value, endStream, scan);
        StepTrans(c, d, OpenStream(d, g.at.value, endStream, scan).core);
      }
    }
  }

  // ------------------------------------------------------------ header blocks

  lemma AppendBlockGood(c: Core, data: seq<byte>)
    requires Good(c)
    ensures GoodStep(c, AppendBlock(c, data).core)
  {
    ScalarStep(c, AppendBlock(c, data).core);
  }

  lemma ProcessHeadersGood(c: Core, h: FrameHeader, parsed: Result<HeadersPayload>)
    requires Good(c) && h.streamId < U31_SPAN
    ensures GoodStep(c, ProcessHeaders(c, h, parsed).core)
  {
    StepRefl(c);
    if parsed.Ok? {
      if HasEndHeaders(h.flags) {
        ScanIsShort(parsed.value.block, [], VALUE_CAP);
        FinishHeadersGood(c, h.streamId, HasEndStream(h.flags), ExtractPath(parsed.value.block, VALUE_CAP));
      } else if !c.block.open {
        var d := c.(block := Block(true, h.streamId, h.flags, []));
        ScalarStep(c, d);
        AppendBlockGood(d, parsed.value.block);
        StepTrans(c, d, AppendBlock(d, parsed.value.block).core);
      }
    }
  }

  lemma ProcessContinuationGood(c: Core, h: FrameHeader, parsed: Result<seq<byte>>)
    requires Good(c)
    ensures GoodStep(c, ProcessContinuation(c, h, parsed).core)
  {
    StepRefl(c);
    if c.block.open && h.streamId == c.block.streamId && parsed.Ok? {
      AppendBlockGood(c, parsed.value);
      var r := AppendBlock(c, parsed.value);
      if r.ret == NoError && HasEndHeaders(h.flags) {
        var b := r.core.block;
        var d := r.core.(block := b.(open := false));
        ScalarStep(r.core, d);
        ScanIsShort(b.bytes, [], VALUE_CAP);
        FinishHeadersGood(d, b.streamId, HasEndStream(b.flags), ExtractPath(b.bytes, VALUE_CAP));
        StepTrans(c, r.core, d);
        StepTrans(c, d, FinishHeaders(d, b.streamId, HasEndStream(b.flags), ExtractPath(b.bytes, VALUE_CAP)).core);
      }
    }
  }

  // ------------------------------------------------------------ other frames

  lemma ChargeConn(c: Core, length: nat)
    requires Good(c) && length <= AsSize(c.recvWindow)
    ensures GoodStep(c, c.(recvWindow := c.recvWindow - length))
  {
    ScalarStep(c, c.(recvWindow := c.recvWindow - length));
  }

  lemma DataOnClosedGood(c: Core, length: nat)
    requires Good(c)
    ensures GoodStep(c, DataOnClosed(c, length).core)
  {
    if AsSize(c.recvWindow) < length {
      StepRefl(c);
    } else {
      var d := c.(recvWindow := c.recvWindow - length);
      ChargeConn(c, length);
      RefreshConnGood(d);
      StepTrans(c, d, RefreshConn(d).core);
    }
  }

  lemma TakeData(c: Core, k: nat, length: nat, endStream: bool)
    requires Good(c) && TakesData(c, k)
    ensures GoodStep(c, SetSlot(c, k, ReceiveData(c.slots[k], length, endStream).slot))
  {
    assert SlotOk(c.log, c.lastStreamId, c.slots[k]);
    SlotStays(c, k, ReceiveData(c.slots[k], length, endStream).slot);
  }

  lemma AfterDataGood(c: Core, k: nat, ret: Code)
    requires Good(c) && k < |c.slots| && c.slots[k].id != 0
    ensures GoodStep(c, AfterData(c, k, ret).core)
  {
    if ret != NoError {
      StepRefl(c);
    } else {
      RefreshWindowsGood(c, if c.slots[k].state == Closed then None else Some(k));
    }
  }

  ghost predicate TakesData(c: Core, k: nat) {
    k < |c.slots| && (c.slots[k].state == Open || c.slots[k].state == HalfClosedLocal) && c.slots[k].id != 0
  }

  lemma ChargeBoth(c: Core, k: nat, length: nat, endStream: bool)
    requires Good(c) && TakesData(c, k) && length <= AsSize(c.recvWindow)
    ensures GoodStep(c, SetSlot(c.(recvWindow := c.recvWindow - length), k, ReceiveData(c.slots[k], length, endStream).slot))
  {
    var d := c.(recvWindow := c.recvWindow - length);
    var e := SetSlot(d, k, ReceiveData(c.slots[k], length, endStream).slot);
    ChargeConn(c, length);
    TakeData(d, k, length, endStream);
    StepTrans(c, d, e);
  }

  lemma DataOnOpenGood(c: Core, k: nat, length: nat, endStream: bool)
    requires Good(c) && TakesData(c, k)
    ensures GoodStep(c, DataOnOpen(c, k, length, endStream).core)
  {
    if AsSize(c.recvWindow) < length {
      StepRefl(c);
    } else {
      var taken := ReceiveData(c.slots[k], length, endStream);
      var e := SetSlot(c.(recvWindow := c.recvWindow - length), k, taken.slot);
      ChargeBoth(c, k, length, endStream);
      AfterDataGood(e, k, taken.ret);
      StepTrans(c, e, AfterData(e, k, taken.ret).core);
    }
  }

  lemma FoundIsOwned(c: Core, id: u32)
    requires Good(c) && id != 0 && Find(c.slots, id).Some?
    ensures var s := c.slots[Find(c.slots, id).value];
            s.id == id && s.id != 0 && SlotOk(c.log, c.lastStreamId, s) && s.id < U31_SPAN
  {
  }

  lemma ProcessDataGood(c: Core, h: FrameHeader, parsed: Result<DataPayload>)
    requires Good(c) && (parsed.Ok? ==> h.streamId != 0)
    ensures GoodStep(c, ProcessData(c, h, parsed).core)
  {
    StepRefl(c);
    if parsed.Ok? {
      var at := Find(c.slots, h.streamId);
      if at.Some? {
        FoundIsOwned(c, h.streamId);
        DataOnClosedGood(c, h.length);
        if c.slots[at.value].state == Open || c.slots[at.value].state == HalfClosedLocal {
          DataOnOpenGood(c, at.value, h.length, HasEndStream(h.flags));
        }
      }
    }
  }

  lemma CreditStreamGood(c: Core, k: nat, increment: u32)
    requires Good(c) && k < |c.slots| && c.slots[k].id != 0
    ensures GoodStep(c, CreditStream(c, k, increment).core)
  {
    var credited := AddSendWindow(c.slots[k], increment);
    var d := SetSlot(c, k, credited.slot);
    assert SlotOk(c.log, c.lastStreamId, c.slots[k]);
    SlotStays(c, k, credited.slot);
    if credited.ret == NoError {
      FlushFromGood(d, 0);
      StepTrans(c, d, FlushFrom(d, 0).core);
    }
  }

  lemma ProcessWindowUpdateGood(c: Core, streamId: u32, parsed: Result<u32>)
    requires Good(c)
    ensures GoodStep(c, ProcessWindowUpdate(c, streamId, parsed).core)
  {
    StepRefl(c);
    if parsed.Ok? {
      if streamId == 0 {
        if c.sendWindow + parsed.value <= INT32_MAX {
          var d := c.(sendWindow := c.sendWindow + parsed.value);
          ScalarStep(c, d);
          FlushFromGood(d, 0);
          StepTrans(c, d, FlushFrom(d, 0).core);
        }
      } else if Find(c.slots, streamId).Some? {
        FoundIsOwned(c, streamId);
        CreditStreamGood(c, Find(c.slots, streamId).value, parsed.value);
      }
    }
  }

  lemma ProcessRstStreamGood(c: Core, streamId: u32, parsed: Result<u32>)
    requires Good(c) && (parsed.Ok? ==> streamId != 0)
    ensures GoodStep(c, ProcessRstStream(c, streamId, parsed).core)
  {
    StepRefl(c);
    if parsed.Ok? && Find(c.slots, streamId).Some? {
      FoundIsOwned(c, streamId);
      CloseStep(c, Find(c.slots, streamId).value);
    }
  }

  lemma ProcessPingGood(c: Core, ack: bool, parsed: Result<seq<byte>>)
    requires Good(c) && (parsed.Ok? ==> |parsed.value| == 8)
    ensures GoodStep(c, ProcessPing(c, ack, parsed).core)
  {
    StepRefl(c);
    if parsed.Ok? && !ack {
      EmitStep(c, PingFrame(FLAG_ACK, parsed.value));
    }
  }

  lemma ProcessFrameGood(c: Core, h: FrameHeader, payload: seq<byte>)
    requires Good(c) && |payload| == h.length && h.streamId < U31_SPAN
    ensures GoodStep(c, ProcessFrame(c, h, payload).core)
  {
    StepRefl(c);
    if h.length <= c.maxFrameSize && !(c.block.open && (h.kind != CONTINUATION || h.streamId != c.block.streamId)) {
      if h.kind == DATA {
        ProcessDataGood(c, h, ParseData(h, payload));
      } else if h.kind == HEADERS {
        ProcessHeadersGood(c, h, ParseHeaders(h, payload));
      } else if h.kind == RST_STREAM {
        ProcessRstStreamGood(c, h.streamId, ParseRstStream(h, payload));
      } else if h.kind == SETTINGS {
        ApplySettingsGood(c, HasAck(h.flags), ParseSettings(h, payload, SETTINGS_MAX));
      } else if h.kind == PING {
        ProcessPingGood(c, HasAck(h.flags), ParsePing(h, payload));
      } else if h.kind == WINDOW_UPDATE {
        ProcessWindowUpdateGood(c, h.streamId, ParseWindowUpdate(h, payload));
      } else if h.kind == CONTINUATION {
        ProcessContinuationGood(c, h, ParseContinuation(h, payload));
      }
    }
  }

  // ------------------------------------------------------------------ errors

  lemma ResetStreamGood(c: Core, streamId: u32, errorCode: u32)
    requires Good(c) && 0 < streamId < U31_SPAN
    ensures GoodStep(c, ResetStream(c, streamId, errorCode).core)
  {
    var e := Emit(c, RstStreamFrame(streamId, errorCode));
    EmitStep(c, RstStreamFrame(streamId, errorCode));
    var at := Find(c.slots, streamId);
    if e.ret == NoError && at.Some? {
      CloseStep(e.core, at.value);
      StepTrans(c, e.core, SetSlot(e.core, at.value, Close(c.slots[at.value])));
    }
  }

  lemma QueueGoawayGood(c: Core, errorCode: u32)
    requires Good(c)
    ensures GoodStep(c, QueueGoaway(c, errorCode).core)
  {
    if c.goawaySent {
      StepRefl(c);
    } else {
      var d := c.(goawaySent := true, goawayError := errorCode);
      ScalarStep(c, d);
      EmitStep(d, GoawayFrame(c.lastStreamId, errorCode, []));
      StepTrans(c, d, Emit(d, GoawayFrame(c.lastStreamId, errorCode, [])).core);
    }
  }

  lemma RecoverGood(r: Step, streamId: u32)
    requires Good(r.core) && streamId < U31_SPAN
    ensures GoodStep(r.core, Recover(r, streamId).core)
  {
    if r.ret == NoError {
      StepRefl(r.core);
    } else if IsStreamError(r.ret) && streamId != 0 {
      ResetStreamGood(r.core, streamId, r.ret.Number());
    } else {
      QueueGoawayGood(r.core, r.ret.Number());
    }
  }

  lemma HandleFrameGood(c: Core, h: FrameHeader, payload: seq<byte>)
    requires Good(c) && |payload| == h.length && h.streamId < U31_SPAN
    ensures GoodStep(c, HandleFrame(c, h, payload).core)
  {
    var d := Note(c, In(h, payload));
    TakeStep(c, h, payload);
    ProcessFrameGood(d, h, payload);
    var r := ProcessFrame(d, h, payload);
    StepTrans(c, d, r.core);
    RecoverGood(r, h.streamId);
    StepTrans(c, r.core, Recover(r, h.streamId).core);
  }

  lemma {:induction false} DrainGood(c: Core, input: seq<byte>)
    requires Good(c)
    ensures GoodStep(c, Drain(c, input).core)
    decreases |input|
  {
    StepRefl(c);
    if FrameReady(input) {
      var h := ParseHeader(input).value;
      var r := HandleHead(c, input);
      HandleFrameGood(c, h, input[HEADER_LEN..FrameEnd(input)]);
      if r.ret == NoError {
        DrainGood(r.core, input[FrameEnd(input)..]);
        StepTrans(c, r.core, Drain(r.core, input[FrameEnd(input)..]).core);
      }
    }
  }

  // -------------------------------------------------------------------- runs

  const HELLO := Frame(SETTINGS, 0, 0, SettingsBytes([Setting(ENABLE_PUSH, 0)]))
  const REFUSAL := Frame(GOAWAY, 0, 0, Be32(0) + Be32(1))

  /** The output opens with SETTINGS once the preface is in; before that it is empty, or a lone GOAWAY
      that answers a wrong preface, which then stays at the head of the input. */
  ghost predicate Greeting(conn: Conn) {
    var log := conn.core.log;
    if conn.prefaceSeen then conn.settingsSent && FirstOut(log) == Some(HELLO)
    else
      && !conn.settingsSent && conn.core.lastStreamId == 0
      && (if conn.core.goawaySent
          then && FirstOut(log) == Some(REFUSAL) && OutCount(log) == 1
               && |conn.input| >= PREFACE_LEN && conn.input[..PREFACE_LEN] != PREFACE
          else OutCount(log) == 0)
  }

  ghost predicate ConnOk(conn: Conn) {
    Good(conn.core) && |conn.input| <= INPUT_CAP && Greeting(conn)
  }

  ghost predicate ConnStep(a: Conn, b: Conn) {
    ConnOk(b) && Keeps(a.core, b.core)
  }

  lemma DrainShrinks(c: Core, input: seq<byte>)
    ensures |Drain(c, input).rest| <= |input|
  {
  }

  /** A step of the connection that takes no output away. */
  ghost predicate FeedStep(a: Conn, b: Conn) {
    ConnStep(a, b) && b.core.drained == a.core.drained
  }

  lemma PumpOk(conn: Conn)
    requires ConnOk(conn) && conn.prefaceSeen
    ensures FeedStep(conn, Pump(conn).conn)
  {
    DrainGood(conn.core, conn.input);
    DrainShrinks(conn.core, conn.input);
  }

  lemma {:induction false} NothingOut(log: Log)
    requires OutCount(log) == 0
    ensures Wires(log) == [] && FirstOut(log) == None
    decreases |log|
  {
    if log != [] {
      NothingOut(Past(log));
    }
  }

  lemma NothingPending(c: Core)
    requires Framed(c) && OutCount(c.log) == 0
    ensures c.pending == [] && FirstOut(c.log) == None
  {
    NothingOut(c.log);
    assert |c.drained + c.pending| == 0;
  }

  lemma QueueSettingsOk(c: Core)
    requires Good(c) && OutCount(c.log) == 0
    ensures QueueSettings(c).ret == NoError && GoodStep(c, QueueSettings(c).core)
    ensures FirstOut(QueueSettings(c).core.log) == Some(HELLO)
  {
    NothingPending(c);
    assert SettingsFrame(0, [Setting(ENABLE_PUSH, 0)]) == Some(HELLO);
    EmitStep(c, Some(HELLO));
    NoteWhole(c.log, Out(HELLO));
  }

  lemma GreetOk(conn: Conn)
    requires Good(conn.core) && |conn.input| <= INPUT_CAP && conn.prefaceSeen && !conn.settingsSent
    requires OutCount(conn.core.log) == 0
    ensures FeedStep(conn, Greet(conn).conn)
  {
    QueueSettingsOk(conn.core);
    var r := QueueSettings(conn.core);
    var greeted := conn.(core := r.core, settingsSent := true);
    PumpOk(greeted);
    assert Greet(conn) == Pump(greeted);
    StepTrans(conn.core, r.core, Pump(greeted).conn.core);
  }

  lemma RefuseOk(conn: Conn)
    requires ConnOk(conn) && !conn.prefaceSeen && |conn.input| >= PREFACE_LEN && conn.input[..PREFACE_LEN] != PREFACE
    ensures FeedStep(conn, conn.(core := QueueGoaway(conn.core, 1).core))
  {
    var c := conn.core;
    QueueGoawayGood(c, 1);
    if !c.goawaySent {
      NothingPending(c);
      NoteWhole(c.log, Out(REFUSAL));
      assert Be32(0) + Be32(1) + [] == Be32(0) + Be32(1);
    }
  }

  lemma AppendInput(conn: Conn, data: seq<byte>)
    requires ConnOk(conn) && |data| <= INPUT_CAP - |conn.input|
    ensures FeedStep(conn, conn.(input := conn.input + data))
  {
    if conn.core.goawaySent && !conn.prefaceSeen {
      assert (conn.input + data)[..PREFACE_LEN] == conn.input[..PREFACE_LEN];
    }
    StepRefl(conn.core);
  }

  lemma FeedOk(conn: Conn, data: seq<byte>)
    requires ConnOk(conn)
    ensures FeedStep(conn, Feed(conn, data).conn)
  {
    StepRefl(conn.core);
    if |data| <= INPUT_CAP - |conn.input| {
      var fed := conn.(input := conn.input + data);
      AppendInput(conn, data);
      if conn.prefaceSeen {
        PumpOk(fed);
      } else if |fed.input| >= PREFACE_LEN {
        if fed.input[..PREFACE_LEN] != PREFACE {
          RefuseOk(fed);
        } else {
          GreetOk(fed.(prefaceSeen := true, input := fed.input[PREFACE_LEN..]));
        }
      }
    }
  }

  lemma ConsumeOk(conn: Conn, n: nat)
    requires ConnOk(conn)
    ensures ConnStep(conn, conn.(core := Consume(conn.core, n)))
  {
    var c, d := conn.core, Consume(conn.core, n);
    var taken := if n > |c.pending| then |c.pending| else n;
    assert c.pending == c.pending[..taken] + c.pending[taken..];
    Assoc(c.drained, c.pending[..taken], c.pending[taken..]);
    forall id: u32 | Retired(c, id) ensures Retired(d, id) {
    }
  }

  lemma ApplyOk(conn: Conn, op: Op)
    requires ConnOk(conn)
    ensures ConnStep(conn, Apply(conn, op).conn)
  {
    match op {
      case Receive(data) => FeedOk(conn, data);
      case Sent(n) => ConsumeOk(conn, n);
    }
  }

  lemma InitialOk()
    ensures ConnOk(InitialConn())
  {
    var c := InitialCore();
    forall k | 0 <= k < |c.slots| ensures SlotOk(c.log, c.lastStreamId, c.slots[k]) {
    }
  }

  /** After any sequence of feeds and partial writes, whatever the feeds returned. */
  lemma {:induction false} EveryRun(ops: seq<Op>)
    ensures ConnOk(Run(ops).conn)
    decreases |ops|
  {
    if ops == [] {
      InitialOk();
    } else {
      EveryRun(ops[..|ops| - 1]);
      ApplyOk(Run(ops[..|ops| - 1]).conn, ops[|ops| - 1]);
    }
  }
}
