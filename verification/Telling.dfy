/** What handling a frame adds to the history: the frame, the stream it opens if any, and frames queued. */
module Telling {
  import opened Bytes
  import opened FrameCodec
  import opened HpackSpec
  import opened Streams
  import opened ConnectionSpec
  import opened History

  /** `b` is `a` and then only frames queued. */
  ghost predicate Extends(a: Log, b: Log)
    decreases |b|
  {
    b == a || (b != [] && Last(b).Out? && Extends(a, Past(b)))
  }

  lemma {:induction false} ExtendsTrans(a: Log, b: Log, c: Log)
    requires Extends(a, b) && Extends(b, c)
    ensures Extends(a, c)
    decreases |c|
  {
    if c != b {
      ExtendsTrans(a, b, Past(c));
    }
  }

  lemma ExtendsOut(a: Log, f: Frame)
    ensures Extends(a, a + [Out(f)])
  {
    assert Past(a + [Out(f)]) == a && Last(a + [Out(f)]) == Out(f);
  }

  /** How many DATA frames have been queued. */
  function DataCount(log: Log): nat {
    if log == [] then 0
    else DataCount(Past(log)) + if Last(log).Out? && Last(log).frame.kind == DATA then 1 else 0
  }

  /** The same, counted in 32 bits. */
  function Tally(log: Log): u32 {
    if log == [] then 0
    else if Last(log).Out? && Last(log).frame.kind == DATA then (Tally(Past(log)) + 1) % U32_SPAN
    else Tally(Past(log))
  }

  lemma {:induction false} TallyCounts(log: Log)
    ensures Tally(log) == DataCount(log) % U32_SPAN
  {
    if log != [] {
      TallyCounts(Past(log));
    }
  }

  /** The counter of responses agrees with the log. */
  predicate Counted(c: Core) {
    c.responsesSent == Tally(c.log)
  }

  lemma NoteCount(c: Core, e: Event)
    ensures Tally(c.log + [e]) == if e.Out? && e.frame.kind == DATA then (Tally(c.log) + 1) % U32_SPAN else Tally(c.log)
    ensures !(e.Out? && e.frame.kind == DATA) ==> (Counted(Note(c, e)) <==> Counted(c))
  {
    assert Past(c.log + [e]) == c.log && Last(c.log + [e]) == e;
  }

  /** From `c` to `d` only frames have been queued, and counted, and the header block is untouched. */
  ghost predicate Queues(c: Core, d: Core) {
    d.block == c.block && Extends(c.log, d.log) && (Counted(c) ==> Counted(d))
  }

  /** Nor has a GOAWAY been decided on, or the peer's frame size limit changed. */
  ghost predicate Says(c: Core, d: Core) {
    Queues(c, d) && d.goawaySent == c.goawaySent && d.maxFrameSize == c.maxFrameSize
  }

  lemma SaysTrans(c: Core, d: Core, e: Core)
    requires Says(c, d) && Says(d, e)
    ensures Says(c, e)
  {
    ExtendsTrans(c.log, d.log, e.log);
  }

  lemma EmitSays(c: Core, frame: Option<Frame>)
    requires frame.Some? ==> frame.value.kind != DATA
    ensures Says(c, Emit(c, frame).core)
  {
    if frame.Some? {
      ExtendsOut(c.log, frame.value);
      NoteCount(c, Out(frame.value));
    }
  }

  // ---------------------------------------------------------- windows, settings

  lemma RefreshConnSays(c: Core)
    ensures Says(c, RefreshConn(c).core)
  {
    var increment := DEFAULT_WINDOW - c.recvWindow;
    EmitSays(c.(recvWindow := c.recvWindow + increment), WindowUpdateFrame(0, increment % U32_SPAN));
  }

  lemma RefreshStreamSays(c: Core, k: nat)
    requires k < |c.slots|
    ensures Says(c, RefreshStream(c, k).core)
  {
    var s := c.slots[k];
    var increment := DEFAULT_WINDOW - s.recvWindow;
    EmitSays(SetSlot(c, k, s.(recvWindow := s.recvWindow + increment)), WindowUpdateFrame(s.id, increment % U32_SPAN));
  }

  lemma RefreshWindowsSays(c: Core, at: Option<nat>)
    requires at.Some? ==> at.value < |c.slots|
    ensures Says(c, RefreshWindows(c, at).core)
  {
    var r := RefreshConn(c);
    RefreshConnSays(c);
    if at.Some? {
      RefreshStreamSays(r.core, at.value);
      SaysTrans(c, r.core, RefreshStream(r.core, at.value).core);
    }
  }

  lemma {:induction false} AdjustFromQuiet(c: Core, delta: int, k: nat)
    requires k <= |c.slots|
    ensures var d := AdjustFrom(c, delta, k).core; d == c.(slots := d.slots)
    decreases |c.slots| - k
  {
    if k < |c.slots| {
      AdjustFromQuiet(AdjustOne(c, delta, k).core, delta, k + 1);
    }
  }

  lemma {:induction false} ApplyAllQuiet(c: Core, items: seq<Setting>)
    ensures var d := ApplyAll(c, items).core;
            d.block == c.block && d.log == c.log && d.goawaySent == c.goawaySent && d.responsesSent == c.responsesSent
    decreases |items|
  {
    if items != [] {
      AdjustFromQuiet(c, items[0].value - c.initialWindow, 0);
      ApplyAllQuiet(ApplyOne(c, items[0]).core, items[1..]);
    }
  }

  lemma ApplySettingsSays(c: Core, ack: bool, parsed: Result<seq<Setting>>)
    ensures var d := ApplySettings(c, ack, parsed).core; Queues(c, d) && d.goawaySent == c.goawaySent
  {
    if parsed.Ok? {
      ApplyAllQuiet(c, parsed.value);
      EmitSays(ApplyAll(c, parsed.value).core, SettingsFrame(FLAG_ACK, []));
    }
  }

  // ----------------------------------------------------------------- responses

  lemma QueueHeadersSays(c: Core, k: nat, length: nat)
    requires k < |c.slots| && length < BODY_CAP
    ensures Says(c, QueueHeaders(c, k, length).core)
  {
    EmitSays(c, HeadersFrame(c.slots[k].id, FLAG_END_HEADERS, ResponseBlock(length)));
  }

  lemma QueueDeferredDataSays(c: Core, k: nat, body: seq<byte>)
    requires k < |c.slots|
    ensures Says(c, QueueDeferredData(c, k, body).core)
  {
    var frame := DataFrame(c.slots[k].id, FLAG_END_STREAM, body);
    if frame.Some? {
      ExtendsOut(c.log, frame.value);
      NoteCount(c, Out(frame.value));
    }
  }

  lemma QueueResponseSays(c: Core, k: nat)
    requires k < |c.slots|
    ensures Says(c, QueueResponse(c, k).core)
  {
    var s := c.slots[k];
    var named := SetSlot(c, k, s.(path := PathOrSlash(s.path)));
    if !s.responseSent && |Body(s)| < BODY_CAP {
      var r := QueueHeaders(named, k, |Body(s)|);
      QueueHeadersSays(named, k, |Body(s)|);
      QueueDeferredDataSays(r.core, k, Body(s));
      SaysTrans(named, r.core, QueueDeferredData(r.core, k, Body(s)).core);
    }
  }

  lemma {:induction false} FlushFromSays(c: Core, k: nat)
    requires k <= |c.slots|
    ensures Says(c, FlushFrom(c, k).core)
    decreases |c.slots| - k
  {
    if k < |c.slots| {
      var r := FlushOne(c, k);
      QueueResponseSays(c, k);
      FlushFromSays(r.core, k + 1);
      SaysTrans(c, r.core, FlushFrom(r.core, k + 1).core);
    }
  }

  // -------------------------------------------------------------- other frames

  lemma AfterDataSays(c: Core, k: nat, ret: Code)
    requires k < |c.slots|
    ensures Says(c, AfterData(c, k, ret).core)
  {
    RefreshWindowsSays(c, if c.slots[k].state == Closed then None else Some(k));
  }

  lemma DataOnOpenSays(c: Core, k: nat, length: nat, endStream: bool)
    requires k < |c.slots|
    ensures Says(c, DataOnOpen(c, k, length, endStream).core)
  {
    if AsSize(c.recvWindow) >= length {
      var taken := ReceiveData(c.slots[k], length, endStream);
      var charged := SetSlot(c.(recvWindow := c.recvWindow - length), k, taken.slot);
      DataOnOpenCharges(c, k, length, endStream, charged, taken.ret);
      AfterDataSays(charged, k, taken.ret);
      SaysTrans(c, charged, AfterData(charged, k, taken.ret).core);
    }
  }

  lemma DataOnClosedSays(c: Core, length: nat)
    ensures Says(c, DataOnClosed(c, length).core)
  {
    RefreshConnSays(c.(recvWindow := c.recvWindow - length));
  }

  lemma ProcessDataSays(c: Core, h: FrameHeader, parsed: Result<DataPayload>)
    ensures Says(c, ProcessData(c, h, parsed).core)
  {
    var at := Find(c.slots, h.streamId);
    if parsed.Ok? && at.Some? {
      DataOnOpenSays(c, at.value, h.length, HasEndStream(h.flags));
      DataOnClosedSays(c, h.length);
    }
  }

  lemma ProcessWindowUpdateSays(c: Core, streamId: u32, parsed: Result<u32>)
    ensures Says(c, ProcessWindowUpdate(c, streamId, parsed).core)
  {
    if parsed.Ok? {
      var at := Find(c.slots, streamId);
      if streamId == 0 {
        FlushFromSays(c.(sendWindow := c.sendWindow + parsed.value), 0);
      } else if at.Some? {
        FlushFromSays(SetSlot(c, at.value, AddSendWindow(c.slots[at.value], parsed.value).slot), 0);
      }
    }
  }

  lemma ResetStreamSays(c: Core, streamId: u32, errorCode: u32)
    ensures Says(c, ResetStream(c, streamId, errorCode).core)
  {
    EmitSays(c, RstStreamFrame(streamId, errorCode));
  }

  lemma RecoverQueues(r: Step, streamId: u32)
    ensures Queues(r.core, Recover(r, streamId).core) && Recover(r, streamId).core.maxFrameSize == r.core.maxFrameSize
    ensures Recover(r, streamId).ret == NoError ==> Says(r.core, Recover(r, streamId).core)
  {
    ResetStreamSays(r.core, streamId, r.ret.Number());
    EmitSays(r.core.(goawaySent := true, goawayError := r.ret.Number()),
             GoawayFrame(r.core.lastStreamId, r.ret.Number(), []));
  }

  /** Any frame that carries no header block. */
  lemma ProcessPlainSays(c: Core, h: FrameHeader, payload: seq<byte>)
    requires |payload| == h.length && h.kind != HEADERS && h.kind != CONTINUATION
    ensures var d := ProcessFrame(c, h, payload).core;
            Queues(c, d) && d.goawaySent == c.goawaySent && (h.kind != SETTINGS ==> Says(c, d))
  {
    if h.kind == DATA {
      ProcessDataSays(c, h, ParseData(h, payload));
    } else if h.kind == SETTINGS {
      ApplySettingsSays(c, HasAck(h.flags), ParseSettings(h, payload, SETTINGS_MAX));
    } else if h.kind == PING {
      PingSays(c, h, payload);
    } else if h.kind == WINDOW_UPDATE {
      ProcessWindowUpdateSays(c, h.streamId, ParseWindowUpdate(h, payload));
    }
  }

  lemma PingSays(c: Core, h: FrameHeader, payload: seq<byte>)
    requires |payload| == h.length
    ensures Says(c, ProcessPing(c, HasAck(h.flags), ParsePing(h, payload)).core)
  {
    if ParsePing(h, payload).Ok? {
      EmitSays(c, PingFrame(FLAG_ACK, payload));
    }
  }

  // ------------------------------------------------------------- header blocks

  /** A stream may have been opened first, for the path the block asks for. */
  ghost predicate MayOpen(c: Core, d: Core, streamId: u32, path: seq<byte>) {
    && d.block == c.block && d.goawaySent == c.goawaySent && d.maxFrameSize == c.maxFrameSize
    && (Counted(c) ==> Counted(d))
    && (Extends(c.log, d.log) || Extends(c.log + [Opened(streamId, path)], d.log))
  }

  lemma OpenStreamSays(c: Core, k: nat, endStream: bool, scan: PathScan)
    requires k < |c.slots|
    ensures Says(c, OpenStream(c, k, endStream, scan).core)
  {
    var moved := ReceiveHeaders(c.slots[k].(path := scan.path), endStream);
    QueueResponseSays(SetSlot(c, k, moved.slot), k);
  }

  lemma FinishHeadersTells(c: Core, streamId: u32, endStream: bool, scan: PathScan)
    ensures MayOpen(c, FinishHeaders(c, streamId, endStream, scan).core, streamId, scan.path)
  {
    var g := GetStream(c, streamId);
    if g.at.Some? {
      NoteCount(g.core.(lastStreamId := streamId), Opened(streamId, scan.path));
      OpenStreamSays(Note(g.core.(lastStreamId := streamId), Opened(streamId, scan.path)), g.at.value, endStream, scan);
    }
  }
}
