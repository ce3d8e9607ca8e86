/** Connections that differ only in a finished header block and in history answer everything alike from then on. */
module Futures {
  import opened Bytes
  import opened FrameCodec
  import opened HpackStatic
  import opened HpackSpec
  import opened Streams
  import opened ConnectionSpec
  import opened Telling
  import opened Fragmentation

  /** The same but for history and for what is left of a block that is done. */
  ghost predicate Alike(c: Core, d: Core) {
    Similar(c, d) && (c.block == d.block || (!c.block.open && !d.block.open))
  }

  ghost predicate AlikeSteps(r: Step, s: Step) {
    r.ret == s.ret && Alike(r.core, s.core)
  }

  /** A step that leaves the blocks as they were keeps two connections alike. */
  lemma AgreeAlike(c: Core, d: Core, r: Step, s: Step)
    requires Alike(c, d) && Agree(r, s) && Queues(c, r.core) && Queues(d, s.core)
    ensures AlikeSteps(r, s)
  {
  }

  // -------------------------------------------------- the frames without a block

  lemma RefreshConnAgrees(c: Core, d: Core)
    requires Similar(c, d)
    ensures Agree(RefreshConn(c), RefreshConn(d))
  {
    var increment := DEFAULT_WINDOW - c.recvWindow;
    EmitAgrees(c.(recvWindow := c.recvWindow + increment), d.(recvWindow := c.recvWindow + increment),
               WindowUpdateFrame(0, increment % U32_SPAN));
  }

  lemma RefreshStreamAgrees(c: Core, d: Core, k: nat)
    requires Similar(c, d) && k < |c.slots|
    ensures Agree(RefreshStream(c, k), RefreshStream(d, k))
  {
    var s := c.slots[k];
    var increment := DEFAULT_WINDOW - s.recvWindow;
    var t := s.(recvWindow := s.recvWindow + increment);
    EmitAgrees(SetSlot(c, k, t), SetSlot(d, k, t), WindowUpdateFrame(s.id, increment % U32_SPAN));
  }

  lemma RefreshWindowsAgrees(c: Core, d: Core, at: Option<nat>)
    requires Similar(c, d) && (at.Some? ==> at.value < |c.slots|)
    ensures Agree(RefreshWindows(c, at), RefreshWindows(d, at))
  {
    RefreshConnAgrees(c, d);
    if at.Some? {
      RefreshStreamAgrees(RefreshConn(c).core, RefreshConn(d).core, at.value);
    }
  }

  lemma {:induction false} AdjustFromAgrees(c: Core, d: Core, delta: int, k: nat)
    requires Similar(c, d) && k <= |c.slots|
    ensures Agree(AdjustFrom(c, delta, k), AdjustFrom(d, delta, k))
    decreases |c.slots| - k
  {
    if k < |c.slots| {
      AdjustFromAgrees(AdjustOne(c, delta, k).core, AdjustOne(d, delta, k).core, delta, k + 1);
    }
  }

  lemma {:induction false} ApplyAllAgrees(c: Core, d: Core, items: seq<Setting>)
    requires Similar(c, d)
    ensures Agree(ApplyAll(c, items), ApplyAll(d, items))
    decreases |items|
  {
    if items != [] {
      AdjustFromAgrees(c, d, items[0].value - c.initialWindow, 0);
      ApplyAllAgrees(ApplyOne(c, items[0]).core, ApplyOne(d, items[0]).core, items[1..]);
    }
  }

  lemma ApplySettingsAgrees(c: Core, d: Core, ack: bool, parsed: Result<seq<Setting>>)
    requires Similar(c, d)
    ensures Agree(ApplySettings(c, ack, parsed), ApplySettings(d, ack, parsed))
  {
    if parsed.Ok? {
      ApplyAllAgrees(c, d, parsed.value);
      EmitAgrees(ApplyAll(c, parsed.value).core, ApplyAll(d, parsed.value).core, SettingsFrame(FLAG_ACK, []));
    }
  }

  lemma {:induction false} FlushFromAgrees(c: Core, d: Core, k: nat)
    requires Similar(c, d) && k <= |c.slots|
    ensures Agree(FlushFrom(c, k), FlushFrom(d, k))
    decreases |c.slots| - k
  {
    if k < |c.slots| {
      QueueResponseAgrees(c, d, k);
      FlushFromAgrees(FlushOne(c, k).core, FlushOne(d, k).core, k + 1);
    }
  }

  lemma AfterDataAgrees(c: Core, d: Core, k: nat, ret: Code)
    requires Similar(c, d) && k < |c.slots|
    ensures Agree(AfterData(c, k, ret), AfterData(d, k, ret))
  {
    RefreshWindowsAgrees(c, d, if c.slots[k].state == Closed then None else Some(k));
  }

  lemma DataOnOpenAgrees(c: Core, d: Core, k: nat, length: nat, endStream: bool)
    requires Similar(c, d) && k < |c.slots|
    ensures Agree(DataOnOpen(c, k, length, endStream), DataOnOpen(d, k, length, endStream))
  {
    if AsSize(c.recvWindow) >= length {
      var taken := ReceiveData(c.slots[k], length, endStream);
      var w := c.recvWindow - length;
      var e, f := SetSlot(c.(recvWindow := w), k, taken.slot), SetSlot(d.(recvWindow := w), k, taken.slot);
      DataOnOpenCharges(c, k, length, endStream, e, taken.ret);
      DataOnOpenCharges(d, k, length, endStream, f, taken.ret);
      AfterDataAgrees(e, f, k, taken.ret);
    }
  }

  lemma DataOnClosedAgrees(c: Core, d: Core, length: nat)
    requires Similar(c, d)
    ensures Agree(DataOnClosed(c, length), DataOnClosed(d, length))
  {
    RefreshConnAgrees(c.(recvWindow := c.recvWindow - length), d.(recvWindow := c.recvWindow - length));
  }

  lemma ProcessDataAgrees(c: Core, d: Core, h: FrameHeader, parsed: Result<DataPayload>)
    requires Similar(c, d)
    ensures Agree(ProcessData(c, h, parsed), ProcessData(d, h, parsed))
  {
    var at := Find(c.slots, h.streamId);
    if parsed.Ok? && at.Some? {
      DataOnOpenAgrees(c, d, at.value, h.length, HasEndStream(h.flags));
      DataOnClosedAgrees(c, d, h.length);
    }
  }

  lemma ProcessWindowUpdateAgrees(c: Core, d: Core, streamId: u32, parsed: Result<u32>)
    requires Similar(c, d)
    ensures Agree(ProcessWindowUpdate(c, streamId, parsed), ProcessWindowUpdate(d, streamId, parsed))
  {
    if parsed.Ok? {
      var at := Find(c.slots, streamId);
      if streamId == 0 {
        var w := c.sendWindow + parsed.value;
        FlushFromAgrees(c.(sendWindow := w), d.(sendWindow := w), 0);
      } else if at.Some? {
        var s := AddSendWindow(c.slots[at.value], parsed.value).slot;
        FlushFromAgrees(SetSlot(c, at.value, s), SetSlot(d, at.value, s), 0);
      }
    }
  }

  lemma ProcessPlainAgrees(c: Core, d: Core, h: FrameHeader, payload: seq<byte>)
    requires Similar(c, d) && c.block.open == d.block.open && |payload| == h.length
    requires c.block.open ==> c.block == d.block
    requires h.kind != HEADERS && h.kind != CONTINUATION
    ensures Agree(ProcessFrame(c, h, payload), ProcessFrame(d, h, payload))
  {
    if h.kind == DATA {
      ProcessDataAgrees(c, d, h, ParseData(h, payload));
    } else if h.kind == SETTINGS {
      ApplySettingsAgrees(c, d, HasAck(h.flags), ParseSettings(h, payload, SETTINGS_MAX));
    } else if h.kind == PING {
      if ParsePing(h, payload).Ok? {
        EmitAgrees(c, d, PingFrame(FLAG_ACK, payload));
      }
    } else if h.kind == WINDOW_UPDATE {
      ProcessWindowUpdateAgrees(c, d, h.streamId, ParseWindowUpdate(h, payload));
    }
  }

  // ------------------------------------------------------------ header blocks

  lemma FinishHeadersAlike(c: Core, d: Core, streamId: u32, endStream: bool, scan: PathScan)
    requires Alike(c, d)
    ensures AlikeSteps(FinishHeaders(c, streamId, endStream, scan), FinishHeaders(d, streamId, endStream, scan))
  {
    FinishHeadersAgrees(c, d, streamId, endStream, scan);
    FinishHeadersTells(c, streamId, endStream, scan);
    FinishHeadersTells(d, streamId, endStream, scan);
  }

  lemma ProcessHeadersAlike(c: Core, d: Core, h: FrameHeader, parsed: Result<HeadersPayload>)
    requires Alike(c, d)
    ensures AlikeSteps(ProcessHeaders(c, h, parsed), ProcessHeaders(d, h, parsed))
  {
    if parsed.Ok? && HasEndHeaders(h.flags) {
      FinishHeadersAlike(c, d, h.streamId, HasEndStream(h.flags), ExtractPath(parsed.value.block, VALUE_CAP));
    }
  }

  lemma ProcessContinuationAlike(c: Core, d: Core, h: FrameHeader, parsed: Result<seq<byte>>)
    requires Alike(c, d)
    ensures AlikeSteps(ProcessContinuation(c, h, parsed), ProcessContinuation(d, h, parsed))
  {
    if c.block.open && parsed.Ok? {
      var b := AppendBlock(c, parsed.value).core.block;
      var e, f := AppendBlock(c, parsed.value).core, AppendBlock(d, parsed.value).core;
      FinishHeadersAlike(e.(block := b.(open := false)), f.(block := b.(open := false)), b.streamId, HasEndStream(b.flags),
                         ExtractPath(b.bytes, VALUE_CAP));
    }
  }

  lemma ProcessFrameAlike(c: Core, d: Core, h: FrameHeader, payload: seq<byte>)
    requires Alike(c, d) && |payload| == h.length
    ensures AlikeSteps(ProcessFrame(c, h, payload), ProcessFrame(d, h, payload))
  {
    if h.kind == HEADERS {
      ProcessHeadersAlike(c, d, h, ParseHeaders(h, payload));
    } else if h.kind == CONTINUATION {
      ProcessContinuationAlike(c, d, h, ParseContinuation(h, payload));
    } else {
      ProcessPlainAgrees(c, d, h, payload);
      ProcessPlainSays(c, h, payload);
      ProcessPlainSays(d, h, payload);
      AgreeAlike(c, d, ProcessFrame(c, h, payload), ProcessFrame(d, h, payload));
    }
  }

  lemma HandleFrameAlike(c: Core, d: Core, h: FrameHeader, payload: seq<byte>)
    requires Alike(c, d) && |payload| == h.length
    ensures AlikeSteps(HandleFrame(c, h, payload), HandleFrame(d, h, payload))
  {
    var e, f := Note(c, In(h, payload)), Note(d, In(h, payload));
    var r, s := ProcessFrame(e, h, payload), ProcessFrame(f, h, payload);
    ProcessFrameAlike(e, f, h, payload);
    RecoverAgrees(r, s, h.streamId);
    RecoverQueues(r, h.streamId);
    RecoverQueues(s, h.streamId);
    AgreeAlike(r.core, s.core, Recover(r, h.streamId), Recover(s, h.streamId));
  }

  // ---------------------------------------------------------------- from then on

  /** Two connections alike, with the same input waiting. */
  ghost predicate Twins(a: Conn, b: Conn) {
    a.(core := b.core) == b && Alike(a.core, b.core)
  }

  ghost predicate TwinFeds(f: Fed, g: Fed) {
    f.ret == g.ret && Twins(f.conn, g.conn)
  }

  lemma {:induction false} DrainAlike(c: Core, d: Core, input: seq<byte>)
    requires Alike(c, d)
    ensures var x, y := Drain(c, input), Drain(d, input); x.ret == y.ret && x.rest == y.rest && Alike(x.core, y.core)
    decreases |input|
  {
    if FrameReady(input) {
      HandleFrameAlike(c, d, ParseHeader(input).value, input[HEADER_LEN..FrameEnd(input)]);
      if HandleHead(c, input).ret == NoError {
        DrainAlike(HandleHead(c, input).core, HandleHead(d, input).core, input[FrameEnd(input)..]);
      }
    }
  }

  lemma PumpAlike(a: Conn, b: Conn)
    requires Twins(a, b)
    ensures TwinFeds(Pump(a), Pump(b))
  {
    DrainAlike(a.core, b.core, a.input);
  }

  lemma EmitAlike(c: Core, d: Core, frame: Option<Frame>)
    requires Alike(c, d)
    ensures AlikeSteps(Emit(c, frame), Emit(d, frame))
  {
  }

  lemma GreetAlike(a: Conn, b: Conn)
    requires Twins(a, b)
    ensures TwinFeds(Greet(a), Greet(b))
  {
    PumpAlike(a, b);
    EmitAlike(a.core, b.core, SettingsFrame(0, [Setting(ENABLE_PUSH, 0)]));
    var r, s := QueueSettings(a.core), QueueSettings(b.core);
    PumpAlike(a.(core := r.core, settingsSent := true), b.(core := s.core, settingsSent := true));
  }

  lemma AdvanceAlike(a: Conn, b: Conn)
    requires Twins(a, b)
    ensures TwinFeds(Advance(a), Advance(b))
  {
    if a.prefaceSeen {
      PumpAlike(a, b);
    } else if |a.input| >= PREFACE_LEN {
      EmitAlike(a.core.(goawaySent := true, goawayError := 1), b.core.(goawaySent := true, goawayError := 1),
                GoawayFrame(a.core.lastStreamId, 1, []));
      GreetAlike(a.(prefaceSeen := true, input := a.input[PREFACE_LEN..]), b.(prefaceSeen := true, input := a.input[PREFACE_LEN..]));
    }
  }

  lemma ApplyAlike(a: Conn, b: Conn, op: Op)
    requires Twins(a, b)
    ensures TwinFeds(Apply(a, op), Apply(b, op))
  {
    match op
    case Receive(data) =>
      AdvanceAlike(a.(input := a.input + data), b.(input := b.input + data));
    case Sent(n) =>
  }

  /** What a caller sees over the operations to come: each result, and the output pending after it. */
  function Seen(conn: Conn, ops: seq<Op>): seq<(Code, seq<byte>)>
    decreases |ops|
  {
    if ops == [] then []
    else
      var f := Apply(conn, ops[0]);
      [(f.ret, f.conn.core.pending)] + Seen(f.conn, ops[1..])
  }

  /** Whatever is received and sent from then on, the results and the output are the same. */
  lemma {:induction false} TwinsStayAlike(a: Conn, b: Conn, ops: seq<Op>)
    requires Twins(a, b)
    ensures Seen(a, ops) == Seen(b, ops)
    decreases |ops|
  {
    if ops != [] {
      ApplyAlike(a, b, ops[0]);
      TwinsStayAlike(Apply(a, ops[0]).conn, Apply(b, ops[0]).conn, ops[1..]);
    }
  }

  /** A header block cut over frames or fed whole: no later exchange can tell which. */
  lemma FragmentsForgotten(conn: Conn, first: Frame, rest: seq<Frame>, whole: Frame, ops: seq<Op>)
    requires Fragments(first, rest, whole) && !conn.core.block.open && conn.prefaceSeen && conn.input == []
    requires |first.payload| <= conn.core.maxFrameSize && Largest(rest) <= conn.core.maxFrameSize
    requires |whole.payload| <= conn.core.maxFrameSize
    requires forall i :: 0 <= i < |rest| ==> Encodable(rest[i])
    requires |Octets([first] + rest)| <= INPUT_CAP && |Octets([whole])| <= INPUT_CAP
    requires Feed(conn, Octets([whole])).ret == NoError
    ensures Seen(Feed(conn, Octets([first] + rest)).conn, ops) == Seen(Feed(conn, Octets([whole])).conn, ops)
  {
    FragmentsFed(conn, first, rest, whole);
    FeedKeepsFlags(conn, Octets([first] + rest));
    FeedKeepsFlags(conn, Octets([whole]));
    TwinsStayAlike(Feed(conn, Octets([first] + rest)).conn, Feed(conn, Octets([whole])).conn, ops);
  }

  lemma FeedKeepsFlags(conn: Conn, data: seq<byte>)
    requires conn.prefaceSeen && |data| <= INPUT_CAP - |conn.input|
    ensures var after := Feed(conn, data).conn; after.prefaceSeen && after.settingsSent == conn.settingsSent
  {
  }
}
