/** Which frames a connection goes on after: the limits on length and order that hold of every frame taken, and
    for single kinds the exact conditions. */
module Admission {
  import opened Bytes
  import opened FrameCodec
  import opened HpackSpec
  import opened HpackStatic
  import opened Streams
  import opened ConnectionSpec
  import opened History
  import opened Invariants
  import opened GoodSteps
  import opened GoodRuns
  import opened LedgerRuns
  import opened LedgerSteps
  import opened Flushing
  import opened Telling
  import opened Requests

  // --------------------------------------------------- what the peer has set up

  /** The last frame size limit a list of settings asks for. */
  function LastFrameSize(items: seq<Setting>, current: u32): u32
    decreases |items|
  {
    if items == [] then current
    else LastFrameSize(items[1..], if items[0].id == MAX_FRAME_SIZE_ID then items[0].value else current)
  }

  function FrameSizeIn(e: Event, current: u32): u32 {
    if e.In? && e.header.kind == SETTINGS && !HasAck(e.header.flags) && |e.payload| % 6 == 0
    then LastFrameSize(SettingsIn(e.payload), current) else current
  }

  /** The SETTINGS_MAX_FRAME_SIZE last received. */
  function FrameLimit(log: Log): u32 {
    if log == [] then DEFAULT_MAX_FRAME_SIZE else FrameSizeIn(Last(log), FrameLimit(Past(log)))
  }

  function BlockAfter(e: Event, before: Option<u32>): Option<u32> {
    if e.In? && e.header.kind == HEADERS then if HasEndHeaders(e.header.flags) then None else Some(e.header.streamId)
    else if e.In? && e.header.kind == CONTINUATION && HasEndHeaders(e.header.flags) then None
    else before
  }

  /** The stream whose header block has begun and not ended. */
  function OpenBlock(log: Log): Option<u32> {
    if log == [] then None else BlockAfter(Last(log), OpenBlock(Past(log)))
  }

  /** A frame of lawful layout and length, and within a header block nothing but its continuation. */
  predicate Admissible(log: Log, e: Event) {
    e.In? ==>
      && Validate(e.header) == NoError && e.header.kind != PUSH_PROMISE
      && |e.payload| == e.header.length <= FrameLimit(log)
      && (match OpenBlock(log)
          case None => e.header.kind != CONTINUATION
          case Some(id) => e.header.kind == CONTINUATION && e.header.streamId == id)
  }

  ghost predicate Admitted(log: Log) {
    log == [] || (Admitted(Past(log)) && Admissible(Past(log), Last(log)))
  }

  /** The connection's limits are those the log gives, and every frame taken kept to them. */
  ghost predicate Strict(c: Core) {
    && c.maxFrameSize == FrameLimit(c.log)
    && OpenBlock(c.log) == (if c.block.open then Some(c.block.streamId) else None)
    && Admitted(c.log)
  }

  lemma NoteLimits(log: Log, e: Event)
    ensures FrameLimit(log + [e]) == FrameSizeIn(e, FrameLimit(log))
    ensures OpenBlock(log + [e]) == BlockAfter(e, OpenBlock(log))
    ensures Admitted(log + [e]) <==> Admitted(log) && Admissible(log, e)
  {
    NoteUnfolds(log, e);
  }

  lemma {:induction false} FollowsLimits(a: Log, b: Log)
    requires Follows(a, b)
    ensures FrameLimit(b) == FrameLimit(a) && OpenBlock(b) == OpenBlock(a) && (Admitted(b) <==> Admitted(a))
    decreases |b|
  {
    if b != a {
      FollowsLimits(a, Past(b));
    }
  }

  // ------------------------------------------------------------------ one frame

  /** What a frame must meet for the connection to go on after it, whatever its kind. */
  lemma SurvivorIsAdmissible(c: Core, h: FrameHeader, payload: seq<byte>)
    requires Good(c) && Strict(c) && |payload| == h.length && Survives(ProcessFrame(Note(c, In(h, payload)), h, payload).ret)
    ensures Admissible(c.log, In(h, payload))
  {
  }

  /** The limits in the state once a frame has been processed. */
  ghost predicate Settles(c: Core, h: FrameHeader, payload: seq<byte>, d: Core) {
    && d.maxFrameSize == FrameSizeIn(In(h, payload), c.maxFrameSize)
    && (if d.block.open then Some(d.block.streamId) else None)
       == BlockAfter(In(h, payload), if c.block.open then Some(c.block.streamId) else None)
  }

  lemma {:induction false} ApplyAllSets(c: Core, items: seq<Setting>)
    requires ApplyAll(c, items).ret == NoError
    ensures ApplyAll(c, items).core.maxFrameSize == LastFrameSize(items, c.maxFrameSize)
    decreases |items|
  {
    if items != [] {
      AdjustFromQuiet(c, items[0].value - c.initialWindow, 0);
      ApplyAllSets(ApplyOne(c, items[0]).core, items[1..]);
    }
  }

  lemma SettingsSettle(c: Core, h: FrameHeader, payload: seq<byte>)
    requires |payload| == h.length && h.kind == SETTINGS
    requires Survives(ApplySettings(c, HasAck(h.flags), ParseSettings(h, payload, SETTINGS_MAX)).ret)
    ensures Settles(c, h, payload, ApplySettings(c, HasAck(h.flags), ParseSettings(h, payload, SETTINGS_MAX)).core)
  {
    var parsed := ParseSettings(h, payload, SETTINGS_MAX);
    ApplySettingsSays(c, HasAck(h.flags), parsed);
    if parsed.Ok? && !HasAck(h.flags) {
      ApplyAllRet(c, parsed.value);
      ApplyAllSets(c, parsed.value);
    }
  }

  lemma HeadersSettle(c: Core, h: FrameHeader, payload: seq<byte>)
    requires !c.block.open && |payload| == h.length && h.kind == HEADERS
    requires Survives(ProcessHeaders(c, h, ParseHeaders(h, payload)).ret)
    ensures Settles(c, h, payload, ProcessHeaders(c, h, ParseHeaders(h, payload)).core)
  {
    var parsed := ParseHeaders(h, payload);
    if parsed.Ok? && HasEndHeaders(h.flags) {
      FinishHeadersTells(c, h.streamId, HasEndStream(h.flags), ExtractPath(parsed.value.block, VALUE_CAP));
    }
  }

  lemma ContinuationSettles(c: Core, h: FrameHeader, payload: seq<byte>)
    requires |payload| == h.length && h.kind == CONTINUATION
    requires Survives(ProcessContinuation(c, h, ParseContinuation(h, payload)).ret)
    ensures Settles(c, h, payload, ProcessContinuation(c, h, ParseContinuation(h, payload)).core)
  {
    var r := AppendBlock(c, payload);
    if r.ret == NoError && HasEndHeaders(h.flags) {
      var b := r.core.block;
      var d := r.core.(block := b.(open := false));
      FinishHeadersTells(d, b.streamId, HasEndStream(b.flags), ExtractPath(b.bytes, VALUE_CAP));
    }
  }

  lemma ProcessFrameSettles(c: Core, h: FrameHeader, payload: seq<byte>)
    requires |payload| == h.length && Survives(ProcessFrame(c, h, payload).ret)
    ensures Settles(c, h, payload, ProcessFrame(c, h, payload).core)
  {
    if h.kind == HEADERS {
      HeadersSettle(c, h, payload);
    } else if h.kind == CONTINUATION {
      ContinuationSettles(c, h, payload);
    } else if h.kind == SETTINGS {
      SettingsSettle(c, h, payload);
    } else {
      ProcessPlainSays(c, h, payload);
    }
  }

  lemma HandleFrameStrict(c: Core, h: FrameHeader, payload: seq<byte>)
    requires Good(c) && Strict(c) && |payload| == h.length && HandleFrame(c, h, payload).ret == NoError
    ensures Strict(HandleFrame(c, h, payload).core)
  {
    var e := Note(c, In(h, payload));
    var r := ProcessFrame(e, h, payload);
    SurvivorIsAdmissible(c, h, payload);
    ProcessFrameSettles(e, h, payload);
    RecoverQueues(r, h.streamId);
    NoteLimits(c.log, In(h, payload));
    HandleFrameFollows(c, h, payload);
    FollowsLimits(e.log, HandleFrame(c, h, payload).core.log);
  }

  // ------------------------------------------------------------------ whole runs

  lemma {:induction false} DrainStrict(c: Core, input: seq<byte>)
    requires Good(c) && Strict(c) && Drain(c, input).ret == NoError
    ensures Strict(Drain(c, input).core)
    decreases |input|
  {
    if FrameReady(input) {
      var h, payload := ParseHeader(input).value, input[HEADER_LEN..FrameEnd(input)];
      HandleFrameGood(c, h, payload);
      HandleFrameStrict(c, h, payload);
      DrainStrict(HandleHead(c, input).core, input[FrameEnd(input)..]);
    }
  }

  lemma GreetStrict(c: Core)
    requires Strict(c)
    ensures Strict(QueueSettings(c).core)
  {
    EmitSays(c, SettingsFrame(0, [Setting(ENABLE_PUSH, 0)]));
    ExtendsFollows(c.log, c.log, QueueSettings(c).core.log);
    FollowsLimits(c.log, QueueSettings(c).core.log);
  }

  lemma FeedStrict(conn: Conn, data: seq<byte>)
    requires ConnOk(conn) && Strict(conn.core) && Feed(conn, data).ret == NoError
    ensures Strict(Feed(conn, data).conn.core)
  {
    var fed := conn.(input := conn.input + data);
    if conn.prefaceSeen {
      DrainStrict(conn.core, fed.input);
    } else if |fed.input| >= PREFACE_LEN {
      QueueSettingsOk(conn.core);
      GreetStrict(conn.core);
      DrainStrict(QueueSettings(conn.core).core, fed.input[PREFACE_LEN..]);
    }
  }

  lemma {:induction false} EveryStrictRun(ops: seq<Op>)
    requires Run(ops).allOk
    ensures Strict(Run(ops).conn.core)
    decreases |ops|
  {
    if ops != [] {
      var before := ops[..|ops| - 1];
      EveryStrictRun(before);
      EveryRun(before);
      match ops[|ops| - 1] {
        case Receive(data) => FeedStrict(Run(before).conn, data);
        case Sent(_) =>
      }
    }
  }

  lemma {:induction false} AdmittedAt(log: Log, k: nat)
    requires Admitted(log) && k < |log|
    ensures Admissible(log[..k], log[k])
    decreases |log|
  {
    if k < |log| - 1 {
      AdmittedAt(Past(log), k);
      assert Past(log)[..k] == log[..k];
    }
  }

  /** On an all-OK run every frame received is valid, no PUSH_PROMISE, and no longer than the limit the peer's
      SETTINGS had last asked for; from a HEADERS frame without END_HEADERS up to the CONTINUATION with it, every
      frame is a CONTINUATION for the same stream, and there is no CONTINUATION anywhere else. */
  lemma FramesAreAdmissible(ops: seq<Op>, k: nat)
    requires Run(ops).allOk && k < |Run(ops).conn.core.log|
    ensures Admissible(Run(ops).conn.core.log[..k], Run(ops).conn.core.log[k])
  {
    EveryStrictRun(ops);
    AdmittedAt(Run(ops).conn.core.log, k);
  }

  // -------------------------------------------------------------------- SETTINGS

  /** The values of section 6.5.2 of RFC 7540. */
  predicate AllowedValue(item: Setting) {
    && (item.id == ENABLE_PUSH ==> item.value == 0 || item.value == 1)
    && (item.id == INITIAL_WINDOW_SIZE ==> item.value <= INT32_MAX)
    && (item.id == MAX_FRAME_SIZE_ID ==> 16384 <= item.value <= 16777215)
  }

  /** Every live stream's send window stays within 32 bits when the initial window becomes `initial`. */
  ghost predicate WindowsFit(c: Core, initial: int) {
    forall k :: 0 <= k < |c.slots| && Live(c.slots[k]) ==>
      INT32_MIN <= c.slots[k].sendWindow + (initial - c.initialWindow) <= INT32_MAX
  }

  ghost predicate Accepts(c: Core, item: Setting) {
    AllowedValue(item) && (item.id == INITIAL_WINDOW_SIZE ==> WindowsFit(c, item.value))
  }

  function Refusal(item: Setting): Code {
    if item.id == INITIAL_WINDOW_SIZE then FlowControlError else ProtocolError
  }

  lemma {:induction false} AdjustFits(c: Core, delta: int, k: nat)
    requires k <= |c.slots|
    requires forall j :: k <= j < |c.slots| && Live(c.slots[j]) ==> INT32_MIN <= c.slots[j].sendWindow + delta <= INT32_MAX
    ensures AdjustFrom(c, delta, k).ret == NoError
    decreases |c.slots| - k
  {
    if k < |c.slots| {
      AdjustFits(AdjustOne(c, delta, k).core, delta, k + 1);
    }
  }

  lemma {:induction false} AdjustCode(c: Core, delta: int, k: nat)
    requires k <= |c.slots|
    ensures AdjustFrom(c, delta, k).ret == NoError || AdjustFrom(c, delta, k).ret == FlowControlError
    decreases |c.slots| - k
  {
    if k < |c.slots| {
      AdjustCode(AdjustOne(c, delta, k).core, delta, k + 1);
    }
  }

  lemma ApplyOneIff(c: Core, item: Setting)
    ensures ApplyOne(c, item).ret == if Accepts(c, item) then NoError else Refusal(item)
  {
    if item.id == INITIAL_WINDOW_SIZE && item.value <= INT32_MAX {
      var delta := item.value - c.initialWindow;
      AdjustCode(c, delta, 0);
      if WindowsFit(c, item.value) {
        AdjustFits(c, delta, 0);
      } else if AdjustFrom(c, delta, 0).ret == NoError {
        ShiftFits(c, delta, 0);
      }
    }
  }

  lemma {:induction false} ShiftFits(c: Core, delta: int, k: nat)
    requires k <= |c.slots| && AdjustFrom(c, delta, k).ret == NoError
    ensures forall j :: k <= j < |c.slots| && Live(c.slots[j]) ==> INT32_MIN <= c.slots[j].sendWindow + delta <= INT32_MAX
    decreases |c.slots| - k
  {
    if k < |c.slots| {
      ShiftFits(AdjustOne(c, delta, k).core, delta, k + 1);
    }
  }

  /** Settings already applied do not change what is acceptable: shifts of the windows add up. */
  lemma AcceptsStays(c: Core, d: Core, item: Setting)
    requires Reset(c, d)
    ensures Accepts(d, item) <==> Accepts(c, item)
  {
    var initial := item.value;
    assert forall k :: 0 <= k < |c.slots| ==> (Live(d.slots[k]) <==> Live(c.slots[k]));
    assert forall k :: 0 <= k < |c.slots| && Live(c.slots[k]) ==>
      d.slots[k].sendWindow + (initial - d.initialWindow) == c.slots[k].sendWindow + (initial - c.initialWindow);
  }

  /** A list of settings is applied up to the first that is not acceptable to begin with, and that one decides
      the error. */
  lemma {:induction false} SettingsVerdict(c: Core, items: seq<Setting>) returns (n: nat)
    ensures n <= |items| && forall i :: 0 <= i < n ==> Accepts(c, items[i])
    ensures n < |items| ==> !Accepts(c, items[n])
    ensures ApplyAll(c, items).ret == if n == |items| then NoError else Refusal(items[n])
    decreases |items|
  {
    n := 0;
    if items != [] {
      ApplyOneIff(c, items[0]);
      if Accepts(c, items[0]) {
        ApplyOneResets(c, items[0]);
        var d := ApplyOne(c, items[0]).core;
        var m := SettingsVerdict(d, items[1..]);
        n := m + 1;
        forall i | 0 <= i < |items| ensures Accepts(d, items[i]) <==> Accepts(c, items[i]) {
          AcceptsStays(c, d, items[i]);
        }
        assert forall i :: 1 <= i < n ==> items[i] == items[1..][i - 1];
      }
    }
  }

  /** The list can be put in force and acknowledged. */
  ghost predicate Agreeable(c: Core, payload: seq<byte>) {
    && |payload| % 6 == 0 && |payload| / 6 <= 32
    && (forall i :: 0 <= i < |SettingsIn(payload)| ==> Accepts(c, SettingsIn(payload)[i]))
    && |c.pending| + HEADER_LEN <= OUTPUT_CAP
  }

  lemma ListVerdict(c: Core, e: Core, payload: seq<byte>)
    requires e == c.(log := e.log) && |payload| % 6 == 0 && |payload| / 6 <= 32
    ensures var r := ApplySettings(e, false, Ok(SettingsIn(payload)));
            !IsStreamError(r.ret) && (r.ret == NoError <==> Agreeable(c, payload))
  {
    var items := SettingsIn(payload);
    var r := ApplyAll(e, items);
    AllAccepted(c, e, items);
    ApplyListIs(e, items, r);
    ApplyAllRet(e, items);
    if r.ret == NoError {
      ApplyAllResets(e, items);
    }
  }

  lemma AllAccepted(c: Core, e: Core, items: seq<Setting>)
    requires e == c.(log := e.log)
    ensures ApplyAll(e, items).ret == NoError <==> forall i :: 0 <= i < |items| ==> Accepts(c, items[i])
  {
    var n := SettingsVerdict(e, items);
    assert forall i :: 0 <= i < |items| ==> (Accepts(e, items[i]) <==> Accepts(c, items[i]));
  }

  /** SETTINGS are accepted exactly when they are on stream 0, whole, at most 32, not amid a header block, each of
      them allowed and bearable for every live stream's window, and there is room for the acknowledgement. */
  lemma SettingsAcceptedIff(c: Core, h: FrameHeader, payload: seq<byte>)
    requires Good(c) && |payload| == h.length && h.kind == SETTINGS && !HasAck(h.flags)
    ensures HandleFrame(c, h, payload).ret == NoError <==> h.streamId == 0 && !c.block.open && Agreeable(c, payload)
  {
    var e := Note(c, In(h, payload));
    if h.length % 6 == 0 && h.length / 6 <= 32 {
      ListVerdict(c, e, payload);
    }
    SettingsDispatch(e, h, payload);
    NoStreamErrorInSettings(e, h, payload);
  }

  // -------------------------------------------------- frames that change nothing

  /** PRIORITY, GOAWAY, acknowledgements and frames of unknown kinds. */
  predicate Inert(h: FrameHeader) {
    || h.kind == PRIORITY || h.kind == GOAWAY || h.kind > CONTINUATION
    || ((h.kind == SETTINGS || h.kind == PING) && HasAck(h.flags))
  }

  /** Such a frame is accepted exactly when it is valid, short enough and not amid a header block, and, if it
      is PRIORITY, names another stream than its own; it leaves everything as it was. */
  lemma InertIff(c: Core, h: FrameHeader, payload: seq<byte>)
    requires Good(c) && |payload| == h.length && Inert(h)
    ensures var r := HandleFrame(c, h, payload);
            && (r.ret == NoError <==> && Validate(h) == NoError && h.length <= c.maxFrameSize && !c.block.open
                                      && (h.kind == PRIORITY ==> Read31(payload) != h.streamId))
            && (r.ret == NoError ==> r.core == Note(c, In(h, payload)))
  {
  }

  // --------------------------------------------------------------- a full table

  /** A whole request that nothing is wrong with but, perhaps, that there is no slot for it. */
  ghost predicate Proper(c: Core, h: FrameHeader, payload: seq<byte>) {
    && |payload| == h.length <= c.maxFrameSize && h.kind == HEADERS && HasEndHeaders(h.flags) && !c.block.open
    && ParseHeaders(h, payload).Ok? && h.streamId % 2 == 1 && c.lastStreamId < h.streamId < U31_SPAN
  }

  lemma {:induction false} FreeIff(slots: seq<Slot>, k: nat)
    requires k <= |slots|
    ensures FreeFrom(slots, k).None? <==> forall j :: k <= j < |slots| ==> Live(slots[j])
    decreases |slots| - k
  {
    if k < |slots| {
      FreeIff(slots, k + 1);
    }
  }

  lemma {:induction false} ExtendsOpened(a: Log, b: Log)
    requires Extends(a, b)
    ensures LastOpened(b) == LastOpened(a)
    decreases |b|
  {
    if b != a {
      ExtendsOpened(a, Past(b));
    }
  }

  lemma FinishOpensIff(c: Core, streamId: u32, endStream: bool, scan: PathScan)
    requires Good(c) && streamId % 2 == 1 && c.lastStreamId < streamId
    ensures var r := FinishHeaders(c, streamId, endStream, scan);
            if exists k :: 0 <= k < |c.slots| && !Live(c.slots[k]) then LastOpened(r.core.log) == streamId
            else r == Step(c, RefusedStream)
  {
    GetStreamIsFresh(c, streamId);
    FreeIff(c.slots, 0);
    var g := GetStream(c, streamId);
    NoneHolds(c, streamId);
    if g.at.Some? {
      var e := Note(g.core.(lastStreamId := streamId), Opened(streamId, scan.path));
      NoteWhole(c.log, Opened(streamId, scan.path));
      OpenStreamSays(e, g.at.value, endStream, scan);
      ExtendsOpened(e.log, OpenStream(e, g.at.value, endStream, scan).core.log);
    }
  }

  /** What becomes of a request: no slot, the error of its header block, or a response, if there is room for it. */
  lemma FinishCode(c: Core, streamId: u32, endStream: bool, scan: PathScan)
    requires Good(c) && streamId % 2 == 1 && c.lastStreamId < streamId < U31_SPAN && |scan.path| < VALUE_CAP
    ensures var ret := FinishHeaders(c, streamId, endStream, scan).ret;
            if forall k :: 0 <= k < |c.slots| ==> Live(c.slots[k]) then ret == RefusedStream
            else if scan.code != NoError then ret == scan.code
            else ret == NoError || ret == InternalError
  {
    GetStreamIsFresh(c, streamId);
    FreeIff(c.slots, 0);
    NoneHolds(c, streamId);
    var g := GetStream(c, streamId);
    if g.at.Some? && scan.code == NoError {
      var d := Entered(c, g.at.value, streamId, scan.path);
      EnteredGood(c, g.at.value, streamId, scan.path);
      EnteredDiscipline(c.log, c.lastStreamId, streamId, scan.path);
      HeadersTaken(d, g.at.value, scan.path, endStream);
      QueueResponseRet(SetSlot(d, g.at.value, ReceiveHeaders(d.slots[g.at.value].(path := scan.path), endStream).slot), g.at.value);
    }
  }

  /** A proper request is a stream error when the table is full or its path too long to keep, answered as
      Farewells.StreamErrorTells says; an error of its header block is the connection's; otherwise it is
      answered, if there is room. */
  lemma RequestVerdict(c: Core, h: FrameHeader, payload: seq<byte>)
    requires Good(c) && Proper(c, h, payload)
    ensures var code := ExtractPath(ParseHeaders(h, payload).value.block, VALUE_CAP).code;
            var ret := ProcessFrame(Note(c, In(h, payload)), h, payload).ret;
            if (forall k :: 0 <= k < |c.slots| ==> Live(c.slots[k])) || code == RefusedStream then ret == RefusedStream
            else if code != NoError then ret == code
            else ret == NoError || ret == InternalError
  {
    var scan := ExtractPath(ParseHeaders(h, payload).value.block, VALUE_CAP);
    TakeStep(c, h, payload);
    ScanIsShort(ParseHeaders(h, payload).value.block, [], VALUE_CAP);
    FinishCode(Note(c, In(h, payload)), h.streamId, HasEndStream(h.flags), scan);
  }

  lemma NoneHolds(c: Core, id: u32)
    requires Good(c) && c.lastStreamId < id
    ensures Find(c.slots, id).None?
  {
    forall k | 0 <= k < |c.slots| ensures c.slots[k].id != id {
      assert SlotOk(c.log, c.lastStreamId, c.slots[k]);
    }
  }

  /** A proper request opens its stream exactly when some slot of the table is unused or closed; when all 128
      streams are live it is refused, and no stream is opened. */
  lemma RequestOpensIff(c: Core, h: FrameHeader, payload: seq<byte>)
    requires Good(c) && Proper(c, h, payload)
    ensures var d := HandleFrame(c, h, payload).core;
            LastOpened(d.log) == if exists k :: 0 <= k < |c.slots| && !Live(c.slots[k]) then h.streamId else c.lastStreamId
  {
    var e := Note(c, In(h, payload));
    var scan := ExtractPath(ParseHeaders(h, payload).value.block, VALUE_CAP);
    var r := FinishHeaders(e, h.streamId, HasEndStream(h.flags), scan);
    TakeStep(c, h, payload);
    FinishOpensIff(e, h.streamId, HasEndStream(h.flags), scan);
    RecoverQueues(r, h.streamId);
    ExtendsOpened(r.core.log, Recover(r, h.streamId).core.log);
    NoteWhole(c.log, In(h, payload));
  }

  // -------------------------------------------------------------------- windows

  /** The send window that a WINDOW_UPDATE credits: the connection's, or a known stream's. */
  function Credited(c: Core, streamId: u32): Option<int> {
    if streamId == 0 then Some(c.sendWindow)
    else match Find(c.slots, streamId) case None => None case Some(k) => Some(c.slots[k].sendWindow)
  }

  lemma CreditCode(c: Core, h: FrameHeader, payload: seq<byte>)
    requires Good(c) && |payload| == h.length == 4 && h.kind == WINDOW_UPDATE && h.streamId < U31_SPAN && Read31(payload) > 0
    ensures var r := ProcessWindowUpdate(c, h.streamId, ParseWindowUpdate(h, payload));
            match Credited(c, h.streamId)
            case None => r == Step(c, NoError)
            case Some(window) =>
              if window + Read31(payload) > INT32_MAX then r.ret == FlowControlError
              else r.ret == NoError || r.ret == InternalError
  {
    var increment := Read31(payload);
    if h.streamId == 0 && c.sendWindow + increment <= INT32_MAX {
      var d := c.(sendWindow := c.sendWindow + increment);
      ScalarStep(c, d);
      FlushFromRet(d, 0);
    } else if h.streamId != 0 && Find(c.slots, h.streamId).Some? {
      var k := Find(c.slots, h.streamId).value;
      FoundIsOwned(c, h.streamId);
      if c.slots[k].sendWindow + increment <= INT32_MAX {
        CreditedGood(c, k, increment);
        FlushFromRet(SetSlot(c, k, AddSendWindow(c.slots[k], increment).slot), 0);
      }
    }
  }

  lemma UpdateDispatch(c: Core, h: FrameHeader, payload: seq<byte>, r: Step)
    requires |payload| == h.length == 4 && h.kind == WINDOW_UPDATE && !c.block.open && c.maxFrameSize >= 4
    requires r == ProcessWindowUpdate(c, h.streamId, ParseWindowUpdate(h, payload))
    ensures ProcessFrame(c, h, payload) == r
  {
  }

  lemma ZeroIsRefused(h: FrameHeader, payload: seq<byte>)
    requires |payload| == h.length == 4 && h.kind == WINDOW_UPDATE && Read31(payload) == 0
    ensures ParseWindowUpdate(h, payload) == Err(ProtocolError)
  {
  }

  /** Errors other than a stream's come through as they are. */
  lemma CodeKept(r: Step, streamId: u32)
    requires !IsStreamError(r.ret)
    ensures Recover(r, streamId).ret == r.ret && (r.ret == NoError ==> Recover(r, streamId) == r)
  {
  }

  /** A lawful WINDOW_UPDATE is a flow control error exactly when the window it credits would exceed 2^31-1;
      one for a stream that has no slot changes nothing. */
  lemma OverflowIff(c: Core, h: FrameHeader, payload: seq<byte>)
    requires Good(c) && |payload| == h.length == 4 && h.kind == WINDOW_UPDATE && h.streamId < U31_SPAN && !c.block.open
    ensures var r := HandleFrame(c, h, payload);
            && (Read31(payload) == 0 ==> r.ret == ProtocolError)
            && (Read31(payload) > 0 ==>
                  match Credited(c, h.streamId)
                  case None => r == Step(Note(c, In(h, payload)), NoError)
                  case Some(window) => r.ret == FlowControlError <==> window + Read31(payload) > INT32_MAX)
  {
    var e := Note(c, In(h, payload));
    var r := ProcessWindowUpdate(e, h.streamId, ParseWindowUpdate(h, payload));
    TakeStep(c, h, payload);
    UpdateDispatch(e, h, payload, r);
    if Read31(payload) > 0 {
      CreditCode(e, h, payload);
    } else {
      ZeroIsRefused(h, payload);
    }
    CodeKept(r, h.streamId);
  }

  predicate TakesMore(s: Slot) {
    s.state == Open || s.state == HalfClosedLocal
  }

  lemma DataCode(c: Core, h: FrameHeader, parsed: Result<DataPayload>, k: nat)
    requires Good(c) && h.length <= MAX_FRAME_SIZE && parsed.Ok? && Find(c.slots, h.streamId) == Some(k)
    ensures var r, s := ProcessData(c, h, parsed), c.slots[k];
            if h.length > c.recvWindow || (TakesMore(s) && h.length > s.recvWindow) then r.ret == FlowControlError
            else if !TakesMore(s) then r.ret == StreamClosed
            else r.ret == NoError || r.ret == InternalError
  {
    if TakesMore(c.slots[k]) && h.length <= c.recvWindow {
      var taken := ReceiveData(c.slots[k], h.length, HasEndStream(h.flags));
      var charged := SetSlot(c.(recvWindow := c.recvWindow - h.length), k, taken.slot);
      DataOnOpenCharges(c, k, h.length, HasEndStream(h.flags), charged, taken.ret);
    }
  }

  lemma DataDispatch(c: Core, h: FrameHeader, payload: seq<byte>, r: Step)
    requires |payload| == h.length <= c.maxFrameSize && h.kind == DATA && !c.block.open
    requires r == ProcessData(c, h, ParseData(h, payload))
    ensures ProcessFrame(c, h, payload) == r
  {
  }

  lemma RecoveredCode(r: Step, streamId: u32)
    requires r.ret == NoError || r.ret == InternalError || r.ret == StreamClosed
    ensures Recover(r, streamId).ret != FlowControlError
  {
  }

  /** DATA for a known stream is a flow control error exactly when it is longer than the connection's receive
      window or, while the stream still takes DATA, than the stream's own; for an unknown stream it is a protocol
      error. */
  lemma DataRefusedIff(c: Core, h: FrameHeader, payload: seq<byte>)
    requires Good(c) && |payload| == h.length <= c.maxFrameSize && !c.block.open && ParseData(h, payload).Ok? && h.streamId < U31_SPAN
    ensures var r := HandleFrame(c, h, payload);
            match Find(c.slots, h.streamId)
            case None => r.ret == ProtocolError
            case Some(k) =>
              r.ret == FlowControlError
              <==> h.length > c.recvWindow || (TakesMore(c.slots[k]) && h.length > c.slots[k].recvWindow)
  {
    var e := Note(c, In(h, payload));
    var r := ProcessData(e, h, ParseData(h, payload));
    TakeStep(c, h, payload);
    DataDispatch(e, h, payload, r);
    if Find(c.slots, h.streamId).Some? {
      DataCode(e, h, ParseData(h, payload), Find(c.slots, h.streamId).value);
      if r.ret == FlowControlError {
        CodeKept(r, h.streamId);
      } else {
        RecoveredCode(r, h.streamId);
      }
    } else {
      CodeKept(r, h.streamId);
    }
  }
}
