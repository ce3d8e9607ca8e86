/** How long a stream lives: from its request until both sides have ended it, or either has reset it. */
module Lifecycle {
  import opened Bytes
  import opened FrameCodec
  import opened HpackStatic
  import opened HpackSpec
  import opened Streams
  import opened ConnectionSpec
  import opened History
  import opened Invariants
  import opened GoodSteps
  import opened GoodResponses
  import opened GoodRuns
  import opened LedgerSteps
  import opened Telling
  import opened Flushing
  import opened Admission
  import opened Resets

  // ------------------------------------------------------------ what the log says

  /** Of a stream: has it been opened, has the peer ended it, has either side reset it since. */
  datatype Story = Story(begun: bool, ended: bool, reset: bool)

  function StoryOf(log: Log, id: u32): Story {
    if log == [] then Story(false, false, false)
    else
      var e, s := Last(log), StoryOf(Past(log), id);
      if e.Opened? && e.id == id then s.(begun := true, reset := false)
      else if Takes(e, HEADERS, id) && id > LastOpened(Past(log)) then s.(ended := HasEndStream(e.header.flags))
      else if Takes(e, DATA, id) then s.(ended := s.ended || HasEndStream(e.header.flags))
      else if Takes(e, RST_STREAM, id) || Sends(e, RST_STREAM, id) then s.(reset := true)
      else s
  }

  /** One event on. */
  function Told(log: Log, e: Event, id: u32): Story {
    var s := StoryOf(log, id);
    if e.Opened? && e.id == id then s.(begun := true, reset := false)
    else if Takes(e, HEADERS, id) && id > LastOpened(log) then s.(ended := HasEndStream(e.header.flags))
    else if Takes(e, DATA, id) then s.(ended := s.ended || HasEndStream(e.header.flags))
    else if Takes(e, RST_STREAM, id) || Sends(e, RST_STREAM, id) then s.(reset := true)
    else s
  }

  lemma NoteStory(log: Log, e: Event, id: u32)
    ensures StoryOf(log + [e], id) == Told(log, e, id)
  {
    NoteUnfolds(log, e);
  }

  /** A slot in use belongs to a stream that is open and not reset, and takes DATA until the peer has ended it. */
  ghost predicate SlotLives(log: Log, s: Slot) {
    Live(s) ==>
      && StoryOf(log, s.id).begun && !StoryOf(log, s.id).reset
      && (TakesMore(s) <==> !StoryOf(log, s.id).ended)
  }

  ghost predicate HasLive(slots: seq<Slot>, id: u32) {
    exists k :: 0 <= k < |slots| && slots[k].id == id && Live(slots[k])
  }

  /** Both sides are through with the stream. */
  ghost predicate Through(log: Log, id: u32) {
    StoryOf(log, id).ended && Answered(log, id) == 2
  }

  /** A stream that is gone was ended by both sides, or reset. */
  ghost predicate GoneIsThrough(log: Log, slots: seq<Slot>, id: u32) {
    StoryOf(log, id).begun && !StoryOf(log, id).reset && !HasLive(slots, id) ==> Through(log, id)
  }

  /** Every stream's slot and story agree, but for stream `except`. */
  ghost predicate AliveBut(c: Core, except: u32) {
    && (forall k :: 0 <= k < |c.slots| && c.slots[k].id != except ==> SlotLives(c.log, c.slots[k]))
    && (forall id: u32 :: id != except ==> GoneIsThrough(c.log, c.slots, id))
  }

  ghost predicate Alive(c: Core) {
    AliveBut(c, 0)
  }

  // -------------------------------------------------------------- quiet steps

  ghost predicate SameStory(a: Log, b: Log) {
    && LastOpened(b) == LastOpened(a)
    && forall id: u32 :: StoryOf(b, id) == StoryOf(a, id) && Answered(a, id) <= Answered(b, id)
  }

  /** What sending does to a slot: the last DATA half closes it or, if the peer has ended it, closes it. */
  ghost predicate Moves(log: Log, s: Slot, t: Slot) {
    && t.id == s.id
    && (t.state == s.state || (s.state == Open && t.state == HalfClosedLocal)
        || (s.state == HalfClosedRemote && t.state == Closed && Answered(log, s.id) == 2))
  }

  ghost predicate Moved(c: Core, d: Core) {
    && SameStory(c.log, d.log)
    && |d.slots| == |c.slots| && forall k :: 0 <= k < |c.slots| ==> Moves(d.log, c.slots[k], d.slots[k])
  }

  lemma MovedRefl(c: Core, d: Core)
    requires d.log == c.log && |d.slots| == |c.slots|
    requires forall k :: 0 <= k < |c.slots| ==> d.slots[k].id == c.slots[k].id && d.slots[k].state == c.slots[k].state
    ensures Moved(c, d)
  {
  }

  lemma {:induction false} AtMostTwo(log: Log, id: u32)
    requires Lawful(log)
    ensures Answered(log, id) <= 2
  {
    if log != [] {
      AtMostTwo(Past(log), id);
    }
  }

  lemma MovedTrans(a: Core, b: Core, c: Core)
    requires Moved(a, b) && Moved(b, c) && Good(c)
    ensures Moved(a, c)
  {
    forall k | 0 <= k < |a.slots| ensures Moves(c.log, a.slots[k], c.slots[k]) {
      assert Moves(b.log, a.slots[k], b.slots[k]) && Moves(c.log, b.slots[k], c.slots[k]);
      AtMostTwo(c.log, a.slots[k].id);
    }
  }

  lemma MovedSlots(c: Core, d: Core, except: u32)
    requires AliveBut(c, except) && Moved(c, d)
    ensures forall k :: 0 <= k < |d.slots| && d.slots[k].id != except ==> SlotLives(d.log, d.slots[k])
  {
    forall k | 0 <= k < |d.slots| && d.slots[k].id != except ensures SlotLives(d.log, d.slots[k]) {
      assert Moves(d.log, c.slots[k], d.slots[k]) && SlotLives(c.log, c.slots[k]);
    }
  }

  lemma MovedGone(c: Core, d: Core, except: u32, id: u32)
    requires AliveBut(c, except) && Moved(c, d) && Good(d) && id != except
    ensures GoneIsThrough(d.log, d.slots, id)
  {
    if HasLive(c.slots, id) {
      var k :| 0 <= k < |c.slots| && c.slots[k].id == id && Live(c.slots[k]);
      assert Moves(d.log, c.slots[k], d.slots[k]) && SlotLives(c.log, c.slots[k]);
      assert Live(d.slots[k]) || d.slots[k].state == Closed;
    } else {
      assert GoneIsThrough(c.log, c.slots, id);
      AtMostTwo(d.log, id);
    }
  }

  lemma MovedAlive(c: Core, d: Core, except: u32)
    requires AliveBut(c, except) && Moved(c, d) && Good(d)
    ensures AliveBut(d, except)
  {
    MovedSlots(c, d, except);
    forall id: u32 | id != except ensures GoneIsThrough(d.log, d.slots, id) {
      MovedGone(c, d, except, id);
    }
  }

  lemma EmitMoves(c: Core, frame: Option<Frame>)
    requires frame.Some? ==> frame.value.kind != RST_STREAM
    ensures Moved(c, Emit(c, frame).core)
  {
    var d := Emit(c, frame).core;
    if Emit(c, frame).ret == NoError {
      var e := Out(frame.value);
      NoteWhole(c.log, e);
      forall id: u32 ensures StoryOf(d.log, id) == StoryOf(c.log, id) && Answered(c.log, id) <= Answered(d.log, id) {
        NoteStory(c.log, e, id);
        NoteStream(c.log, e, id);
      }
    }
  }

  // ------------------------------------------------------------ windows, settings

  lemma RefreshConnMoves(c: Core)
    ensures Moved(c, RefreshConn(c).core)
  {
    if c.recvWindow > DEFAULT_WINDOW / 2 {
      MovedRefl(c, c);
    } else {
      var d := c.(recvWindow := DEFAULT_WINDOW);
      var increment := (DEFAULT_WINDOW - c.recvWindow) % U32_SPAN;
      EmitMoves(d, WindowUpdateFrame(0, increment));
      var e := Emit(d, WindowUpdateFrame(0, increment));
      assert RefreshConn(c) == e;
      MovedFrom(c, d, e.core);
    }
  }

  lemma MovedFrom(c: Core, d: Core, e: Core)
    requires d.log == c.log && d.slots == c.slots && Moved(d, e)
    ensures Moved(c, e)
  {
  }

  lemma RefreshStreamMoves(c: Core, k: nat)
    requires k < |c.slots| && Good(RefreshStream(c, k).core)
    ensures Moved(c, RefreshStream(c, k).core)
  {
    var s := c.slots[k];
    var increment := DEFAULT_WINDOW - s.recvWindow;
    var d := SetSlot(c, k, s.(recvWindow := s.recvWindow + increment));
    MovedRefl(c, c);
    if s.recvWindow <= DEFAULT_WINDOW / 2 {
      MovedRefl(c, d);
      EmitMoves(d, WindowUpdateFrame(s.id, increment % U32_SPAN));
      MovedTrans(c, d, RefreshStream(c, k).core);
    }
  }

  lemma RefreshWindowsMoves(c: Core, at: Option<nat>)
    requires Good(c) && (at.Some? ==> at.value < |c.slots| && Live(c.slots[at.value]))
    ensures Moved(c, RefreshWindows(c, at).core)
  {
    var r := RefreshConn(c);
    RefreshConnMoves(c);
    RefreshWindowsGood(c, at);
    if r.ret == NoError && at.Some? {
      RefreshStreamMoves(r.core, at.value);
      MovedTrans(c, r.core, RefreshStream(r.core, at.value).core);
    }
  }

  lemma {:induction false} AdjustFromMoves(c: Core, delta: int, k: nat)
    requires k <= |c.slots|
    ensures var d := AdjustFrom(c, delta, k).core;
            d.log == c.log && |d.slots| == |c.slots|
            && forall j :: 0 <= j < |c.slots| ==> d.slots[j].id == c.slots[j].id && d.slots[j].state == c.slots[j].state
    decreases |c.slots| - k
  {
    if k < |c.slots| {
      AdjustFromMoves(AdjustOne(c, delta, k).core, delta, k + 1);
    }
  }

  lemma {:induction false} ApplyAllMoves(c: Core, items: seq<Setting>)
    ensures var d := ApplyAll(c, items).core;
            d.log == c.log && |d.slots| == |c.slots|
            && forall j :: 0 <= j < |c.slots| ==> d.slots[j].id == c.slots[j].id && d.slots[j].state == c.slots[j].state
    decreases |items|
  {
    if items != [] {
      AdjustFromMoves(c, items[0].value - c.initialWindow, 0);
      ApplyAllMoves(ApplyOne(c, items[0]).core, items[1..]);
    }
  }

  lemma ApplySettingsMoves(c: Core, ack: bool, parsed: Result<seq<Setting>>)
    requires Good(c)
    ensures Moved(c, ApplySettings(c, ack, parsed).core)
  {
    MovedRefl(c, c);
    ApplySettingsGood(c, ack, parsed);
    if parsed.Ok? && !ack {
      var r := ApplyAll(c, parsed.value);
      ApplyAllMoves(c, parsed.value);
      MovedRefl(c, r.core);
      if r.ret == NoError {
        EmitMoves(r.core, SettingsFrame(FLAG_ACK, []));
        MovedTrans(c, r.core, ApplySettings(c, ack, parsed).core);
      }
    }
  }

  // ------------------------------------------------------------------ responses

  lemma QueueHeadersMoves(c: Core, k: nat, length: nat)
    requires k < |c.slots| && length < BODY_CAP && Good(QueueHeaders(c, k, length).core)
    ensures Moved(c, QueueHeaders(c, k, length).core)
  {
    var s := c.slots[k];
    var e := Emit(c, HeadersFrame(s.id, FLAG_END_HEADERS, ResponseBlock(length)));
    MovedRefl(c, c);
    EmitMoves(c, HeadersFrame(s.id, FLAG_END_HEADERS, ResponseBlock(length)));
    if !s.headersSent && e.ret == NoError {
      MovedRefl(e.core, QueueHeaders(c, k, length).core);
      MovedTrans(c, e.core, QueueHeaders(c, k, length).core);
    }
  }

  /** The DATA that ends the response: both frames have now been sent. */
  lemma DataSentMoves(c: Core, k: nat, e: Core, length: nat)
    requires k < |c.slots| && (c.slots[k].state == Open || c.slots[k].state == HalfClosedRemote)
    requires Moved(c, e) && e.slots == c.slots && Answered(e.log, c.slots[k].id) == 2
    ensures Moved(c, DataSent(e, k, length).core)
  {
    var d := DataSent(e, k, length).core;
    forall j | 0 <= j < |c.slots| ensures Moves(d.log, c.slots[j], d.slots[j]) {
      assert Moves(e.log, c.slots[j], e.slots[j]);
    }
  }

  lemma QueueDeferredDataMoves(c: Core, k: nat, body: seq<byte>)
    requires k < |c.slots| && (c.slots[k].state == Open || c.slots[k].state == HalfClosedRemote)
    requires Answered(c.log, c.slots[k].id) == 1
    ensures Moved(c, QueueDeferredData(c, k, body).core)
  {
    var s := c.slots[k];
    var frame := DataFrame(s.id, FLAG_END_STREAM, body);
    var e := Emit(c, frame);
    MovedRefl(c, SetSlot(c, k, s.(bodyDeferred := true)));
    EmitMoves(c, frame);
    if !Blocked(c, s, |body|) && e.ret == NoError {
      NoteStream(c.log, Out(frame.value), s.id);
      DataSentMoves(c, k, e.core, |body|);
    }
  }

  lemma QueueResponseMoves(c: Core, k: nat)
    requires Good(c) && Answering(c, k)
    ensures Moved(c, QueueResponse(c, k).core)
  {
    var s := c.slots[k];
    assert SlotOk(c.log, c.lastStreamId, s);
    var named := SetSlot(c, k, s.(path := PathOrSlash(s.path)));
    NameSlot(c, k);
    BodyIsExpected(c, k);
    MovedRefl(c, named);
    QueueHeadersGood(named, k);
    QueueHeadersMoves(named, k, |Body(s)|);
    var r := QueueHeaders(named, k, |Body(s)|);
    MovedTrans(c, named, r.core);
    if r.ret == NoError {
      BodyIsExpected(r.core, k);
      QueueDeferredDataGood(r.core, k);
      QueueDeferredDataMoves(r.core, k, Body(s));
      MovedTrans(c, r.core, QueueDeferredData(r.core, k, Body(s)).core);
    }
  }

  lemma FlushOneMoves(c: Core, k: nat)
    requires Good(c) && k < |c.slots|
    ensures Moved(c, FlushOne(c, k).core)
  {
    assert SlotOk(c.log, c.lastStreamId, c.slots[k]);
    MovedRefl(c, c);
    if Waiting(c.slots[k]) {
      QueueResponseMoves(c, k);
    }
  }

  lemma {:induction false} FlushFromMoves(c: Core, k: nat)
    requires Good(c) && k <= |c.slots|
    ensures Moved(c, FlushFrom(c, k).core)
    decreases |c.slots| - k
  {
    MovedRefl(c, c);
    if k < |c.slots| {
      var r := FlushOne(c, k);
      FlushOneMoves(c, k);
      FlushOneGood(c, k);
      FlushFromGood(r.core, k + 1);
      FlushFromMoves(r.core, k + 1);
      MovedTrans(c, r.core, FlushFrom(r.core, k + 1).core);
    }
  }

  // ------------------------------------------------------------ one frame received

  /** A frame concerns the story of its own stream only. */
  lemma TakenAlive(c: Core, h: FrameHeader, payload: seq<byte>)
    requires Alive(c) && Good(c)
    ensures AliveBut(Note(c, In(h, payload)), h.streamId)
    ensures h.kind != HEADERS && h.kind != DATA && h.kind != RST_STREAM ==> Moved(c, Note(c, In(h, payload)))
  {
    var e, d := In(h, payload), Note(c, In(h, payload));
    NoteWhole(c.log, e);
    forall id: u32
      ensures id != h.streamId ==> StoryOf(d.log, id) == StoryOf(c.log, id)
      ensures h.kind != HEADERS && h.kind != DATA && h.kind != RST_STREAM ==> StoryOf(d.log, id) == StoryOf(c.log, id)
      ensures Answered(d.log, id) == Answered(c.log, id) {
      NoteStory(c.log, e, id);
      NoteStream(c.log, e, id);
    }
    forall id: u32 | id != h.streamId ensures GoneIsThrough(d.log, d.slots, id) {
      if id == 0 {
        NoneIsZero(c.log);
        NoteStory(c.log, e, 0);
      } else {
        assert GoneIsThrough(c.log, c.slots, id);
      }
    }
  }

  /** Stream 0 is never opened. */
  lemma {:induction false} NoneIsZero(log: Log)
    requires Lawful(log)
    ensures !StoryOf(log, 0).begun
  {
    if log != [] {
      NoneIsZero(Past(log));
    }
  }

  /** The stream's slot and story agree again. */
  lemma SettledAlive(c: Core, id: u32)
    requires AliveBut(c, id) && Good(c)
    requires forall k :: 0 <= k < |c.slots| && c.slots[k].id == id ==> SlotLives(c.log, c.slots[k])
    requires GoneIsThrough(c.log, c.slots, id)
    ensures Alive(c)
  {
  }

  /** What is left of a frame that the connection survives: all in order, or all but the stream to be reset. */
  ghost predicate Leaves(r: Step, id: u32) {
    if r.ret == NoError then Alive(r.core) else AliveBut(r.core, id)
  }

  lemma AliveForgets(c: Core, id: u32)
    requires Alive(c) && Good(c)
    ensures AliveBut(c, id)
  {
    NoneIsZero(c.log);
    forall i: u32 | i != id ensures GoneIsThrough(c.log, c.slots, i) {
      assert i != 0 ==> GoneIsThrough(c.log, c.slots, i);
    }
  }

  // ----------------------------------------------------------------------- DATA

  /** DATA taken by slot `k`. */
  lemma ChargedAlive(c: Core, e: Core, h: FrameHeader, payload: seq<byte>, k: nat)
    requires Good(c) && Alive(c) && h.kind == DATA && h.streamId != 0 && h.length <= AsSize(c.recvWindow)
    requires e == Note(c, In(h, payload)) && Find(c.slots, h.streamId) == Some(k) && TakesMore(c.slots[k])
    requires ReceiveData(c.slots[k], h.length, HasEndStream(h.flags)).ret == NoError
    ensures var t := ReceiveData(c.slots[k], h.length, HasEndStream(h.flags)).slot;
            var d := SetSlot(e.(recvWindow := c.recvWindow - h.length), k, t);
            Good(d) && Alive(d)
  {
    var id, s := h.streamId, c.slots[k];
    var t := ReceiveData(s, h.length, HasEndStream(h.flags)).slot;
    var d := SetSlot(e.(recvWindow := c.recvWindow - h.length), k, t);
    assert SlotOk(c.log, c.lastStreamId, s) && SlotLives(c.log, s);
    TakenAlive(c, h, payload);
    TakeStep(c, h, payload);
    ChargeBoth(e, k, h.length, HasEndStream(h.flags));
    NoteStory(c.log, In(h, payload), id);
    NoteStream(c.log, In(h, payload), id);
    OneSlotAlive(e, d, k, id);
    assert Live(t) ==> d.slots[k].id == id;
    SettledAlive(d, id);
  }

  /** A step that changes only the stream's own slot leaves the others in order. */
  lemma OneSlotAlive(c: Core, d: Core, k: nat, id: u32)
    requires AliveBut(c, id) && k < |c.slots| && c.slots[k].id == id && d.log == c.log
    requires |d.slots| == |c.slots| && d.slots[k].id == id && d.slots == c.slots[k := d.slots[k]]
    ensures AliveBut(d, id)
  {
    forall i: u32 | i != id ensures GoneIsThrough(d.log, d.slots, i) {
      assert GoneIsThrough(c.log, c.slots, i);
      if HasLive(c.slots, i) {
        var j :| 0 <= j < |c.slots| && c.slots[j].id == i && Live(c.slots[j]);
        assert d.slots[j] == c.slots[j];
      }
    }
  }

  lemma SurvivingData(c: Core, k: nat, length: nat, endStream: bool)
    requires k < |c.slots| && TakesMore(c.slots[k]) && Survives(DataOnOpen(c, k, length, endStream).ret)
    ensures length <= AsSize(c.recvWindow) && ReceiveData(c.slots[k], length, endStream).ret == NoError
  {
    if length <= AsSize(c.recvWindow) {
      var taken := ReceiveData(c.slots[k], length, endStream);
      DataOnOpenCharges(c, k, length, endStream, SetSlot(c.(recvWindow := c.recvWindow - length), k, taken.slot), taken.ret);
    }
  }

  lemma DataOnOpenLives(c: Core, h: FrameHeader, payload: seq<byte>, k: nat)
    requires Good(c) && Alive(c) && h.kind == DATA && h.streamId != 0
    requires Find(c.slots, h.streamId) == Some(k) && TakesMore(c.slots[k])
    requires Survives(DataOnOpen(Note(c, In(h, payload)), k, h.length, HasEndStream(h.flags)).ret)
    ensures Leaves(DataOnOpen(Note(c, In(h, payload)), k, h.length, HasEndStream(h.flags)), h.streamId)
  {
    var e := Note(c, In(h, payload));
    var taken := ReceiveData(c.slots[k], h.length, HasEndStream(h.flags));
    var d := SetSlot(e.(recvWindow := c.recvWindow - h.length), k, taken.slot);
    SurvivingData(e, k, h.length, HasEndStream(h.flags));
    DataOnOpenCharges(e, k, h.length, HasEndStream(h.flags), d, taken.ret);
    ChargedAlive(c, e, h, payload, k);
    AfterDataLives(d, k);
    AfterDataCode(d, k);
  }

  lemma DataOnClosedLives(c: Core, length: nat, id: u32)
    requires Good(c) && AliveBut(c, id) && Survives(DataOnClosed(c, length).ret)
    ensures Leaves(DataOnClosed(c, length), id)
  {
    var d := c.(recvWindow := c.recvWindow - length);
    MovedRefl(c, d);
    RefreshConnMoves(d);
    DataOnClosedGood(c, length);
    ChargeConn(c, length);
    MovedAlive(c, d, id);
    MovedAlive(d, RefreshConn(d).core, id);
  }

  lemma ProcessDataLives(c: Core, h: FrameHeader, payload: seq<byte>)
    requires Good(c) && Alive(c) && |payload| == h.length && h.kind == DATA && h.streamId < U31_SPAN
    requires Survives(ProcessData(Note(c, In(h, payload)), h, ParseData(h, payload)).ret)
    ensures Leaves(ProcessData(Note(c, In(h, payload)), h, ParseData(h, payload)), h.streamId)
  {
    var k := Find(c.slots, h.streamId).value;
    if TakesMore(c.slots[k]) {
      DataOnOpenLives(c, h, payload, k);
    } else {
      TakenAlive(c, h, payload);
      TakeStep(c, h, payload);
      DataOnClosedLives(Note(c, In(h, payload)), h.length, h.streamId);
    }
  }

  lemma AfterDataCode(c: Core, k: nat)
    requires k < |c.slots|
    ensures AfterData(c, k, NoError).ret == NoError || AfterData(c, k, NoError).ret == InternalError
  {
  }

  lemma AfterDataLives(c: Core, k: nat)
    requires Good(c) && Alive(c) && k < |c.slots| && c.slots[k].id != 0
    ensures Alive(AfterData(c, k, NoError).core)
  {
    var at := if c.slots[k].state == Closed then None else Some(k);
    RefreshWindowsMoves(c, at);
    RefreshWindowsGood(c, at);
    MovedAlive(c, RefreshWindows(c, at).core, 0);
  }

  // ----------------------------------------------------------------- RST_STREAM

  lemma RstLives(c: Core, h: FrameHeader, payload: seq<byte>)
    requires Good(c) && Alive(c) && |payload| == h.length == 4 && h.kind == RST_STREAM && 0 < h.streamId < U31_SPAN
    requires ProcessRstStream(Note(c, In(h, payload)), h.streamId, Ok(Read32(payload))).ret == NoError
    ensures Alive(ProcessRstStream(Note(c, In(h, payload)), h.streamId, Ok(Read32(payload))).core)
  {
    var e, id := Note(c, In(h, payload)), h.streamId;
    var d := ProcessRstStream(e, id, Ok(Read32(payload))).core;
    TakenAlive(c, h, payload);
    TakeStep(c, h, payload);
    RstProcessed(e, id, Ok(Read32(payload)));
    ProcessRstStreamGood(e, id, Ok(Read32(payload)));
    ClosedForAlive(e, d, id);
    NoteStory(c.log, In(h, payload), id);
    SettledAlive(d, id);
  }

  lemma ClosedForAlive(c: Core, d: Core, id: u32)
    requires AliveBut(c, id) && d.log == c.log && ClosedFor(c.slots, d.slots, id)
    ensures AliveBut(d, id) && forall k :: 0 <= k < |d.slots| && d.slots[k].id == id ==> SlotLives(d.log, d.slots[k])
  {
    forall i: u32 | i != id ensures GoneIsThrough(d.log, d.slots, i) {
      assert GoneIsThrough(c.log, c.slots, i);
      if HasLive(c.slots, i) {
        var j :| 0 <= j < |c.slots| && c.slots[j].id == i && Live(c.slots[j]);
        assert d.slots[j] == c.slots[j];
      }
    }
  }

  // ------------------------------------------------------------------ new streams

  lemma EnteredSlots(c: Core, k: nat, id: u32, path: seq<byte>)
    requires AliveBut(c, id) && k < |c.slots|
    ensures var d := Entered(c, k, id, path);
            forall j :: 0 <= j < |d.slots| && d.slots[j].id != id ==> SlotLives(d.log, d.slots[j])
  {
    var e, d := Opened(id, path), Entered(c, k, id, path);
    forall j | 0 <= j < |d.slots| && d.slots[j].id != id ensures SlotLives(d.log, d.slots[j]) {
      assert SlotLives(c.log, c.slots[j]);
      NoteStory(c.log, e, c.slots[j].id);
    }
  }

  lemma EnteredGone(c: Core, k: nat, id: u32, path: seq<byte>, other: u32)
    requires AliveBut(c, id) && k < |c.slots| && Reusable(c.slots[k]) && other != id
    ensures var d := Entered(c, k, id, path); GoneIsThrough(d.log, d.slots, other)
  {
    var e, d := Opened(id, path), Entered(c, k, id, path);
    NoteStory(c.log, e, other);
    NoteStream(c.log, e, other);
    assert GoneIsThrough(c.log, c.slots, other);
    if HasLive(c.slots, other) {
      var j :| 0 <= j < |c.slots| && c.slots[j].id == other && Live(c.slots[j]);
      assert d.slots[j] == c.slots[j];
    }
  }

  /** A new stream takes a slot that no live stream held. */
  lemma EnteredAlive(c: Core, k: nat, id: u32, path: seq<byte>)
    requires AliveBut(c, id) && k < |c.slots| && Reusable(c.slots[k])
    ensures var d := Entered(c, k, id, path);
            && AliveBut(d, id)
            && StoryOf(d.log, id) == StoryOf(c.log, id).(begun := true, reset := false)
  {
    var d := Entered(c, k, id, path);
    NoteStory(c.log, Opened(id, path), id);
    EnteredSlots(c, k, id, path);
    forall i: u32 | i != id ensures GoneIsThrough(d.log, d.slots, i) {
      EnteredGone(c, k, id, path, i);
    }
  }

  /** The request's END_STREAM decides whether more DATA is expected. */
  lemma BegunAlive(c: Core, k: nat, endStream: bool, path: seq<byte>)
    requires Good(c) && Fresh(c, k, path) && |path| < VALUE_CAP && AliveBut(c, c.slots[k].id)
    requires StoryOf(c.log, c.slots[k].id) == Story(true, endStream, false)
    ensures Alive(SetSlot(c, k, ReceiveHeaders(c.slots[k].(path := path), endStream).slot))
  {
    var id := c.slots[k].id;
    var d := SetSlot(c, k, ReceiveHeaders(c.slots[k].(path := path), endStream).slot);
    HeadersTaken(c, k, path, endStream);
    OneSlotAlive(c, d, k, id);
    assert SlotLives(d.log, d.slots[k]);
    assert d.slots[k].id == id && Live(d.slots[k]);
    SettledAlive(d, id);
  }

  lemma FinishHeadersLives(c: Core, id: u32, endStream: bool, scan: PathScan)
    requires Good(c) && AliveBut(c, id) && id < U31_SPAN && |scan.path| < VALUE_CAP
    requires id > c.lastStreamId ==> StoryOf(c.log, id).ended == endStream
    requires Survives(FinishHeaders(c, id, endStream, scan).ret)
    ensures Leaves(FinishHeaders(c, id, endStream, scan), id)
  {
    GetStreamIsFresh(c, id);
    var g := GetStream(c, id);
    if g.at.Some? {
      var k := g.at.value;
      var d := Entered(c, k, id, scan.path);
      EnteredGood(c, k, id, scan.path);
      EnteredDiscipline(c.log, c.lastStreamId, id, scan.path);
      EnteredAlive(c, k, id, scan.path);
      OpenStreamLives(d, k, endStream, scan);
    }
  }

  lemma OpenStreamLives(c: Core, k: nat, endStream: bool, scan: PathScan)
    requires Good(c) && Fresh(c, k, scan.path) && |scan.path| < VALUE_CAP && AliveBut(c, c.slots[k].id)
    requires StoryOf(c.log, c.slots[k].id) == Story(true, endStream, false)
    requires Survives(OpenStream(c, k, endStream, scan).ret)
    ensures Leaves(OpenStream(c, k, endStream, scan), c.slots[k].id)
  {
    if scan.code != NoError {
      OneSlotAlive(c, SetSlot(c, k, c.slots[k].(path := scan.path)), k, c.slots[k].id);
    } else {
      var d := SetSlot(c, k, ReceiveHeaders(c.slots[k].(path := scan.path), endStream).slot);
      HeadersTaken(c, k, scan.path, endStream);
      BegunAlive(c, k, endStream, scan.path);
      QueueResponseMoves(d, k);
      QueueResponseGood(d, k);
      QueueResponseRet(d, k);
      MovedAlive(d, QueueResponse(d, k).core, 0);
    }
  }

  // ------------------------------------------------------------------ header blocks

  /** The block under assembly remembers whether its HEADERS ended the stream. */
  ghost predicate BlockEnds(c: Core) {
    c.block.open && c.block.streamId > c.lastStreamId
    ==> StoryOf(c.log, c.block.streamId).ended == HasEndStream(c.block.flags)
  }

  /** A stream that is not yet open has no slot and no end. */
  lemma NotYetBegun(c: Core, id: u32)
    requires Good(c) && id > c.lastStreamId
    ensures !StoryOf(c.log, id).begun && forall k :: 0 <= k < |c.slots| ==> c.slots[k].id != id
  {
    forall k | 0 <= k < |c.slots| ensures c.slots[k].id != id {
      assert SlotOk(c.log, c.lastStreamId, c.slots[k]);
    }
    BegunBelow(c.log, id);
  }

  lemma {:induction false} BegunBelow(log: Log, id: u32)
    requires Lawful(log) && id > LastOpened(log)
    ensures !StoryOf(log, id).begun
  {
    if log != [] {
      BegunBelow(Past(log), id);
    }
  }

  /** HEADERS without END_HEADERS: nothing happens to any stream yet. */
  lemma BlockOpenedLives(c: Core, h: FrameHeader, payload: seq<byte>)
    requires Good(c) && Alive(c) && h.kind == HEADERS
    ensures var e := Note(c, In(h, payload));
            Alive(e) && (h.streamId > c.lastStreamId ==> StoryOf(e.log, h.streamId).ended == HasEndStream(h.flags))
  {
    var e, id := Note(c, In(h, payload)), h.streamId;
    TakenAlive(c, h, payload);
    TakeStep(c, h, payload);
    NoteStory(c.log, In(h, payload), id);
    NoteStream(c.log, In(h, payload), id);
    if id > c.lastStreamId {
      NotYetBegun(c, id);
      SettledAlive(e, id);
    } else {
      assert StoryOf(e.log, id) == StoryOf(c.log, id);
      if id != 0 {
        assert GoneIsThrough(c.log, c.slots, id);
        SettledAlive(e, id);
      }
    }
  }

  lemma ProcessHeadersLives(c: Core, h: FrameHeader, payload: seq<byte>)
    requires Good(c) && Alive(c) && !c.block.open && |payload| == h.length && h.kind == HEADERS && h.streamId < U31_SPAN
    requires Survives(ProcessHeaders(Note(c, In(h, payload)), h, ParseHeaders(h, payload)).ret)
    ensures var r := ProcessHeaders(Note(c, In(h, payload)), h, ParseHeaders(h, payload));
            Leaves(r, h.streamId) && (r.core.block.open ==> BlockEnds(r.core))
  {
    var e := Note(c, In(h, payload));
    var parsed := ParseHeaders(h, payload);
    BlockOpenedLives(c, h, payload);
    TakeStep(c, h, payload);
    if HasEndHeaders(h.flags) {
      var scan := ExtractPath(parsed.value.block, VALUE_CAP);
      ScanIsShort(parsed.value.block, [], VALUE_CAP);
      AliveForgets(e, h.streamId);
      FinishHeadersLives(e, h.streamId, HasEndStream(h.flags), scan);
      FinishHeadersTells(e, h.streamId, HasEndStream(h.flags), scan);
    } else {
      var d := e.(block := Block(true, h.streamId, h.flags, []));
      MovedRefl(e, AppendBlock(d, parsed.value.block).core);
      ScalarStep(e, d);
      AppendBlockGood(d, parsed.value.block);
      MovedAlive(e, AppendBlock(d, parsed.value.block).core, 0);
    }
  }

  lemma ProcessContinuationLives(c: Core, h: FrameHeader, payload: seq<byte>)
    requires Good(c) && Alive(c) && BlockEnds(c) && |payload| == h.length && h.kind == CONTINUATION
    requires Survives(ProcessContinuation(Note(c, In(h, payload)), h, ParseContinuation(h, payload)).ret)
    ensures var r := ProcessContinuation(Note(c, In(h, payload)), h, ParseContinuation(h, payload));
            Leaves(r, h.streamId) && (r.core.block.open ==> BlockEnds(r.core))
  {
    var e := Note(c, In(h, payload));
    TakenAlive(c, h, payload);
    TakeStep(c, h, payload);
    MovedAlive(c, e, 0);
    var r := AppendBlock(e, payload);
    AppendBlockGood(e, payload);
    MovedRefl(e, r.core);
    MovedAlive(e, r.core, 0);
    if r.ret == NoError && HasEndHeaders(h.flags) {
      var b := r.core.block;
      var d := r.core.(block := b.(open := false));
      var scan := ExtractPath(b.bytes, VALUE_CAP);
      ScalarStep(r.core, d);
      MovedRefl(r.core, d);
      MovedAlive(r.core, d, 0);
      AliveForgets(d, b.streamId);
      ScanIsShort(b.bytes, [], VALUE_CAP);
      FinishHeadersLives(d, b.streamId, HasEndStream(b.flags), scan);
      FinishHeadersTells(d, b.streamId, HasEndStream(b.flags), scan);
    }
  }

  // ----------------------------------------------------------------- every frame

  lemma PlainLives(c: Core, h: FrameHeader, payload: seq<byte>)
    requires Good(c) && Alive(c) && |payload| == h.length && h.streamId < U31_SPAN
    requires h.kind != HEADERS && h.kind != CONTINUATION && h.kind != DATA && h.kind != RST_STREAM
    requires Survives(ProcessFrame(Note(c, In(h, payload)), h, payload).ret)
    ensures Leaves(ProcessFrame(Note(c, In(h, payload)), h, payload), h.streamId)
  {
    var e := Note(c, In(h, payload));
    var r := ProcessFrame(e, h, payload);
    TakenAlive(c, h, payload);
    TakeStep(c, h, payload);
    ProcessFrameGood(e, h, payload);
    PlainMoves(e, h, payload);
    MovedAlive(c, e, 0);
    MovedAlive(e, r.core, 0);
    AliveForgets(r.core, h.streamId);
  }

  lemma PlainMoves(c: Core, h: FrameHeader, payload: seq<byte>)
    requires Good(c) && |payload| == h.length && h.streamId < U31_SPAN
    requires h.kind != HEADERS && h.kind != CONTINUATION && h.kind != DATA && h.kind != RST_STREAM
    ensures Moved(c, ProcessFrame(c, h, payload).core)
  {
    MovedRefl(c, c);
    if h.kind == SETTINGS {
      ApplySettingsMoves(c, HasAck(h.flags), ParseSettings(h, payload, SETTINGS_MAX));
    } else if h.kind == PING {
      EmitMoves(c, PingFrame(FLAG_ACK, if |payload| == 8 then payload else [0, 0, 0, 0, 0, 0, 0, 0]));
    } else if h.kind == WINDOW_UPDATE {
      WindowUpdateMoves(c, h.streamId, ParseWindowUpdate(h, payload));
    }
  }

  lemma WindowUpdateMoves(c: Core, streamId: u32, parsed: Result<u32>)
    requires Good(c)
    ensures Moved(c, ProcessWindowUpdate(c, streamId, parsed).core)
  {
    MovedRefl(c, c);
    if parsed.Ok? && streamId == 0 && c.sendWindow + parsed.value <= INT32_MAX {
      var d := c.(sendWindow := c.sendWindow + parsed.value);
      ScalarStep(c, d);
      MovedRefl(c, d);
      FlushFromMoves(d, 0);
      FlushFromGood(d, 0);
      MovedTrans(c, d, FlushFrom(d, 0).core);
    } else if parsed.Ok? && streamId != 0 && Find(c.slots, streamId).Some? {
      CreditMoves(c, Find(c.slots, streamId).value, parsed.value);
    }
  }

  lemma CreditMoves(c: Core, k: nat, increment: u32)
    requires Good(c) && k < |c.slots| && c.slots[k].id != 0
    ensures Moved(c, CreditStream(c, k, increment).core)
  {
    var credited := AddSendWindow(c.slots[k], increment);
    var d := SetSlot(c, k, credited.slot);
    MovedRefl(c, d);
    CreditStreamGood(c, k, increment);
    if credited.ret == NoError {
      assert SlotOk(c.log, c.lastStreamId, c.slots[k]);
      SlotStays(c, k, credited.slot);
      FlushFromMoves(d, 0);
      FlushFromGood(d, 0);
      MovedTrans(c, d, FlushFrom(d, 0).core);
    }
  }

  lemma ProcessFrameLives(c: Core, h: FrameHeader, payload: seq<byte>)
    requires Good(c) && Alive(c) && BlockEnds(c) && |payload| == h.length && h.streamId < U31_SPAN
    requires Survives(ProcessFrame(Note(c, In(h, payload)), h, payload).ret)
    ensures var r := ProcessFrame(Note(c, In(h, payload)), h, payload);
            Leaves(r, h.streamId) && (r.core.block.open ==> BlockEnds(r.core))
  {
    var e := Note(c, In(h, payload));
    if h.kind == HEADERS {
      ProcessHeadersLives(c, h, payload);
    } else if h.kind == CONTINUATION {
      ProcessContinuationLives(c, h, payload);
    } else {
      ProcessFrameSettles(e, h, payload);
      if h.kind == DATA {
        ProcessDataLives(c, h, payload);
      } else if h.kind == RST_STREAM {
        TakeStep(c, h, payload);
        RstDispatched(e, h, payload);
        RstLives(c, h, payload);
      } else {
        PlainLives(c, h, payload);
      }
    }
  }

  /** A stream error closes the stream and says so. */
  lemma ResetLives(c: Core, id: u32, errorCode: u32)
    requires Good(c) && AliveBut(c, id) && 0 < id < U31_SPAN && ResetStream(c, id, errorCode).ret == NoError
    ensures Alive(ResetStream(c, id, errorCode).core)
  {
    var e, d := Emit(c, RstStreamFrame(id, errorCode)).core, ResetStream(c, id, errorCode).core;
    var f := Out(RstStreamFrame(id, errorCode).value);
    ResetStreamGood(c, id, errorCode);
    SaidReset(c, f.frame, id);
    NoSlotBefore(c, id);
    assert Distinct(c.slots);
    assert ClosedFor(e.slots, d.slots, id);
    ClosedForAlive(e, d, id);
    SettledAlive(d, id);
  }

  lemma SaidReset(c: Core, f: Frame, id: u32)
    requires AliveBut(c, id) && f.kind == RST_STREAM && f.streamId == id
    ensures var d := Note(c, Out(f)); AliveBut(d, id) && StoryOf(d.log, id).reset
  {
    var e, d := Out(f), Note(c, Out(f));
    NoteStory(c.log, e, id);
    forall k | 0 <= k < |c.slots| && c.slots[k].id != id ensures SlotLives(d.log, d.slots[k]) {
      NoteStory(c.log, e, c.slots[k].id);
      assert SlotLives(c.log, c.slots[k]);
    }
    forall i: u32 | i != id ensures GoneIsThrough(d.log, d.slots, i) {
      NoteStory(c.log, e, i);
      NoteStream(c.log, e, i);
      assert GoneIsThrough(c.log, c.slots, i);
    }
  }

  lemma HandleFrameLives(c: Core, h: FrameHeader, payload: seq<byte>)
    requires Good(c) && Alive(c) && BlockEnds(c) && |payload| == h.length && h.streamId < U31_SPAN
    requires HandleFrame(c, h, payload).ret == NoError
    ensures Alive(HandleFrame(c, h, payload).core) && BlockEnds(HandleFrame(c, h, payload).core)
  {
    var e := Note(c, In(h, payload));
    var r := ProcessFrame(e, h, payload);
    ProcessFrameLives(c, h, payload);
    TakeStep(c, h, payload);
    ProcessFrameGood(e, h, payload);
    if r.ret != NoError {
      ResetLives(r.core, h.streamId, r.ret.Number());
      BlockEndsStays(r.core, h.streamId, r.ret.Number());
    }
  }

  lemma BlockEndsStays(c: Core, id: u32, errorCode: u32)
    requires c.block.open ==> BlockEnds(c)
    ensures BlockEnds(ResetStream(c, id, errorCode).core)
  {
    var f := RstStreamFrame(id, errorCode);
    if f.Some? {
      NoteStory(c.log, Out(f.value), c.block.streamId);
    }
  }

  // ------------------------------------------------------------------- whole runs

  lemma {:induction false} DrainLives(c: Core, input: seq<byte>)
    requires Good(c) && Alive(c) && BlockEnds(c) && Drain(c, input).ret == NoError
    ensures Alive(Drain(c, input).core) && BlockEnds(Drain(c, input).core)
    decreases |input|
  {
    if FrameReady(input) {
      var h, payload := ParseHeader(input).value, input[HEADER_LEN..FrameEnd(input)];
      HandleFrameGood(c, h, payload);
      HandleFrameLives(c, h, payload);
      DrainLives(HandleHead(c, input).core, input[FrameEnd(input)..]);
    }
  }

  ghost predicate RunLives(conn: Conn) {
    Alive(conn.core) && BlockEnds(conn.core) && (!conn.prefaceSeen ==> !conn.core.block.open)
  }

  lemma FeedLives(conn: Conn, data: seq<byte>)
    requires ConnOk(conn) && RunLives(conn) && Feed(conn, data).ret == NoError
    ensures RunLives(Feed(conn, data).conn)
  {
    var fed := conn.(input := conn.input + data);
    AppendInput(conn, data);
    if conn.prefaceSeen {
      DrainLives(conn.core, fed.input);
    } else if |fed.input| >= PREFACE_LEN {
      QueueSettingsOk(conn.core);
      EmitMoves(conn.core, SettingsFrame(0, [Setting(ENABLE_PUSH, 0)]));
      MovedAlive(conn.core, QueueSettings(conn.core).core, 0);
      DrainLives(QueueSettings(conn.core).core, fed.input[PREFACE_LEN..]);
    }
  }

  lemma {:induction false} EveryRunLives(ops: seq<Op>)
    requires Run(ops).allOk
    ensures RunLives(Run(ops).conn)
    decreases |ops|
  {
    if ops == [] {
      assert forall id: u32 :: !StoryOf([], id).begun;
    } else {
      var before := ops[..|ops| - 1];
      EveryRunLives(before);
      EveryRun(before);
      match ops[|ops| - 1] {
        case Receive(data) => FeedLives(Run(before).conn, data);
        case Sent(n) =>
          var c, d := Run(before).conn.core, Consume(Run(before).conn.core, n);
          MovedRefl(c, d);
          EveryRun(ops);
          MovedAlive(c, d, 0);
      }
    }
  }

  /** On all-OK runs a stream that was opened is in the table until it is reset by either side, or the peer has
      sent END_STREAM and both frames of the response are out: no longer, and no less. */
  lemma StreamsLive(ops: seq<Op>, id: u32)
    requires Run(ops).allOk && StoryOf(Run(ops).conn.core.log, id).begun
    ensures var c := Run(ops).conn.core;
            HasLive(c.slots, id) <==> !StoryOf(c.log, id).reset && !Through(c.log, id)
  {
    EveryRunLives(ops);
    EveryRun(ops);
    var c := Run(ops).conn.core;
    NoneIsZero(c.log);
    assert GoneIsThrough(c.log, c.slots, id);
    if HasLive(c.slots, id) {
      var k :| 0 <= k < |c.slots| && c.slots[k].id == id && Live(c.slots[k]);
      assert SlotOk(c.log, c.lastStreamId, c.slots[k]) && SlotLives(c.log, c.slots[k]);
    }
  }

  /** And while it is there it takes DATA exactly until the peer has sent END_STREAM. */
  lemma TakesDataUntilEnd(ops: seq<Op>, k: nat)
    requires Run(ops).allOk && k < |Run(ops).conn.core.slots| && Live(Run(ops).conn.core.slots[k])
    ensures var c := Run(ops).conn.core; TakesMore(c.slots[k]) <==> !StoryOf(c.log, c.slots[k].id).ended
  {
    EveryRunLives(ops);
    assert SlotLives(Run(ops).conn.core.log, Run(ops).conn.core.slots[k]);
  }
}
