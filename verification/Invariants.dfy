/** What holds of the connection after every feed of every run, failed ones included. */
module Invariants {
  import opened Bytes
  import opened FrameCodec
  import opened HpackStatic
  import opened Streams
  import opened ConnectionSpec
  import opened History

  // ------------------------------------------------------------------- table

  ghost predicate Distinct(slots: seq<Slot>) {
    forall j, k :: 0 <= j < k < |slots| && slots[j].id != 0 ==> slots[j].id != slots[k].id
  }

  /** What each state says about the response flags, and the ranges of the 32-bit windows. */
  predicate Shape(s: Slot) {
    && |s.path| < VALUE_CAP
    && INT32_MIN <= s.sendWindow <= INT32_MAX
    && 0 <= s.recvWindow <= DEFAULT_WINDOW
    && (s.bodyDeferred ==> s.headersSent && (s.state == Open || s.state == HalfClosedRemote))
    && (s.headersSent ==> s.state != Idle && s.state != Closed)
    && (s.responseSent <==> s.state == HalfClosedLocal)
    && (s.responseSent ==> s.headersSent)
  }

  /** How many response frames the flags say have gone out. */
  function Count(s: Slot): nat {
    if s.responseSent then 2 else if s.headersSent then 1 else 0
  }

  ghost predicate SlotLog(log: Log, s: Slot) {
    Live(s) ==>
      && Answered(log, s.id) == Count(s)
      && (s.state != Idle ==> PathOrSlash(s.path) == PathOrSlash(PathOf(log, s.id)))
  }

  ghost predicate SlotOk(log: Log, last: u32, s: Slot) {
    s == BLANK || (0 < s.id <= last && s.id % 2 == 1 && Shape(s) && SlotLog(log, s))
  }

  ghost predicate Table(log: Log, last: u32, slots: seq<Slot>) {
    && |slots| == MAX_STREAMS
    && Distinct(slots)
    && last < U31_SPAN
    && forall k :: 0 <= k < |slots| ==> SlotOk(log, last, slots[k])
  }

  ghost predicate Discipline(log: Log, last: u32) {
    forall id: u32 :: |PathOf(log, id)| < VALUE_CAP && (id > last || id % 2 == 0 ==> Answered(log, id) == 0)
  }

  // ------------------------------------------------------------------ output

  ghost predicate Framed(c: Core) {
    c.drained + c.pending == Wires(c.log) && |c.pending| <= OUTPUT_CAP
  }

  predicate OneGoaway(c: Core) {
    Goaways(c.log) <= if c.goawaySent then 1 else 0
  }

  predicate Scalars(c: Core) {
    && 0 <= c.recvWindow <= DEFAULT_WINDOW
    && 0 <= c.sendWindow <= INT32_MAX
    && 0 <= c.initialWindow <= INT32_MAX
    && DEFAULT_MAX_FRAME_SIZE <= c.maxFrameSize <= MAX_FRAME_SIZE
    && |c.block.bytes| <= BLOCK_CAP
    && c.block.streamId < U31_SPAN
  }

  ghost predicate Good(c: Core) {
    && Table(c.log, c.lastStreamId, c.slots)
    && Discipline(c.log, c.lastStreamId)
    && LastOpened(c.log) == c.lastStreamId
    && Lawful(c.log)
    && Framed(c)
    && OneGoaway(c)
    && Scalars(c)
  }

  // ------------------------------------------------------------ over a step

  /** A stream that was opened and holds no live slot any more. */
  ghost predicate Retired(c: Core, id: u32) {
    0 < id <= c.lastStreamId && forall k :: 0 <= k < |c.slots| && c.slots[k].id == id ==> !Live(c.slots[k])
  }

  /** Nothing more is said for retired streams, and they stay retired; the first frame out stays first. */
  ghost predicate Keeps(c: Core, d: Core) {
    && c.lastStreamId <= d.lastStreamId
    && (FirstOut(c.log).Some? ==> FirstOut(d.log) == FirstOut(c.log))
    && forall id: u32 :: Retired(c, id) ==> Retired(d, id) && Talk(d.log, id) == Talk(c.log, id)
  }

  /** A step that only queues output, and takes none away. */
  ghost predicate GoodStep(c: Core, d: Core) {
    Good(d) && Keeps(c, d) && d.drained == c.drained
  }

  // ----------------------------------------------------- one event at a time

  lemma NoteUnfolds(log: Log, e: Event)
    ensures log + [e] != [] && Past(log + [e]) == log && Last(log + [e]) == e
  {
  }

  lemma NoteStream(log: Log, e: Event, id: u32)
    ensures Answered(log + [e], id) == Answered(log, id) + if Answers(e, id) then 1 else 0
    ensures PathOf(log + [e], id) == if e.Opened? && e.id == id then e.path else PathOf(log, id)
    ensures Talk(log + [e], id) == Talk(log, id) + if Answers(e, id) || Sends(e, WINDOW_UPDATE, id) then 1 else 0
  {
    NoteUnfolds(log, e);
  }

  lemma NoteWhole(log: Log, e: Event)
    ensures Lawful(log + [e]) <==> Lawful(log) && Allowed(log, e)
    ensures LastOpened(log + [e]) == if e.Opened? then e.id else LastOpened(log)
    ensures Goaways(log + [e]) == Goaways(log) + if e.Out? && e.frame.kind == GOAWAY then 1 else 0
    ensures OutCount(log + [e]) == OutCount(log) + if e.Out? then 1 else 0
    ensures FirstOut(log + [e]) == if FirstOut(log).Some? then FirstOut(log) else if e.Out? then Some(e.frame) else None
  {
    NoteUnfolds(log, e);
  }

  lemma NoteWires(log: Log, e: Event)
    ensures Wires(log + [e]) == if e.Out? && Encodable(e.frame) then Wires(log) + Wire(e.frame) else Wires(log)
  {
    NoteUnfolds(log, e);
  }

  /** An event that answers no stream leaves every response as it was. */
  lemma NoteSilent(log: Log, e: Event, last: u32, slots: seq<Slot>)
    requires e.In? || (e.Out? && e.frame.kind != HEADERS && e.frame.kind != DATA)
    requires Table(log, last, slots) && Discipline(log, last)
    ensures Table(log + [e], last, slots) && Discipline(log + [e], last)
  {
    forall id: u32 ensures Answered(log + [e], id) == Answered(log, id) && PathOf(log + [e], id) == PathOf(log, id) {
      NoteStream(log, e, id);
    }
    forall k | 0 <= k < |slots| ensures SlotOk(log + [e], last, slots[k]) {
      assert SlotOk(log, last, slots[k]);
    }
  }

  /** The frame a queueing step puts out keeps the octets in step with the log. */
  lemma EmitFramed(c: Core, f: Frame)
    requires Framed(c) && Emit(c, Some(f)).ret == NoError
    ensures Framed(Emit(c, Some(f)).core)
  {
    NoteWires(c.log, Out(f));
    Assoc(c.drained, c.pending, Wire(f));
  }
}
