/** What RST_STREAM from the peer does: exactly when it is accepted, that it closes its stream and nothing else,
    and that nothing is said for the stream any more. */
module Resets {
  import opened Bytes
  import opened FrameCodec
  import opened Streams
  import opened ConnectionSpec
  import opened History
  import opened Invariants
  import opened GoodSteps
  import opened GoodRuns
  import opened Requests
  import Runs = RunTheorems

  // ------------------------------------------------------------- one RST_STREAM

  /** The table with every slot of the stream closed: nothing but the id is left in it. */
  ghost predicate ClosedFor(before: seq<Slot>, after: seq<Slot>, id: u32) {
    && |after| == |before|
    && forall k :: 0 <= k < |before| ==>
         after[k] == if before[k].id == id then Slot(id, Closed, 0, 0, false, false, false, []) else before[k]
  }

  /** A stream that the peer has opened: its id is odd and not beyond the last one. */
  predicate WasOpened(c: Core, id: u32) {
    id % 2 == 1 && id <= c.lastStreamId
  }

  lemma NoSlotBefore(c: Core, id: u32)
    requires Good(c) && id != 0
    ensures Find(c.slots, id).Some? ==> WasOpened(c, id)
    ensures Find(c.slots, id).None? ==> forall k :: 0 <= k < |c.slots| ==> c.slots[k].id != id
  {
    FindIsFirst(c.slots, id, 0);
    if Find(c.slots, id).Some? {
      assert SlotOk(c.log, c.lastStreamId, c.slots[Find(c.slots, id).value]);
    }
  }

  lemma RstProcessed(c: Core, streamId: u32, parsed: Result<u32>)
    requires Good(c) && streamId != 0 && parsed.Ok?
    ensures var r := ProcessRstStream(c, streamId, parsed);
            && r.ret == (if WasOpened(c, streamId) then NoError else ProtocolError)
            && (r.ret == NoError ==> r.core == c.(slots := r.core.slots) && ClosedFor(c.slots, r.core.slots, streamId))
  {
    NoSlotBefore(c, streamId);
    assert Distinct(c.slots);
  }

  lemma RstDispatched(c: Core, h: FrameHeader, payload: seq<byte>)
    requires Good(c) && |payload| == h.length && h.kind == RST_STREAM
    ensures var r := ProcessFrame(c, h, payload);
            if h.streamId != 0 && h.length == 4 && !c.block.open then r == ProcessRstStream(c, h.streamId, Ok(Read32(payload)))
            else r.core == c && r.ret != NoError && !IsStreamError(r.ret)
  {
  }

  /** RST_STREAM is accepted exactly when it is four octets long, no header block is being received and its
      stream has been opened; it closes that stream's slot, and all other slots, windows and output stay. */
  lemma RstStreamIff(c: Core, h: FrameHeader, payload: seq<byte>)
    requires Good(c) && |payload| == h.length && h.kind == RST_STREAM && h.streamId < U31_SPAN
    ensures var r := HandleFrame(c, h, payload);
            && (r.ret == NoError <==> h.length == 4 && !c.block.open && WasOpened(c, h.streamId))
            && (r.ret == NoError ==> && r.core == c.(slots := r.core.slots, log := c.log + [In(h, payload)])
                                     && ClosedFor(c.slots, r.core.slots, h.streamId))
  {
    var e := Note(c, In(h, payload));
    TakeStep(c, h, payload);
    RstDispatched(e, h, payload);
    if h.streamId != 0 && h.length == 4 {
      RstProcessed(e, h.streamId, Ok(Read32(payload)));
    }
  }

  lemma RstRetires(c: Core, h: FrameHeader, payload: seq<byte>)
    requires Good(c) && |payload| == h.length && h.kind == RST_STREAM && h.streamId < U31_SPAN
    requires HandleFrame(c, h, payload).ret == NoError
    ensures var d := HandleFrame(c, h, payload).core;
            Retired(d, h.streamId) && d.log == c.log + [In(h, payload)] && Talk(d.log, h.streamId) == Talk(c.log, h.streamId)
  {
    RstStreamIff(c, h, payload);
    NoteStream(c.log, In(h, payload), h.streamId);
  }

  // ------------------------------------------------------------------- whole runs

  /** How much had been said for a stream when the first RST_STREAM for it came. */
  function SaidBefore(log: Log, id: u32): Option<nat> {
    if log == [] then None
    else if SaidBefore(Past(log), id).Some? then SaidBefore(Past(log), id)
    else if Takes(Last(log), RST_STREAM, id) then Some(Talk(Past(log), id))
    else None
  }

  lemma NoteSaid(log: Log, e: Event, id: u32)
    ensures SaidBefore(log + [e], id)
            == if SaidBefore(log, id).Some? then SaidBefore(log, id)
               else if Takes(e, RST_STREAM, id) then Some(Talk(log, id)) else None
  {
    NoteUnfolds(log, e);
  }

  lemma {:induction false} FollowsSaid(a: Log, b: Log, id: u32)
    requires Follows(a, b)
    ensures SaidBefore(b, id) == SaidBefore(a, id)
    decreases |b|
  {
    if b != a {
      FollowsSaid(a, Past(b), id);
    }
  }

  /** Streams that were reset are closed, and not a word has been said for them since. */
  ghost predicate Heeded(c: Core) {
    forall id: u32 :: SaidBefore(c.log, id).Some? ==> Retired(c, id) && Talk(c.log, id) == SaidBefore(c.log, id).value
  }

  lemma HandleFrameHeeds(c: Core, h: FrameHeader, payload: seq<byte>)
    requires Good(c) && Heeded(c) && |payload| == h.length && h.streamId < U31_SPAN
    requires HandleFrame(c, h, payload).ret == NoError
    ensures Heeded(HandleFrame(c, h, payload).core)
  {
    var e, d := In(h, payload), HandleFrame(c, h, payload).core;
    HandleFrameGood(c, h, payload);
    HandleFrameFollows(c, h, payload);
    if h.kind == RST_STREAM {
      RstRetires(c, h, payload);
    }
    forall id: u32 | SaidBefore(d.log, id).Some? ensures Retired(d, id) && Talk(d.log, id) == SaidBefore(d.log, id).value {
      FollowsSaid(c.log + [e], d.log, id);
      NoteSaid(c.log, e, id);
    }
  }

  lemma {:induction false} DrainHeeds(c: Core, input: seq<byte>)
    requires Good(c) && Heeded(c) && Drain(c, input).ret == NoError
    ensures Heeded(Drain(c, input).core)
    decreases |input|
  {
    if FrameReady(input) {
      var h, payload := ParseHeader(input).value, input[HEADER_LEN..FrameEnd(input)];
      HandleFrameGood(c, h, payload);
      HandleFrameHeeds(c, h, payload);
      DrainHeeds(HandleHead(c, input).core, input[FrameEnd(input)..]);
    }
  }

  /** Before the preface is answered nothing has been reset. */
  lemma GreetHeeds(c: Core)
    requires c.log == []
    ensures Heeded(c) && Heeded(QueueSettings(c).core)
  {
    var d := QueueSettings(c).core;
    forall id: u32 ensures SaidBefore(d.log, id) == None {
      assert d.log == [] || (d.log == [] + [Out(HELLO)] && SaidBefore([], id) == None);
      NoteSaid([], Out(HELLO), id);
    }
  }

  lemma FeedHeeds(conn: Conn, data: seq<byte>)
    requires ConnOk(conn) && Heeded(conn.core) && (!conn.prefaceSeen ==> conn.core.log == [])
    requires Feed(conn, data).ret == NoError
    ensures var fed := Feed(conn, data).conn; Heeded(fed.core) && (!fed.prefaceSeen ==> fed.core.log == [])
  {
    var fed := conn.(input := conn.input + data);
    AppendInput(conn, data);
    if conn.prefaceSeen {
      DrainHeeds(conn.core, fed.input);
    } else if |fed.input| >= PREFACE_LEN {
      QueueSettingsOk(conn.core);
      GreetHeeds(conn.core);
      DrainHeeds(QueueSettings(conn.core).core, fed.input[PREFACE_LEN..]);
    }
  }

  lemma {:induction false} EveryRunHeeds(ops: seq<Op>)
    requires Run(ops).allOk
    ensures var conn := Run(ops).conn; Heeded(conn.core) && (!conn.prefaceSeen ==> conn.core.log == [])
    decreases |ops|
  {
    if ops != [] {
      var before := ops[..|ops| - 1];
      EveryRunHeeds(before);
      EveryRun(before);
      match ops[|ops| - 1] {
        case Receive(data) => FeedHeeds(Run(before).conn, data);
        case Sent(n) => ConsumeHeeds(Run(before).conn.core, n);
      }
    }
  }

  lemma ConsumeHeeds(c: Core, n: nat)
    requires Heeded(c)
    ensures Heeded(Consume(c, n))
  {
    var d := Consume(c, n);
    forall id: u32 | SaidBefore(d.log, id).Some? ensures Retired(d, id) {
      assert Retired(c, id);
    }
  }

  lemma {:induction false} SaidAt(log: Log, k: nat)
    requires k < |log| && log[k].In? && log[k].header.kind == RST_STREAM
    ensures SaidBefore(log, log[k].header.streamId).Some?
    ensures SaidBefore(log, log[k].header.streamId).value <= Talk(log[..k], log[k].header.streamId) <= Talk(log, log[k].header.streamId)
    decreases |log|
  {
    var id := log[k].header.streamId;
    if k < |log| - 1 {
      SaidAt(Past(log), k);
      assert Past(log)[..k] == log[..k];
    } else {
      SaidIsPast(Past(log), id);
    }
  }

  lemma {:induction false} SaidIsPast(log: Log, id: u32)
    ensures SaidBefore(log, id).Some? ==> SaidBefore(log, id).value <= Talk(log, id)
    decreases |log|
  {
    if log != [] {
      SaidIsPast(Past(log), id);
    }
  }

  /** Once a feed has taken an RST_STREAM and succeeded, whatever comes later, failures included, no HEADERS,
      DATA or WINDOW_UPDATE follows for that stream: all that is ever said for it was said before. */
  lemma ResetStreamsStaySilent(ops: seq<Op>, more: seq<Op>, k: nat)
    requires Run(ops).allOk && k < |Runs.LogOf(ops)|
    requires Runs.LogOf(ops)[k].In? && Runs.LogOf(ops)[k].header.kind == RST_STREAM
    ensures var id := Runs.LogOf(ops)[k].header.streamId;
            Talk(Runs.LogOf(ops + more), id) == Talk(Runs.LogOf(ops)[..k], id)
  {
    EveryRunHeeds(ops);
    SaidAt(Runs.LogOf(ops), k);
    Runs.ClosedStreamsStaySilent(ops, more, Runs.LogOf(ops)[k].header.streamId);
  }
}
