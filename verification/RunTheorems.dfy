/** The connection's guarantees over whole runs: any feeds, cut anywhere, with any partial writes between. */
module RunTheorems {
  import opened Bytes
  import opened FrameCodec
  import opened HpackSpec
  import opened Streams
  import opened ConnectionSpec
  import opened History
  import opened Invariants
  import opened GoodRuns
  import opened Ledger
  import opened LedgerRuns
  import opened Traces
  import opened Content

  function State(ops: seq<Op>): Core {
    Run(ops).conn.core
  }

  function LogOf(ops: seq<Op>): Log {
    State(ops).log
  }

  // -------------------------------------------------- every run, errors and all

  /** Each stream gets at most one HEADERS and then at most one DATA, which ends it. */
  lemma OutputDiscipline(ops: seq<Op>, id: u32)
    ensures var rs := Responses(LogOf(ops), id);
            && |rs| <= 2
            && (|rs| >= 1 ==> rs[0].kind == HEADERS && HasEndHeaders(rs[0].flags) && !HasEndStream(rs[0].flags))
            && (|rs| == 2 ==> rs[1].kind == DATA && HasEndStream(rs[1].flags))
            && (id % 2 == 0 || id > State(ops).lastStreamId ==> rs == [])
  {
    EveryRun(ops);
    LawfulResponses(LogOf(ops), id);
  }

  /** What the headers announce is what the body delivers, however long it was deferred. */
  lemma BodyAgreesWithHeaders(ops: seq<Op>, id: u32)
    ensures var rs := Responses(LogOf(ops), id);
            var body := PathOrSlash(PathOf(LogOf(ops), id)) + NEWLINE;
            && |body| < BODY_CAP
            && (|rs| >= 1 ==> && DecodeFrom(rs[0].payload, [], 4) == Ok(ResponseFields(|body|))
                              && Denotes(ResponseFields(|body|)[2].value) == |body|)
            && (|rs| == 2 ==> rs[1].payload == body)
  {
    EveryRun(ops);
    LawfulResponses(LogOf(ops), id);
    ResponseBlockDecodes(|BodyFor(PathOf(LogOf(ops), id))|);
  }

  lemma {:induction false} RunKeeps(ops: seq<Op>, more: seq<Op>)
    ensures Keeps(State(ops), State(ops + more))
    decreases |more|
  {
    if more == [] {
      assert ops + more == ops;
    } else {
      var init := more[..|more| - 1];
      RunKeeps(ops, init);
      EveryRun(ops + init);
      assert (ops + more)[..|ops + more| - 1] == ops + init;
      ApplyOk(Run(ops + init).conn, more[|more| - 1]);
      KeepsTrans(State(ops), State(ops + init), State(ops + more));
    }
  }

  lemma KeepsTrans(a: Core, b: Core, c: Core)
    requires Keeps(a, b) && Keeps(b, c)
    ensures Keeps(a, c)
  {
    forall id: u32 | Retired(a, id) ensures Retired(c, id) && Talk(c.log, id) == Talk(a.log, id) {
      assert Retired(b, id);
    }
  }

  /** Once an opened stream has no live slot, no HEADERS, DATA or WINDOW_UPDATE is ever queued for it again. */
  lemma ClosedStreamsStaySilent(ops: seq<Op>, more: seq<Op>, id: u32)
    requires Retired(State(ops), id)
    ensures Retired(State(ops + more), id) && Talk(LogOf(ops + more), id) == Talk(LogOf(ops), id)
  {
    RunKeeps(ops, more);
  }

  // ------------------------------------------------------------------ output

  /** What the caller has put on the wire: before each `Sent(n)`, the first `n` octets offered, or all there are. */
  function Written(ops: seq<Op>): seq<byte> {
    if ops == [] then []
    else
      var before := ops[..|ops| - 1];
      match ops[|ops| - 1]
      case Receive(_) => Written(before)
      case Sent(n) => Written(before) + Offered(State(before).pending, n)
  }

  function Offered(pending: seq<byte>, n: nat): seq<byte> {
    if n < |pending| then pending[..n] else pending
  }

  lemma {:induction false} WrittenIsDrained(ops: seq<Op>)
    ensures Written(ops) == State(ops).drained
    decreases |ops|
  {
    if ops != [] {
      var before := ops[..|ops| - 1];
      WrittenIsDrained(before);
      EveryRun(before);
      match ops[|ops| - 1] {
        case Receive(data) => FeedOk(Run(before).conn, data);
        case Sent(n) => assert State(before).pending[..|State(before).pending|] == State(before).pending;
      }
    }
  }

  /** Octets written and octets pending are together the exact serialisation of valid frames; they open
      with SETTINGS, or are a lone GOAWAY, and hold at most one GOAWAY. */
  lemma OutputFraming(ops: seq<Op>)
    ensures var c, frames := State(ops), Outs(LogOf(ops));
            && AllSendable(frames)
            && Written(ops) + c.pending == Serialise(frames)
            && (frames == [] || frames[0] == HELLO || frames == [REFUSAL])
            && CountGoaway(frames) <= 1
            && |c.pending| <= OUTPUT_CAP
  {
    EveryRun(ops);
    WrittenIsDrained(ops);
    LawfulOutput(LogOf(ops));
    FirstIsFirst(LogOf(ops));
    GoawaysCounted(LogOf(ops));
    if !Run(ops).conn.prefaceSeen && State(ops).goawaySent {
      assert Outs(LogOf(ops)) == [REFUSAL];
    }
  }

  /** Opened ids only ever rise, whatever slots they reuse, and none exceeds the last one. */
  lemma OpenedIdsRise(ops: seq<Op>, i: nat, j: nat)
    requires i < j < |LogOf(ops)| && LogOf(ops)[i].Opened? && LogOf(ops)[j].Opened?
    ensures LogOf(ops)[i].id < LogOf(ops)[j].id <= State(ops).lastStreamId && LogOf(ops)[j].id % 2 == 1
  {
    EveryRun(ops);
    OpenedAscends(LogOf(ops), i, j);
    OpenedBelow(LogOf(ops), j);
  }

  /** Every WINDOW_UPDATE ever sent grants more than half a window, so no window is topped up early. */
  lemma GrantsAreLarge(ops: seq<Op>, i: nat)
    requires i < |LogOf(ops)| && LogOf(ops)[i].Out? && LogOf(ops)[i].frame.kind == WINDOW_UPDATE
    ensures var payload := LogOf(ops)[i].frame.payload; |payload| == 4 && 32768 <= Read31(payload) <= 65535
  {
    EveryRun(ops);
    LawfulGrants(LogOf(ops), i);
  }

  /** The stream table on any run: 128 slots, those in use with distinct odd ids no higher than the last one
      opened, and response flags that agree with the state and with what was sent. */
  lemma TableOnEveryRun(ops: seq<Op>, k: nat)
    requires k < MAX_STREAMS
    ensures |State(ops).slots| == MAX_STREAMS
    ensures var s := State(ops).slots[k];
            s.id != 0 ==>
              && s.id % 2 == 1 && s.id <= State(ops).lastStreamId
              && (forall j :: 0 <= j < MAX_STREAMS && j != k ==> State(ops).slots[j].id != s.id)
              && (s.bodyDeferred ==> s.headersSent && (s.state == Open || s.state == HalfClosedRemote))
              && (s.responseSent <==> s.state == HalfClosedLocal)
              && (Live(s) ==> |Responses(LogOf(ops), s.id)| == if s.responseSent then 2 else if s.headersSent then 1 else 0)
  {
    EveryRun(ops);
    var s := State(ops).slots[k];
    assert SlotOk(LogOf(ops), State(ops).lastStreamId, s);
    LawfulResponses(LogOf(ops), s.id);
  }

  // ------------------------------------------------------------ all-OK runs

  /** Send windows are what was granted less what was sent, through every change of the initial window. */
  lemma SendWindowConservation(ops: seq<Op>)
    requires Run(ops).allOk
    ensures State(ops).sendWindow == ConnSend(LogOf(ops))
    ensures State(ops).initialWindow == InitialWindow(LogOf(ops))
    ensures |State(ops).slots| == MAX_STREAMS
    ensures forall k :: 0 <= k < |State(ops).slots| && Live(State(ops).slots[k]) ==>
              State(ops).slots[k].sendWindow == InitialWindow(LogOf(ops)) + SendCredit(LogOf(ops), State(ops).slots[k].id)
  {
    EveryGoodRun(ops);
    var c := State(ops);
    forall k | 0 <= k < |c.slots| && Live(c.slots[k])
      ensures c.slots[k].sendWindow == InitialWindow(c.log) + SendCredit(c.log, c.slots[k].id) {
      assert SlotBooked(c.log, c.initialWindow, c.slots[k]);
    }
  }

  /** Receive windows are what was granted less what was received, and stay more than half open. */
  lemma ReceiveWindowConservation(ops: seq<Op>)
    requires Run(ops).allOk
    ensures State(ops).recvWindow == ConnRecv(LogOf(ops))
    ensures 32768 <= State(ops).recvWindow <= 65535
    ensures |State(ops).slots| == MAX_STREAMS
    ensures forall k :: 0 <= k < |State(ops).slots| && Live(State(ops).slots[k]) ==>
              && State(ops).slots[k].recvWindow == DEFAULT_WINDOW + RecvCredit(LogOf(ops), State(ops).slots[k].id)
              && 32768 <= State(ops).slots[k].recvWindow <= 65535
  {
    EveryGoodRun(ops);
    var c := State(ops);
    forall k | 0 <= k < |c.slots| && Live(c.slots[k])
      ensures c.slots[k].recvWindow == DEFAULT_WINDOW + RecvCredit(c.log, c.slots[k].id) && 32768 <= c.slots[k].recvWindow <= 65535 {
      assert SlotBooked(c.log, c.initialWindow, c.slots[k]);
      assert SlotOk(c.log, c.lastStreamId, c.slots[k]);
    }
  }

  /** Every DATA sent fitted both send windows as the peer counts them, and every DATA received fitted the
      connection's receive window (section 6.9 of RFC 7540). */
  lemma FlowControlRespected(ops: seq<Op>, k: nat)
    requires Run(ops).allOk && k < |LogOf(ops)|
    ensures Affordable(LogOf(ops)[..k], LogOf(ops)[k])
  {
    EveryGoodRun(ops);
    FlowRespectedAt(LogOf(ops), k);
  }

  /** One for one, in order, with equal opaque octets: the acknowledgements sent are those owed. */
  lemma AcknowledgementsMatch(ops: seq<Op>)
    requires Run(ops).allOk
    ensures Acks(LogOf(ops)) == Owed(LogOf(ops))
  {
    EveryGoodRun(ops);
    PunctualAcks(LogOf(ops));
    assert Acks(LogOf(ops)) + [] == Acks(LogOf(ops));
  }

  /** No slot in use is idle; a stream awaits its response exactly when its body is deferred behind headers
      already sent; it is half closed locally only after the response. */
  lemma TableIsSettled(ops: seq<Op>, k: nat)
    requires Run(ops).allOk && k < MAX_STREAMS && |State(ops).slots| == MAX_STREAMS && State(ops).slots[k].id != 0
    ensures var s := State(ops).slots[k];
            && s.id % 2 == 1 && s.id <= State(ops).lastStreamId
            && s.state != Idle
            && (s.state == Open || s.state == HalfClosedRemote <==> s.bodyDeferred && s.headersSent)
            && (s.state == HalfClosedLocal <==> s.responseSent)
            && forall j :: 0 <= j < MAX_STREAMS && j != k ==> State(ops).slots[j].id != s.id
  {
    EveryGoodRun(ops);
    var c := State(ops);
    assert SlotOk(c.log, c.lastStreamId, c.slots[k]);
    assert Settled(c.slots[k]);
  }

  /** DATA that a stream still takes fits the stream's own receive window, as the peer counts it, whenever the
      connection goes on. */
  lemma StreamWindowRespected(c: Core, h: FrameHeader, payload: seq<byte>)
    requires Sound(c) && |payload| == h.length && h.kind == DATA && h.streamId != 0
    requires Find(c.slots, h.streamId).Some? && TakesData(c, Find(c.slots, h.streamId).value)
    requires HandleFrame(c, h, payload).ret == NoError
    ensures h.length <= DEFAULT_WINDOW + RecvCredit(c.log, h.streamId)
  {
    var k := Find(c.slots, h.streamId).value;
    var e := Note(c, In(h, payload));
    assert SlotBooked(c.log, c.initialWindow, c.slots[k]);
    if c.slots[k].recvWindow < h.length {
      DataRefused(e, k, h, payload);
    }
  }

  lemma DataRefused(e: Core, k: nat, h: FrameHeader, payload: seq<byte>)
    requires |payload| == h.length && h.kind == DATA && Find(e.slots, h.streamId) == Some(k)
    requires e.slots[k].state == Open || e.slots[k].state == HalfClosedLocal
    requires e.slots[k].recvWindow < h.length
    ensures Recover(ProcessFrame(e, h, payload), h.streamId).ret != NoError
  {
    var r := ProcessData(e, h, ParseData(h, payload));
    assert r.ret != NoError && !IsStreamError(r.ret);
    assert ProcessFrame(e, h, payload).ret == r.ret || (ProcessFrame(e, h, payload).ret != NoError && !IsStreamError(ProcessFrame(e, h, payload).ret));
  }
}
