/** What the connection says when something goes wrong: a connection error is announced by GOAWAY, a stream
    error by RST_STREAM, with the number of the very error. */
module Farewells {
  import opened Bytes
  import opened FrameCodec
  import opened FrameRoundTrips
  import opened Streams
  import opened ConnectionSpec
  import opened History
  import opened Invariants
  import opened GoodSteps
  import opened GoodRuns
  import opened Traces
  import opened Requests
  import Runs = RunTheorems

  // ------------------------------------------------------------------- numbers

  /** The error codes of section 7 of RFC 7540, in the order of their numbers. */
  const ERROR_CODES: seq<string> := [
    "NO_ERROR", "PROTOCOL_ERROR", "INTERNAL_ERROR", "FLOW_CONTROL_ERROR", "SETTINGS_TIMEOUT", "STREAM_CLOSED",
    "FRAME_SIZE_ERROR", "REFUSED_STREAM", "CANCEL", "COMPRESSION_ERROR", "CONNECT_ERROR", "ENHANCE_YOUR_CALM",
    "INADEQUATE_SECURITY", "HTTP_1_1_REQUIRED"]

  function NameOf(code: Code): string {
    match code
    case NoError => "NO_ERROR"
    case ProtocolError => "PROTOCOL_ERROR"
    case InternalError => "INTERNAL_ERROR"
    case FlowControlError => "FLOW_CONTROL_ERROR"
    case StreamClosed => "STREAM_CLOSED"
    case FrameSizeError => "FRAME_SIZE_ERROR"
    case RefusedStream => "REFUSED_STREAM"
    case CompressionError => "COMPRESSION_ERROR"
  }

  /** The wire's number for an error is its place in the list of section 7. */
  predicate Numbers(number: u32, code: Code) {
    number < |ERROR_CODES| && ERROR_CODES[number] == NameOf(code)
  }

  lemma NumberIsListed(code: Code)
    ensures Numbers(code.Number(), code)
  {
  }

  // -------------------------------------------------------------------- GOAWAY

  const GOAWAY_WIRE := HEADER_LEN + 8
  const RST_STREAM_WIRE := HEADER_LEN + 4

  function Room(c: Core): int {
    OUTPUT_CAP - |c.pending|
  }

  /** The frame is a GOAWAY for the connection that names the stream opened last and the error. */
  ghost predicate IsFarewell(f: Frame, last: u32, code: Code) {
    && f.kind == GOAWAY && f.streamId == 0 && |f.payload| == 8
    && var parsed := ParseGoaway(HeaderOf(f), f.payload);
       parsed.Ok? && parsed.value.lastStreamId == last && Numbers(parsed.value.errorCode, code) && parsed.value.debug == []
  }

  /** The last thing said was such a GOAWAY. */
  ghost predicate Farewell(log: Log, code: Code) {
    log != [] && Last(log).Out? && IsFarewell(Last(log).frame, LastOpened(Past(log)), code)
  }

  lemma GoawayNames(last: u32, code: Code)
    requires last < U31_SPAN
    ensures GoawayFrame(last, code.Number(), []).Some? && IsFarewell(GoawayFrame(last, code.Number(), []).value, last, code)
  {
    GoawayRoundTrip(last, code.Number(), []);
    NumberIsListed(code);
  }

  /** A failure is announced and its number kept, unless the output has no room left for a GOAWAY. */
  ghost predicate Announced(c: Core, code: Code) {
    (Farewell(c.log, code) && c.goawaySent && Numbers(c.goawayError, code)) || Room(c) < GOAWAY_WIRE
  }

  lemma QueueGoawayTells(c: Core, code: Code)
    requires Good(c) && !c.goawaySent
    ensures var d := QueueGoaway(c, code.Number()).core;
            if Room(c) >= GOAWAY_WIRE then Announced(d, code) else Room(d) < GOAWAY_WIRE
  {
    var f := GoawayFrame(c.lastStreamId, code.Number(), []).value;
    GoawayNames(c.lastStreamId, code);
    NumberIsListed(code);
    NoteUnfolds(c.log, Out(f));
  }

  lemma RecoverTells(r: Step, streamId: u32)
    requires Good(r.core) && !r.core.goawaySent
    ensures var s := Recover(r, streamId); if s.ret == NoError then !s.core.goawaySent else Announced(s.core, s.ret)
  {
    if r.ret != NoError && !(IsStreamError(r.ret) && streamId != 0) {
      QueueGoawayTells(r.core, r.ret);
    }
  }

  /** A frame that fails the connection is answered by a GOAWAY with the stream opened last and the error. */
  lemma FrameErrorTells(c: Core, h: FrameHeader, payload: seq<byte>)
    requires Good(c) && !c.goawaySent && |payload| == h.length && h.streamId < U31_SPAN
    ensures var r := HandleFrame(c, h, payload);
            if r.ret == NoError then !r.core.goawaySent else Announced(r.core, r.ret)
  {
    var e := Note(c, In(h, payload));
    TakeStep(c, h, payload);
    ProcessFrameGood(e, h, payload);
    ProcessFrameFollows(e, h, payload);
    RecoverTells(ProcessFrame(e, h, payload), h.streamId);
  }

  lemma {:induction false} DrainErrorTells(c: Core, input: seq<byte>)
    requires Good(c) && !c.goawaySent
    ensures var d := Drain(c, input);
            if d.ret == NoError then !d.core.goawaySent else Announced(d.core, d.ret)
    decreases |input|
  {
    if FrameReady(input) {
      var h, payload := ParseHeader(input).value, input[HEADER_LEN..FrameEnd(input)];
      var r := HandleHead(c, input);
      HandleFrameGood(c, h, payload);
      FrameErrorTells(c, h, payload);
      if r.ret == NoError {
        DrainErrorTells(r.core, input[FrameEnd(input)..]);
      }
    }
  }

  lemma FeedTells(conn: Conn, data: seq<byte>)
    requires ConnOk(conn) && !conn.core.goawaySent && |data| <= INPUT_CAP - |conn.input|
    ensures var fed := Feed(conn, data);
            if fed.ret == NoError then !fed.conn.core.goawaySent else Announced(fed.conn.core, fed.ret)
  {
    var fed := conn.(input := conn.input + data);
    AppendInput(conn, data);
    if conn.prefaceSeen {
      DrainErrorTells(conn.core, fed.input);
    } else if |fed.input| >= PREFACE_LEN {
      if fed.input[..PREFACE_LEN] != PREFACE {
        QueueGoawayTells(conn.core, ProtocolError);
      } else {
        QueueSettingsOk(conn.core);
        DrainErrorTells(QueueSettings(conn.core).core, fed.input[PREFACE_LEN..]);
      }
    }
  }

  /** Unless GOAWAY has been said before, a feed that is taken in and fails leaves one as the last frame queued:
      it names the stream opened last and, by the number section 7 gives it, the error that the feed returned.
      Only an output buffer without room for the frame keeps it back. */
  lemma FailingFeedSaysGoaway(ops: seq<Op>, data: seq<byte>)
    requires !Runs.State(ops).goawaySent && |data| <= INPUT_CAP - |Run(ops).conn.input|
    requires Feed(Run(ops).conn, data).ret != NoError
    ensures Announced(Feed(Run(ops).conn, data).conn.core, Feed(Run(ops).conn, data).ret)
  {
    EveryRun(ops);
    FeedTells(Run(ops).conn, data);
  }

  lemma {:induction false} NoGoawayYet(ops: seq<Op>)
    requires Run(ops).allOk
    ensures !Runs.State(ops).goawaySent
    decreases |ops|
  {
    if ops != [] {
      var before := ops[..|ops| - 1];
      NoGoawayYet(before);
      EveryRun(before);
      match ops[|ops| - 1] {
        case Receive(data) => FeedTells(Run(before).conn, data);
        case Sent(_) =>
      }
    }
  }

  /** And no GOAWAY is ever queued before a feed fails. */
  lemma GoawayMeansError(ops: seq<Op>)
    requires Run(ops).allOk
    ensures CountGoaway(Outs(Runs.LogOf(ops))) == 0
  {
    NoGoawayYet(ops);
    EveryRun(ops);
    GoawaysCounted(Runs.LogOf(ops));
  }

  // ---------------------------------------------------------------- RST_STREAM

  /** The frame resets the stream, with the number of the error. */
  ghost predicate IsReset(f: Frame, streamId: u32, code: Code) {
    && f.kind == RST_STREAM && f.streamId == streamId && |f.payload| == 4
    && ParseRstStream(HeaderOf(f), f.payload).Ok? && Numbers(ParseRstStream(HeaderOf(f), f.payload).value, code)
  }

  lemma ResetNames(streamId: u32, code: Code)
    requires 0 < streamId < U31_SPAN
    ensures RstStreamFrame(streamId, code.Number()).Some? && IsReset(RstStreamFrame(streamId, code.Number()).value, streamId, code)
  {
    RstStreamRoundTrip(streamId, code.Number());
    NumberIsListed(code);
  }

  /** No slot holds the stream any more. */
  ghost predicate AllClosed(slots: seq<Slot>, streamId: u32) {
    forall k :: 0 <= k < |slots| && slots[k].id == streamId ==> slots[k].state == Closed
  }

  lemma ClosedOnce(slots: seq<Slot>, id: u32, after: seq<Slot>)
    requires Distinct(slots) && id != 0
    requires after == match Find(slots, id) case None => slots case Some(k) => slots[k := Close(slots[k])]
    ensures AllClosed(after, id)
  {
    FindIsFirst(slots, id, 0);
  }

  /** A stream error is answered by an RST_STREAM with its number, and the stream is closed; the connection goes
      on, unless the output has no room for the frame. */
  lemma StreamErrorTells(c: Core, h: FrameHeader, payload: seq<byte>)
    requires Good(c) && |payload| == h.length && 0 < h.streamId < U31_SPAN
    requires IsStreamError(ProcessFrame(Note(c, In(h, payload)), h, payload).ret)
    ensures var r, d := ProcessFrame(Note(c, In(h, payload)), h, payload), HandleFrame(c, h, payload);
            if Room(r.core) < RST_STREAM_WIRE then d == Step(r.core, InternalError)
            else && d.ret == NoError && AllClosed(d.core.slots, h.streamId)
                 && d.core.log != [] && Past(d.core.log) == r.core.log && Last(d.core.log).Out?
                 && IsReset(Last(d.core.log).frame, h.streamId, r.ret)
  {
    var e := Note(c, In(h, payload));
    var r := ProcessFrame(e, h, payload);
    TakeStep(c, h, payload);
    ProcessFrameGood(e, h, payload);
    ResetTells(r.core, h.streamId, r.ret);
  }

  lemma ResetTells(c: Core, streamId: u32, code: Code)
    requires Good(c) && 0 < streamId < U31_SPAN
    ensures var d := ResetStream(c, streamId, code.Number());
            if Room(c) < RST_STREAM_WIRE then d == Step(c, InternalError)
            else && d.ret == NoError && AllClosed(d.core.slots, streamId)
                 && d.core.log != [] && Past(d.core.log) == c.log && Last(d.core.log).Out?
                 && IsReset(Last(d.core.log).frame, streamId, code)
  {
    var f := RstStreamFrame(streamId, code.Number()).value;
    ResetNames(streamId, code);
    NoteUnfolds(c.log, Out(f));
    var d := ResetStream(c, streamId, code.Number());
    if d.ret == NoError {
      ClosedOnce(c.slots, streamId, d.core.slots);
    }
  }
}
