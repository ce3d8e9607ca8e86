/** What runs make of what the peer sent: paths come from the header blocks received, and without a raised
    initial window no response that could be sent is ever left waiting. */
module Requests {
  import opened Bytes
  import opened FrameCodec
  import opened HpackStatic
  import opened HpackSpec
  import opened Streams
  import opened ConnectionSpec
  import opened History
  import opened Invariants
  import opened GoodRuns
  import opened Ledger
  import opened LedgerRuns
  import opened Flushing
  import opened Telling

  // ---------------------------------------------------------- whose path it is

  /** The fragments of the last header block received, in order. */
  function Assembled(log: Log): seq<byte> {
    if log == [] then []
    else
      match Last(log)
      case In(h, payload) =>
        if |payload| == h.length && h.kind == HEADERS && ParseHeaders(h, payload).Ok? then ParseHeaders(h, payload).value.block
        else if h.kind == CONTINUATION then Assembled(Past(log)) + payload
        else Assembled(Past(log))
      case _ => Assembled(Past(log))
  }

  /** The stream of the last HEADERS received. */
  function HeadersStream(log: Log): u32 {
    if log == [] then 0
    else if Last(log).In? && Last(log).header.kind == HEADERS then Last(log).header.streamId
    else HeadersStream(Past(log))
  }

  predicate OpensAsAsked(log: Log, e: Event) {
    e.Opened? ==> e.id == HeadersStream(log) && e.path == ExtractPath(Assembled(log), VALUE_CAP).path
  }

  ghost predicate PathsTold(log: Log) {
    log == [] || (PathsTold(Past(log)) && OpensAsAsked(Past(log), Last(log)))
  }

  /** Every stream so far was opened for the path its own header block asks for, and the block under assembly
      is what has been received of it. */
  ghost predicate Told(c: Core) {
    && PathsTold(c.log)
    && (c.block.open ==> c.block.bytes == Assembled(c.log) && c.block.streamId == HeadersStream(c.log))
  }

  lemma {:induction false} ExtendsTold(a: Log, b: Log)
    requires Extends(a, b)
    ensures Assembled(b) == Assembled(a) && HeadersStream(b) == HeadersStream(a) && (PathsTold(b) <==> PathsTold(a))
    decreases |b|
  {
    if b != a {
      ExtendsTold(a, Past(b));
    }
  }

  lemma SaysTold(c: Core, d: Core)
    requires Told(c) && Queues(c, d)
    ensures Told(d)
  {
    ExtendsTold(c.log, d.log);
  }

  lemma NoteTold(log: Log, e: Event)
    ensures PathsTold(log + [e]) <==> PathsTold(log) && OpensAsAsked(log, e)
    ensures e.Opened? ==> Assembled(log + [e]) == Assembled(log) && HeadersStream(log + [e]) == HeadersStream(log)
  {
    NoteUnfolds(log, e);
  }

  lemma MayOpenTold(c: Core, d: Core, streamId: u32, path: seq<byte>)
    requires PathsTold(c.log) && !c.block.open && MayOpen(c, d, streamId, path)
    requires streamId == HeadersStream(c.log) && path == ExtractPath(Assembled(c.log), VALUE_CAP).path
    ensures Told(d)
  {
    var e := Opened(streamId, path);
    NoteTold(c.log, e);
    if Extends(c.log, d.log) {
      ExtendsTold(c.log, d.log);
    } else {
      ExtendsTold(c.log + [e], d.log);
    }
  }

  lemma TakePlain(c: Core, h: FrameHeader, payload: seq<byte>)
    requires Told(c) && h.kind != HEADERS && h.kind != CONTINUATION
    ensures Told(Note(c, In(h, payload)))
  {
    NoteTold(c.log, In(h, payload));
    NoteUnfolds(c.log, In(h, payload));
  }

  lemma HeadersTold(c: Core, h: FrameHeader, payload: seq<byte>)
    requires Told(c) && !c.block.open && |payload| == h.length && h.kind == HEADERS
    requires var r := ProcessHeaders(Note(c, In(h, payload)), h, ParseHeaders(h, payload)); Survives(r.ret)
    ensures Told(ProcessHeaders(Note(c, In(h, payload)), h, ParseHeaders(h, payload)).core)
  {
    var e := Note(c, In(h, payload));
    var parsed := ParseHeaders(h, payload);
    NoteTold(c.log, In(h, payload));
    NoteUnfolds(c.log, In(h, payload));
    assert parsed.Ok?;
    assert Assembled(e.log) == parsed.value.block && HeadersStream(e.log) == h.streamId;
    if HasEndHeaders(h.flags) {
      var scan := ExtractPath(parsed.value.block, VALUE_CAP);
      FinishHeadersTells(e, h.streamId, HasEndStream(h.flags), scan);
      MayOpenTold(e, FinishHeaders(e, h.streamId, HasEndStream(h.flags), scan).core, h.streamId, scan.path);
    } else {
      assert [] + parsed.value.block == parsed.value.block;
    }
  }

  lemma ContinuationTold(c: Core, h: FrameHeader, payload: seq<byte>)
    requires Told(c) && |payload| == h.length && h.kind == CONTINUATION
    requires var r := ProcessContinuation(Note(c, In(h, payload)), h, ParseContinuation(h, payload)); Survives(r.ret)
    ensures Told(ProcessContinuation(Note(c, In(h, payload)), h, ParseContinuation(h, payload)).core)
  {
    var e := Note(c, In(h, payload));
    NoteTold(c.log, In(h, payload));
    NoteUnfolds(c.log, In(h, payload));
    assert Assembled(e.log) == Assembled(c.log) + payload && HeadersStream(e.log) == HeadersStream(c.log);
    var r := AppendBlock(e, payload);
    if r.ret == NoError && HasEndHeaders(h.flags) {
      var b := r.core.block;
      var d := r.core.(block := b.(open := false));
      var scan := ExtractPath(b.bytes, VALUE_CAP);
      FinishHeadersTells(d, b.streamId, HasEndStream(b.flags), scan);
      MayOpenTold(d, FinishHeaders(d, b.streamId, HasEndStream(b.flags), scan).core, b.streamId, scan.path);
    }
  }

  lemma ProcessFrameTold(c: Core, h: FrameHeader, payload: seq<byte>)
    requires Told(c) && |payload| == h.length && Survives(ProcessFrame(Note(c, In(h, payload)), h, payload).ret)
    ensures Told(ProcessFrame(Note(c, In(h, payload)), h, payload).core)
  {
    var e := Note(c, In(h, payload));
    if h.kind == HEADERS {
      HeadersTold(c, h, payload);
    } else if h.kind == CONTINUATION {
      ContinuationTold(c, h, payload);
    } else {
      TakePlain(c, h, payload);
      ProcessPlainSays(e, h, payload);
      SaysTold(e, ProcessFrame(e, h, payload).core);
    }
  }

  lemma HandleFrameTold(c: Core, h: FrameHeader, payload: seq<byte>)
    requires Told(c) && |payload| == h.length && HandleFrame(c, h, payload).ret == NoError
    ensures Told(HandleFrame(c, h, payload).core)
  {
    var r := ProcessFrame(Note(c, In(h, payload)), h, payload);
    ProcessFrameTold(c, h, payload);
    RecoverQueues(r, h.streamId);
    SaysTold(r.core, Recover(r, h.streamId).core);
  }

  // ------------------------------------------------------ the initial window

  /** `b` is `a` and then no frame received. */
  ghost predicate Follows(a: Log, b: Log)
    decreases |b|
  {
    b == a || (b != [] && !Last(b).In? && Follows(a, Past(b)))
  }

  lemma {:induction false} ExtendsFollows(a: Log, b: Log, c: Log)
    requires Follows(a, b) && Extends(b, c)
    ensures Follows(a, c)
    decreases |c|
  {
    if c != b {
      ExtendsFollows(a, b, Past(c));
    }
  }

  lemma MayOpenFollows(c: Core, d: Core, streamId: u32, path: seq<byte>)
    requires MayOpen(c, d, streamId, path)
    ensures Follows(c.log, d.log)
  {
    var e := Opened(streamId, path);
    NoteUnfolds(c.log, e);
    if Extends(c.log, d.log) {
      ExtendsFollows(c.log, c.log, d.log);
    } else {
      assert Follows(c.log, c.log + [e]);
      ExtendsFollows(c.log, c.log + [e], d.log);
    }
  }

  lemma ProcessFrameFollows(c: Core, h: FrameHeader, payload: seq<byte>)
    requires |payload| == h.length
    ensures var d := ProcessFrame(c, h, payload).core;
            Follows(c.log, d.log) && d.goawaySent == c.goawaySent && (Counted(c) ==> Counted(d))
  {
    if h.kind == HEADERS {
      ProcessHeadersFollows(c, h, ParseHeaders(h, payload));
    } else if h.kind == CONTINUATION {
      ProcessContinuationFollows(c, h, ParseContinuation(h, payload));
    } else {
      ProcessPlainSays(c, h, payload);
      ExtendsFollows(c.log, c.log, ProcessFrame(c, h, payload).core.log);
    }
  }

  lemma ProcessHeadersFollows(c: Core, h: FrameHeader, parsed: Result<HeadersPayload>)
    ensures var d := ProcessHeaders(c, h, parsed).core;
            Follows(c.log, d.log) && d.goawaySent == c.goawaySent && (Counted(c) ==> Counted(d))
  {
    if parsed.Ok? && HasEndHeaders(h.flags) {
      var scan := ExtractPath(parsed.value.block, VALUE_CAP);
      FinishHeadersTells(c, h.streamId, HasEndStream(h.flags), scan);
      MayOpenFollows(c, FinishHeaders(c, h.streamId, HasEndStream(h.flags), scan).core, h.streamId, scan.path);
    }
  }

  lemma ProcessContinuationFollows(c: Core, h: FrameHeader, parsed: Result<seq<byte>>)
    ensures var d := ProcessContinuation(c, h, parsed).core;
            Follows(c.log, d.log) && d.goawaySent == c.goawaySent && (Counted(c) ==> Counted(d))
  {
    if parsed.Ok? {
      var b := AppendBlock(c, parsed.value).core.block;
      var d := AppendBlock(c, parsed.value).core.(block := b.(open := false));
      var scan := ExtractPath(b.bytes, VALUE_CAP);
      FinishHeadersTells(d, b.streamId, HasEndStream(b.flags), scan);
      MayOpenFollows(d, FinishHeaders(d, b.streamId, HasEndStream(b.flags), scan).core, b.streamId, scan.path);
    }
  }

  lemma HandleFrameFollows(c: Core, h: FrameHeader, payload: seq<byte>)
    requires |payload| == h.length
    ensures var d := HandleFrame(c, h, payload).core; Follows(c.log + [In(h, payload)], d.log) && (Counted(c) ==> Counted(d))
  {
    var e := Note(c, In(h, payload));
    NoteCount(c, In(h, payload));
    var r := ProcessFrame(e, h, payload);
    ProcessFrameFollows(e, h, payload);
    RecoverQueues(r, h.streamId);
    ExtendsFollows(e.log, r.core.log, Recover(r, h.streamId).core.log);
  }

  /** No SETTINGS received so far has raised the initial window. */
  predicate NeverRaised(log: Log) {
    log == [] || (NeverRaised(Past(log)) && InitialIn(Last(log), InitialWindow(Past(log))) <= InitialWindow(Past(log)))
  }

  lemma {:induction false} FollowsRaised(a: Log, b: Log)
    requires Follows(a, b)
    ensures NeverRaised(b) <==> NeverRaised(a)
    decreases |b|
  {
    if b != a {
      FollowsRaised(a, Past(b));
    }
  }

  /** Unless the initial window was raised, nothing that could be sent is waiting. */
  ghost predicate Prompt(c: Core) {
    NeverRaised(c.log) ==> AllStuck(c)
  }

  lemma HandleFramePrompt(c: Core, h: FrameHeader, payload: seq<byte>)
    requires Sound(c) && Prompt(c) && |payload| == h.length && h.streamId < U31_SPAN
    requires HandleFrame(c, h, payload).ret == NoError
    ensures Prompt(HandleFrame(c, h, payload).core)
  {
    var d := HandleFrame(c, h, payload).core;
    if NeverRaised(d.log) {
      HandleFrameFollows(c, h, payload);
      FollowsRaised(c.log + [In(h, payload)], d.log);
      NoteUnfolds(c.log, In(h, payload));
      FramesKeepStuck(c, h, payload);
    }
  }

  // -------------------------------------------------------------------- runs

  lemma {:induction false} DrainTold(c: Core, input: seq<byte>)
    requires Sound(c) && Told(c) && Prompt(c) && Drain(c, input).ret == NoError
    ensures Told(Drain(c, input).core) && Prompt(Drain(c, input).core)
    decreases |input|
  {
    if FrameReady(input) {
      var h, payload := ParseHeader(input).value, input[HEADER_LEN..FrameEnd(input)];
      HandleFrameSound(c, h, payload);
      HandleFrameTold(c, h, payload);
      HandleFramePrompt(c, h, payload);
      DrainTold(HandleHead(c, input).core, input[FrameEnd(input)..]);
    }
  }

  lemma GreetTold(c: Core)
    requires Told(c) && Prompt(c) && c.log == [] && (forall k :: 0 <= k < |c.slots| ==> c.slots[k] == BLANK)
    ensures Told(QueueSettings(c).core) && Prompt(QueueSettings(c).core)
  {
    EmitSays(c, SettingsFrame(0, [Setting(ENABLE_PUSH, 0)]));
    SaysTold(c, QueueSettings(c).core);
  }

  /** Before the preface nothing has happened; after it the frames decide. */
  ghost predicate RunTold(conn: Conn) {
    if conn.prefaceSeen then Told(conn.core) && Prompt(conn.core)
    else conn.core.log == [] && (forall k :: 0 <= k < |conn.core.slots| ==> conn.core.slots[k] == BLANK) && !conn.core.block.open
  }

  lemma FeedTold(conn: Conn, data: seq<byte>)
    requires ConnOk(conn) && Sound(conn.core) && RunTold(conn) && Feed(conn, data).ret == NoError
    ensures RunTold(Feed(conn, data).conn)
  {
    var fed := conn.(input := conn.input + data);
    AppendInput(conn, data);
    if conn.prefaceSeen {
      DrainTold(conn.core, fed.input);
    } else if |fed.input| >= PREFACE_LEN {
      HelloSound(conn.core);
      GreetTold(conn.core);
      DrainTold(QueueSettings(conn.core).core, fed.input[PREFACE_LEN..]);
    }
  }

  lemma {:induction false} EveryToldRun(ops: seq<Op>)
    requires Run(ops).allOk
    ensures RunTold(Run(ops).conn)
    decreases |ops|
  {
    if ops != [] {
      var before := ops[..|ops| - 1];
      EveryToldRun(before);
      EveryGoodRun(before);
      match ops[|ops| - 1] {
        case Receive(data) => FeedTold(Run(before).conn, data);
        case Sent(n) =>
      }
    }
  }

  lemma {:induction false} ToldAt(log: Log, k: nat)
    requires PathsTold(log) && k < |log|
    ensures OpensAsAsked(log[..k], log[k])
    decreases |log|
  {
    if k < |log| - 1 {
      ToldAt(Past(log), k);
      assert Past(log)[..k] == log[..k];
    }
  }

  /** On an all-OK run a stream is opened under the id of the HEADERS before it, for the path that the fragments
      received in that frame and its CONTINUATION frames scan to. */
  lemma PathsAreRequested(ops: seq<Op>, k: nat)
    requires Run(ops).allOk && k < |Run(ops).conn.core.log| && Run(ops).conn.core.log[k].Opened?
    ensures var log := Run(ops).conn.core.log;
            && log[k].id == HeadersStream(log[..k])
            && log[k].path == ExtractPath(Assembled(log[..k]), VALUE_CAP).path
  {
    EveryToldRun(ops);
    ToldAt(Run(ops).conn.core.log, k);
  }

  /** On an all-OK run whose SETTINGS never raised the initial window, every deferred response is too long for
      one of its windows. */
  lemma NothingSendableWaits(ops: seq<Op>)
    requires Run(ops).allOk && NeverRaised(Run(ops).conn.core.log)
    ensures AllStuck(Run(ops).conn.core)
  {
    EveryToldRun(ops);
  }

  // ----------------------------------------------------------------- the counter

  lemma {:induction false} DrainCounts(c: Core, input: seq<byte>)
    requires Counted(c)
    ensures Counted(Drain(c, input).core)
    decreases |input|
  {
    if FrameReady(input) {
      var r := HandleHead(c, input);
      HandleFrameFollows(c, ParseHeader(input).value, input[HEADER_LEN..FrameEnd(input)]);
      if r.ret == NoError {
        DrainCounts(r.core, input[FrameEnd(input)..]);
      }
    }
  }

  lemma FeedCounts(conn: Conn, data: seq<byte>)
    requires Counted(conn.core)
    ensures Counted(Feed(conn, data).conn.core)
  {
    var c, input := conn.core, conn.input + data;
    EmitSays(c, SettingsFrame(0, [Setting(ENABLE_PUSH, 0)]));
    EmitSays(c.(goawaySent := true, goawayError := 1), GoawayFrame(c.lastStreamId, 1, []));
    if conn.prefaceSeen {
      DrainCounts(c, input);
    } else if |input| >= PREFACE_LEN {
      DrainCounts(c, input[PREFACE_LEN..]);
      DrainCounts(QueueSettings(c).core, input[PREFACE_LEN..]);
    }
  }

  lemma {:induction false} EveryRunCounts(ops: seq<Op>)
    ensures Counted(Run(ops).conn.core)
    decreases |ops|
  {
    if ops != [] {
      var before := ops[..|ops| - 1];
      EveryRunCounts(before);
      match ops[|ops| - 1] {
        case Receive(data) => FeedCounts(Run(before).conn, data);
        case Sent(_) =>
      }
    }
  }

  /** After any run, failures included, the counter of responses is the number of DATA frames ever queued. */
  lemma ResponsesAreCounted(ops: seq<Op>)
    ensures Run(ops).conn.core.responsesSent == DataCount(Run(ops).conn.core.log) % U32_SPAN
  {
    EveryRunCounts(ops);
    TallyCounts(Run(ops).conn.core.log);
  }
}
