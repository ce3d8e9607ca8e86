/** A header block may be cut over HEADERS and CONTINUATION frames in any way: the outcome is that of one
    HEADERS frame carrying it whole (section 4.3 of RFC 7540). */
module Fragmentation {
  import opened Bytes
  import opened FrameCodec
  import opened FrameRoundTrips
  import opened HpackStatic
  import opened HpackSpec
  import opened Streams
  import opened ConnectionSpec
  import opened Telling

  /** Same flags, windows, stream table and output: all but the header block and the history. */
  ghost predicate Similar(c: Core, d: Core) {
    d == c.(block := d.block, log := d.log)
  }

  ghost predicate Agree(a: Step, b: Step) {
    a.ret == b.ret && Similar(a.core, b.core)
  }

  // ------------------------------------- no answer looks at the block or the history

  lemma EmitAgrees(c: Core, d: Core, frame: Option<Frame>)
    requires Similar(c, d)
    ensures Agree(Emit(c, frame), Emit(d, frame))
  {
  }

  lemma QueueHeadersAgrees(c: Core, d: Core, k: nat, length: nat)
    requires Similar(c, d) && k < |c.slots| && length < BODY_CAP
    ensures Agree(QueueHeaders(c, k, length), QueueHeaders(d, k, length))
  {
    EmitAgrees(c, d, HeadersFrame(c.slots[k].id, FLAG_END_HEADERS, ResponseBlock(length)));
  }

  lemma QueueDeferredDataAgrees(c: Core, d: Core, k: nat, body: seq<byte>)
    requires Similar(c, d) && k < |c.slots|
    ensures Agree(QueueDeferredData(c, k, body), QueueDeferredData(d, k, body))
  {
    EmitAgrees(c, d, DataFrame(c.slots[k].id, FLAG_END_STREAM, body));
  }

  lemma QueueResponseAgrees(c: Core, d: Core, k: nat)
    requires Similar(c, d) && k < |c.slots|
    ensures Agree(QueueResponse(c, k), QueueResponse(d, k))
  {
    var s := c.slots[k];
    var path := PathOrSlash(s.path);
    var named, named' := SetSlot(c, k, s.(path := path)), SetSlot(d, k, s.(path := path));
    if !s.responseSent && |Body(s)| < BODY_CAP {
      QueueHeadersAgrees(named, named', k, |Body(s)|);
      var r, r' := QueueHeaders(named, k, |Body(s)|), QueueHeaders(named', k, |Body(s)|);
      QueueDeferredDataAgrees(r.core, r'.core, k, Body(s));
    }
  }

  lemma OpenStreamAgrees(c: Core, d: Core, k: nat, endStream: bool, scan: PathScan)
    requires Similar(c, d) && k < |c.slots|
    ensures Agree(OpenStream(c, k, endStream, scan), OpenStream(d, k, endStream, scan))
  {
    var moved := ReceiveHeaders(c.slots[k].(path := scan.path), endStream);
    QueueResponseAgrees(SetSlot(c, k, moved.slot), SetSlot(d, k, moved.slot), k);
  }

  lemma FinishHeadersAgrees(c: Core, d: Core, streamId: u32, endStream: bool, scan: PathScan)
    requires Similar(c, d)
    ensures Agree(FinishHeaders(c, streamId, endStream, scan), FinishHeaders(d, streamId, endStream, scan))
  {
    var g, g' := GetStream(c, streamId), GetStream(d, streamId);
    assert Similar(g.core, g'.core) && g.at == g'.at;
    if g.at.Some? {
      var e := Opened(streamId, scan.path);
      OpenStreamAgrees(Note(g.core.(lastStreamId := streamId), e), Note(g'.core.(lastStreamId := streamId), e),
                       g.at.value, endStream, scan);
    }
  }

  lemma RecoverAgrees(r: Step, s: Step, streamId: u32)
    requires Agree(r, s)
    ensures Agree(Recover(r, streamId), Recover(s, streamId))
  {
    EmitAgrees(r.core, s.core, RstStreamFrame(streamId, r.ret.Number()));
    EmitAgrees(r.core.(goawaySent := true, goawayError := r.ret.Number()),
               s.core.(goawaySent := true, goawayError := r.ret.Number()),
               GoawayFrame(r.core.lastStreamId, r.ret.Number(), []));
  }

  // --------------------------------------------------------------- the frames

  /** Handle frame after frame, up to the first that fails. */
  function RunFrames(c: Core, frames: seq<Frame>): Step
    decreases |frames|
  {
    if frames == [] then Step(c, NoError)
    else
      var r := HandleFrame(c, HeaderOf(frames[0]), frames[0].payload);
      if r.ret != NoError then r else RunFrames(r.core, frames[1..])
  }

  /** CONTINUATION frames of one stream, the last of which ends the block. */
  predicate Continues(frames: seq<Frame>, streamId: u32)
    decreases |frames|
  {
    && frames != []
    && frames[0].kind == CONTINUATION && frames[0].streamId == streamId && Encodable(frames[0])
    && HasEndHeaders(frames[0].flags) == (|frames| == 1)
    && (|frames| > 1 ==> Continues(frames[1..], streamId))
  }

  function Joined(frames: seq<Frame>): seq<byte>
    decreases |frames|
  {
    if frames == [] then [] else frames[0].payload + Joined(frames[1..])
  }

  function Largest(frames: seq<Frame>): nat
    decreases |frames|
  {
    if frames == [] then 0
    else if |frames[0].payload| > Largest(frames[1..]) then |frames[0].payload| else Largest(frames[1..])
  }

  predicate Starts(f: Frame, streamId: u32) {
    f.kind == HEADERS && f.streamId == streamId && Encodable(f) && ParseHeaders(HeaderOf(f), f.payload).Ok?
  }

  function BlockOf(f: Frame): seq<byte>
    requires Starts(f, f.streamId)
  {
    ParseHeaders(HeaderOf(f), f.payload).value.block
  }

  /** `whole` carries in one frame the block that `first` and `rest` carry between them. */
  predicate Fragments(first: Frame, rest: seq<Frame>, whole: Frame) {
    && first.streamId < U31_SPAN
    && Starts(first, first.streamId) && Starts(whole, first.streamId) && Continues(rest, first.streamId)
    && !HasEndHeaders(first.flags) && HasEndHeaders(whole.flags)
    && HasEndStream(whole.flags) == HasEndStream(first.flags)
    && BlockOf(whole) == BlockOf(first) + Joined(rest)
    && |BlockOf(whole)| <= BLOCK_CAP
  }

  /** What handling the whole block comes to. */
  function Finished(c: Core, streamId: u32, endStream: bool, block: seq<byte>): Step {
    Recover(FinishHeaders(c, streamId, endStream, ExtractPath(block, VALUE_CAP)), streamId)
  }

  /** A CONTINUATION that does not end the block only adds to it. */
  lemma ContinuationAdds(c: Core, f: Frame)
    requires f.kind == CONTINUATION && 0 < f.streamId < U31_SPAN && !HasEndHeaders(f.flags)
    requires c.block.open && c.block.streamId == f.streamId && |c.block.bytes| + |f.payload| <= BLOCK_CAP
    requires Encodable(f) && |f.payload| <= c.maxFrameSize
    ensures var r := HandleFrame(c, HeaderOf(f), f.payload);
            r.ret == NoError && Similar(c, r.core) && r.core.block == c.block.(bytes := c.block.bytes + f.payload)
  {
  }

  lemma HandledBy(c: Core, h: FrameHeader, payload: seq<byte>, r: Step, streamId: u32)
    requires |payload| == h.length && h.streamId == streamId && ProcessFrame(Note(c, In(h, payload)), h, payload) == r
    ensures HandleFrame(c, h, payload) == Recover(r, streamId)
  {
  }

  lemma FinishedKeepsBlock(c: Core, streamId: u32, endStream: bool, block: seq<byte>)
    ensures Finished(c, streamId, endStream, block).core.block == c.block
  {
    var scan := ExtractPath(block, VALUE_CAP);
    FinishHeadersTells(c, streamId, endStream, scan);
    RecoverQueues(FinishHeaders(c, streamId, endStream, scan), streamId);
  }

  lemma ContinuationEnds(c: Core, f: Frame)
    requires f.kind == CONTINUATION && 0 < f.streamId < U31_SPAN && HasEndHeaders(f.flags)
    requires c.block.open && c.block.streamId == f.streamId && |c.block.bytes| + |f.payload| <= BLOCK_CAP
    requires Encodable(f) && |f.payload| <= c.maxFrameSize
    ensures Agree(HandleFrame(c, HeaderOf(f), f.payload),
                  Finished(c, f.streamId, HasEndStream(c.block.flags), c.block.bytes + f.payload))
    ensures !HandleFrame(c, HeaderOf(f), f.payload).core.block.open
  {
    var h := HeaderOf(f);
    var d := Note(c, In(h, f.payload));
    var b := c.block.(bytes := c.block.bytes + f.payload, open := false);
    var scan := ExtractPath(b.bytes, VALUE_CAP);
    assert ProcessFrame(d, h, f.payload) == FinishHeaders(d.(block := b), f.streamId, HasEndStream(b.flags), scan);
    FinishHeadersAgrees(d.(block := b), c, f.streamId, HasEndStream(b.flags), scan);
    RecoverAgrees(ProcessFrame(d, h, f.payload), FinishHeaders(c, f.streamId, HasEndStream(b.flags), scan), f.streamId);
    FinishedKeepsBlock(d.(block := b), f.streamId, HasEndStream(b.flags), b.bytes);
    HandledBy(c, h, f.payload, ProcessFrame(d, h, f.payload), f.streamId);
  }

  lemma {:induction false} ContinuationsFinish(c: Core, frames: seq<Frame>, streamId: u32)
    requires Continues(frames, streamId) && 0 < streamId < U31_SPAN && Largest(frames) <= c.maxFrameSize
    requires c.block.open && c.block.streamId == streamId && |c.block.bytes| + |Joined(frames)| <= BLOCK_CAP
    ensures Agree(RunFrames(c, frames), Finished(c, streamId, HasEndStream(c.block.flags), c.block.bytes + Joined(frames)))
    ensures !RunFrames(c, frames).core.block.open
    decreases |frames|
  {
    var f, rest := frames[0], frames[1..];
    if rest == [] {
      assert Joined(frames) == f.payload;
      ContinuationEnds(c, f);
    } else {
      var d := HandleFrame(c, HeaderOf(f), f.payload).core;
      ContinuationAdds(c, f);
      Assoc(c.block.bytes, f.payload, Joined(rest));
      ContinuationsFinish(d, rest, streamId);
      FinishedAgrees(d, c, streamId, HasEndStream(c.block.flags), c.block.bytes + Joined(frames));
    }
  }

  lemma FinishedAgrees(c: Core, d: Core, streamId: u32, endStream: bool, block: seq<byte>)
    requires Similar(c, d)
    ensures Agree(Finished(c, streamId, endStream, block), Finished(d, streamId, endStream, block))
  {
    var scan := ExtractPath(block, VALUE_CAP);
    FinishHeadersAgrees(c, d, streamId, endStream, scan);
    RecoverAgrees(FinishHeaders(c, streamId, endStream, scan), FinishHeaders(d, streamId, endStream, scan), streamId);
  }

  lemma FirstOpens(c: Core, f: Frame)
    requires Starts(f, f.streamId) && f.streamId < U31_SPAN && !HasEndHeaders(f.flags)
    requires !c.block.open && |f.payload| <= c.maxFrameSize && |BlockOf(f)| <= BLOCK_CAP
    ensures var r := HandleFrame(c, HeaderOf(f), f.payload);
            r.ret == NoError && Similar(c, r.core) && r.core.block == Block(true, f.streamId, f.flags, BlockOf(f))
  {
  }

  lemma HeadersDispatch(c: Core, h: FrameHeader, payload: seq<byte>, parsed: Result<HeadersPayload>)
    requires |payload| == h.length <= c.maxFrameSize && h.kind == HEADERS && !c.block.open
    requires parsed == ParseHeaders(h, payload)
    ensures ProcessFrame(c, h, payload) == ProcessHeaders(c, h, parsed)
  {
  }

  lemma WholeDispatch(c: Core, f: Frame)
    requires Starts(f, f.streamId) && f.streamId < U31_SPAN && HasEndHeaders(f.flags)
    requires !c.block.open && |f.payload| <= c.maxFrameSize
    ensures ProcessFrame(c, HeaderOf(f), f.payload)
            == FinishHeaders(c, f.streamId, HasEndStream(f.flags), ExtractPath(BlockOf(f), VALUE_CAP))
  {
    HeadersDispatch(c, HeaderOf(f), f.payload, ParseHeaders(HeaderOf(f), f.payload));
  }

  lemma FinishedIs(c: Core, streamId: u32, endStream: bool, block: seq<byte>, r: Step)
    requires r == FinishHeaders(c, streamId, endStream, ExtractPath(block, VALUE_CAP))
    ensures Finished(c, streamId, endStream, block) == Recover(r, streamId)
  {
  }

  lemma WholeHandled(c: Core, f: Frame, block: seq<byte>)
    requires Starts(f, f.streamId) && f.streamId < U31_SPAN && HasEndHeaders(f.flags) && block == BlockOf(f)
    requires !c.block.open && |f.payload| <= c.maxFrameSize
    ensures HandleFrame(c, HeaderOf(f), f.payload)
            == Finished(Note(c, In(HeaderOf(f), f.payload)), f.streamId, HasEndStream(f.flags), block)
  {
    var d := Note(c, In(HeaderOf(f), f.payload));
    var r := ProcessFrame(d, HeaderOf(f), f.payload);
    WholeDispatch(d, f);
    HandledBy(c, HeaderOf(f), f.payload, r, f.streamId);
    FinishedIs(d, f.streamId, HasEndStream(f.flags), block, r);
  }

  lemma WholeFinishes(c: Core, f: Frame)
    requires Starts(f, f.streamId) && f.streamId < U31_SPAN && HasEndHeaders(f.flags)
    requires !c.block.open && |f.payload| <= c.maxFrameSize
    ensures Agree(Finished(c, f.streamId, HasEndStream(f.flags), BlockOf(f)), HandleFrame(c, HeaderOf(f), f.payload))
    ensures !HandleFrame(c, HeaderOf(f), f.payload).core.block.open
  {
    WholeHandled(c, f, BlockOf(f));
    FinishedKeepsBlock(Note(c, In(HeaderOf(f), f.payload)), f.streamId, HasEndStream(f.flags), BlockOf(f));
    FinishedAgrees(c, Note(c, In(HeaderOf(f), f.payload)), f.streamId, HasEndStream(f.flags), BlockOf(f));
  }

  /** Cut or whole, the same result and the same streams, windows and output, on errors too, and no block left
      open; END_STREAM counts only on the HEADERS frame. */
  lemma FragmentationInvariance(c: Core, first: Frame, rest: seq<Frame>, whole: Frame)
    requires Fragments(first, rest, whole) && !c.block.open
    requires |first.payload| <= c.maxFrameSize && Largest(rest) <= c.maxFrameSize && |whole.payload| <= c.maxFrameSize
    ensures Agree(RunFrames(c, [first] + rest), HandleFrame(c, HeaderOf(whole), whole.payload))
    ensures !RunFrames(c, [first] + rest).core.block.open && !HandleFrame(c, HeaderOf(whole), whole.payload).core.block.open
  {
    var d := HandleFrame(c, HeaderOf(first), first.payload).core;
    var endStream := HasEndStream(first.flags);
    FirstOpens(c, first);
    assert RunFrames(c, [first] + rest) == RunFrames(d, rest) by { assert ([first] + rest)[1..] == rest; }
    ContinuationsFinish(d, rest, first.streamId);
    FinishedAgrees(d, c, first.streamId, endStream, BlockOf(whole));
    WholeFinishes(c, whole);
  }

  // ---------------------------------------------------------------- on the wire

  function Octets(frames: seq<Frame>): seq<byte>
    requires forall i :: 0 <= i < |frames| ==> Encodable(frames[i])
    decreases |frames|
  {
    if frames == [] then [] else Wire(frames[0]) + Octets(frames[1..])
  }

  /** The frame loop over the octets of whole frames handles exactly those frames. */
  lemma {:induction false} DrainRunsFrames(c: Core, frames: seq<Frame>)
    requires forall i :: 0 <= i < |frames| ==> Encodable(frames[i])
    ensures var d := Drain(c, Octets(frames));
            Step(d.core, d.ret) == RunFrames(c, frames) && (d.ret == NoError ==> d.rest == [])
    decreases |frames|
  {
    if frames != [] {
      var f, rest := frames[0], Octets(frames[1..]);
      HeaderRoundTrip(f, rest);
      DrainStep(c, f, rest);
      DrainRunsFrames(HandleFrame(c, HeaderOf(f), f.payload).core, frames[1..]);
    }
  }

  lemma DrainStep(c: Core, f: Frame, rest: seq<byte>)
    requires Encodable(f)
    ensures var r := HandleFrame(c, HeaderOf(f), f.payload);
            Drain(c, Wire(f) + rest)
            == if r.ret != NoError then Drained(r.core, Wire(f) + rest, r.ret) else Drain(r.core, rest)
  {
    HeaderRoundTrip(f, rest);
  }

  lemma FeedRunsFrames(conn: Conn, frames: seq<Frame>)
    requires forall i :: 0 <= i < |frames| ==> Encodable(frames[i])
    requires conn.prefaceSeen && conn.input == [] && |Octets(frames)| <= INPUT_CAP
    ensures var f := Feed(conn, Octets(frames));
            Step(f.conn.core, f.ret) == RunFrames(conn.core, frames) && (f.ret == NoError ==> f.conn.input == [])
  {
    assert [] + Octets(frames) == Octets(frames);
    DrainRunsFrames(conn.core, frames);
  }

  lemma RunOneFrame(c: Core, f: Frame)
    ensures RunFrames(c, [f]) == HandleFrame(c, HeaderOf(f), f.payload)
  {
    assert [f][1..] == [];
  }

  /** The same for the octets a peer sends: one feed of the fragments does what one feed of the whole does. */
  lemma FragmentsFed(conn: Conn, first: Frame, rest: seq<Frame>, whole: Frame)
    requires Fragments(first, rest, whole) && !conn.core.block.open && conn.prefaceSeen && conn.input == []
    requires |first.payload| <= conn.core.maxFrameSize && Largest(rest) <= conn.core.maxFrameSize
    requires |whole.payload| <= conn.core.maxFrameSize
    requires forall i :: 0 <= i < |rest| ==> Encodable(rest[i])
    requires |Octets([first] + rest)| <= INPUT_CAP && |Octets([whole])| <= INPUT_CAP
    ensures var f, g := Feed(conn, Octets([first] + rest)), Feed(conn, Octets([whole]));
            && f.ret == g.ret && Similar(f.conn.core, g.conn.core)
            && !f.conn.core.block.open && !g.conn.core.block.open
            && (f.ret == NoError ==> f.conn.input == g.conn.input == [])
  {
    FragmentationInvariance(conn.core, first, rest, whole);
    FeedRunsFrames(conn, [first] + rest);
    FeedRunsFrames(conn, [whole]);
    RunOneFrame(conn.core, whole);
  }
}
