/** Every frame that is handled without a connection error leaves the accounts balanced. */
module LedgerSteps {
  import opened Bytes
  import opened FrameCodec
  import opened HpackStatic
  import opened HpackSpec
  import opened Streams
  import opened ConnectionSpec
  import opened History
  import opened Invariants
  import opened GoodSteps
  import opened GoodResponses
  import opened GoodRuns
  import opened Ledger

  // --------------------------------------------------------------- responses

  lemma AmpleAfter(c: Core, d: Core, k: nat, except: u32)
    requires OnlySlot(c, d, k) && Live(c.slots[k]) && Ample(c, except)
    ensures Ample(d, except)
  {
  }

  lemma QueueResponseRet(c: Core, k: nat)
    requires Good(c) && Answering(c, k)
    ensures QueueResponse(c, k).ret == NoError || QueueResponse(c, k).ret == InternalError
  {
    assert SlotOk(c.log, c.lastStreamId, c.slots[k]);
    var named := SetSlot(c, k, c.slots[k].(path := PathOrSlash(c.slots[k].path)));
    NameSlot(c, k);
    BodyIsExpected(c, k);
    QueueHeadersGood(named, k);
  }

  lemma FlushOneSound(c: Core, k: nat)
    requires Sound(c) && k < |c.slots| && FlushOne(c, k).ret == NoError
    ensures Sound(FlushOne(c, k).core)
  {
    assert SlotOk(c.log, c.lastStreamId, c.slots[k]);
    if Waiting(c.slots[k]) {
      QueueResponseGood(c, k);
      QueueResponseBooks(c, k);
      AmpleAfter(c, QueueResponse(c, k).core, k, 0);
    }
  }

  lemma {:induction false} FlushFromSound(c: Core, k: nat)
    requires Sound(c) && k <= |c.slots| && FlushFrom(c, k).ret == NoError
    ensures Sound(FlushFrom(c, k).core)
    decreases |c.slots| - k
  {
    if k < |c.slots| {
      FlushOneSound(c, k);
      FlushFromSound(FlushOne(c, k).core, k + 1);
    }
  }

  lemma FlushOneRet(c: Core, k: nat)
    requires Good(c) && k < |c.slots|
    ensures FlushOne(c, k).ret == NoError || FlushOne(c, k).ret == InternalError
  {
    assert SlotOk(c.log, c.lastStreamId, c.slots[k]);
    if Waiting(c.slots[k]) {
      QueueResponseRet(c, k);
    }
  }

  lemma {:induction false} FlushFromRet(c: Core, k: nat)
    requires Good(c) && k <= |c.slots|
    ensures FlushFrom(c, k).ret == NoError || FlushFrom(c, k).ret == InternalError
    decreases |c.slots| - k
  {
    if k < |c.slots| {
      FlushOneRet(c, k);
      FlushOneGood(c, k);
      if FlushOne(c, k).ret == NoError {
        FlushFromRet(FlushOne(c, k).core, k + 1);
      }
    }
  }

  // ------------------------------------------------------------- new streams

  lemma NewIsBooked(c: Core, k: nat, id: u32, path: seq<byte>)
    requires k < |c.slots| && id != 0
    ensures var d := Entered(c, k, id, path); SlotBooked(d.log, d.initialWindow, d.slots[k]) && Fresh(d, k, path)
  {
    NoteCredit(c.log, Opened(id, path), id);
    NoteStream(c.log, Opened(id, path), id);
  }

  lemma EnteredBooks(c: Core, k: nat, id: u32, path: seq<byte>)
    requires Good(c) && Books(c, 0) && Ample(c, 0) && k < |c.slots| && c.lastStreamId < id
    ensures var d := Entered(c, k, id, path);
            Books(d, id) && Ample(d, id) && SlotBooked(d.log, d.initialWindow, d.slots[k]) && Fresh(d, k, path)
  {
    var e := Opened(id, path);
    var d := Entered(c, k, id, path);
    NewIsBooked(c, k, id, path);
    NoteConn(c.log, e);
    NoteAcks(c.log, e);
    forall j | 0 <= j < |d.slots| && d.slots[j].id != id
      ensures SlotBooked(d.log, d.initialWindow, d.slots[j]) && Settled(d.slots[j]) {
      NoteCredit(c.log, e, c.slots[j].id);
      assert SlotOk(c.log, c.lastStreamId, c.slots[j]);
      assert c.slots[j].id != 0 ==> SlotBooked(c.log, c.initialWindow, c.slots[j]) && Settled(c.slots[j]);
    }
  }

  /** No room for a frame with a four-octet payload: RST_STREAM and WINDOW_UPDATE are equally long. */
  predicate Full(c: Core) {
    HEADER_LEN + 4 > OUTPUT_CAP - |c.pending|
  }

  /** What a handler must leave: balanced accounts, but for the stream it wants reset. */
  ghost predicate Leaves(r: Step, streamId: u32) {
    && (r.ret == NoError ==> Sound(r.core))
    && (IsStreamError(r.ret) ==> SoundBut(r.core, streamId) || Full(r.core))
  }

  lemma OpenRefused(c: Core, k: nat, id: u32, path: seq<byte>)
    requires Good(c) && Fresh(c, k, path) && |path| < VALUE_CAP && c.slots[k].id == id && Books(c, id) && Ample(c, id)
    ensures SoundBut(SetSlot(c, k, c.slots[k].(path := path)), id)
  {
    PathSet(c, k, path);
    SlotBooks(c, k, c.slots[k].(path := path), id);
  }

  lemma AnsweredLeaves(c: Core, k: nat, id: u32)
    requires Good(c) && Answering(c, k) && c.slots[k].id == id && Books(c, id) && Ample(c, 0)
    requires SlotBooked(c.log, c.initialWindow, c.slots[k])
    ensures Leaves(QueueResponse(c, k), id)
  {
    QueueResponseRet(c, k);
    if QueueResponse(c, k).ret == NoError {
      QueueResponseGood(c, k);
      QueueResponseBooks(c, k);
      AmpleAfter(c, QueueResponse(c, k).core, k, 0);
    }
  }

  lemma OpenAnswered(c: Core, k: nat, id: u32, path: seq<byte>, endStream: bool)
    requires Good(c) && Fresh(c, k, path) && |path| < VALUE_CAP && c.slots[k].id == id && Books(c, id) && Ample(c, id)
    requires SlotBooked(c.log, c.initialWindow, c.slots[k])
    ensures Leaves(QueueResponse(SetSlot(c, k, ReceiveHeaders(c.slots[k].(path := path), endStream).slot), k), id)
  {
    var s := ReceiveHeaders(c.slots[k].(path := path), endStream).slot;
    var d := SetSlot(c, k, s);
    HeadersTaken(c, k, path, endStream);
    SlotBooks(c, k, s, id);
    assert Ample(d, 0);
    AnsweredLeaves(d, k, id);
  }

  lemma OpenStreamLeaves(c: Core, k: nat, id: u32, endStream: bool, scan: PathScan)
    requires Good(c) && Fresh(c, k, scan.path) && |scan.path| < VALUE_CAP
    requires c.slots[k].id == id && Books(c, id) && Ample(c, id) && SlotBooked(c.log, c.initialWindow, c.slots[k])
    ensures Leaves(OpenStream(c, k, endStream, scan), id)
  {
    if scan.code != NoError {
      OpenRefused(c, k, id, scan.path);
    } else {
      OpenAnswered(c, k, id, scan.path, endStream);
    }
  }

  lemma EnteredLeaves(c: Core, k: nat, id: u32, endStream: bool, scan: PathScan)
    requires Sound(c) && k < |c.slots| && Reusable(c.slots[k])
    requires c.lastStreamId < id < U31_SPAN && id % 2 == 1 && |scan.path| < VALUE_CAP
    ensures Leaves(OpenStream(Entered(c, k, id, scan.path), k, endStream, scan), id)
  {
    EnteredGood(c, k, id, scan.path);
    EnteredBooks(c, k, id, scan.path);
    OpenStreamLeaves(Entered(c, k, id, scan.path), k, id, endStream, scan);
  }

  lemma FinishHeadersLeaves(c: Core, streamId: u32, endStream: bool, scan: PathScan)
    requires Sound(c) && streamId < U31_SPAN && |scan.path| < VALUE_CAP
    ensures Leaves(FinishHeaders(c, streamId, endStream, scan), streamId)
  {
    if streamId % 2 == 1 && c.lastStreamId < streamId {
      GetStreamIsFresh(c, streamId);
      var g := GetStream(c, streamId);
      if g.at.Some? {
        EnteredLeaves(c, g.at.value, streamId, endStream, scan);
      }
    }
  }

  // ------------------------------------------------------------ header blocks

  lemma BlockSound(c: Core, block: Block)
    requires Sound(c) && |block.bytes| <= BLOCK_CAP && block.streamId < U31_SPAN
    ensures Sound(c.(block := block))
  {
    ScalarStep(c, c.(block := block));
  }

  lemma ProcessHeadersLeaves(c: Core, h: FrameHeader, parsed: Result<HeadersPayload>)
    requires Sound(c) && h.streamId < U31_SPAN && (parsed.Err? ==> !IsStreamError(parsed.code) && parsed.code != NoError)
    ensures Leaves(ProcessHeaders(c, h, parsed), h.streamId)
  {
    if parsed.Ok? {
      if HasEndHeaders(h.flags) {
        ScanIsShort(parsed.value.block, [], VALUE_CAP);
        FinishHeadersLeaves(c, h.streamId, HasEndStream(h.flags), ExtractPath(parsed.value.block, VALUE_CAP));
      } else if !c.block.open && |parsed.value.block| <= BLOCK_CAP {
        BlockSound(c, Block(true, h.streamId, h.flags, [] + parsed.value.block));
      }
    }
  }

  lemma ProcessContinuationLeaves(c: Core, h: FrameHeader, parsed: Result<seq<byte>>)
    requires Sound(c) && (parsed.Err? ==> !IsStreamError(parsed.code) && parsed.code != NoError)
    ensures Leaves(ProcessContinuation(c, h, parsed), h.streamId)
  {
    if c.block.open && h.streamId == c.block.streamId && parsed.Ok? && AppendBlock(c, parsed.value).ret == NoError {
      var b := c.block.(bytes := c.block.bytes + parsed.value);
      BlockSound(c, b);
      if HasEndHeaders(h.flags) {
        BlockSound(c, b.(open := false));
        ScanIsShort(b.bytes, [], VALUE_CAP);
        FinishHeadersLeaves(c.(block := b.(open := false)), b.streamId, HasEndStream(b.flags), ExtractPath(b.bytes, VALUE_CAP));
      }
    }
  }

  // --------------------------------------------------------- receive windows

  lemma GrantReads(streamId: u32, increment: u32)
    requires WindowUpdateFrame(streamId, increment).Some?
    ensures IncrementOut(Out(WindowUpdateFrame(streamId, increment).value)) == increment
  {
    Read32OfBe32(increment, []);
    assert Be32(increment) + [] == Be32(increment);
  }

  lemma RefreshConnBooks(c: Core, except: u32)
    requires Books(c, except) && 0 <= c.recvWindow <= DEFAULT_WINDOW && RefreshConn(c).ret == NoError
    ensures Books(RefreshConn(c).core, except) && RefreshConn(c).core.recvWindow > HALF_WINDOW
  {
    if c.recvWindow <= HALF_WINDOW {
      var increment := DEFAULT_WINDOW - c.recvWindow;
      var e := Out(WindowUpdateFrame(0, increment).value);
      GrantReads(0, increment);
      NoteConn(c.log, e);
      NoteAcks(c.log, e);
      forall k | 0 <= k < |c.slots| && c.slots[k].id != except
        ensures SlotBooked(c.log + [e], c.initialWindow, c.slots[k]) {
        NoteCredit(c.log, e, c.slots[k].id);
        assert SlotBooked(c.log, c.initialWindow, c.slots[k]);
      }
    }
  }

  /** A WINDOW_UPDATE for one stream concerns no other account. */
  lemma StreamGrantBooks(c: Core, id: u32, increment: u32)
    requires Books(c, 0) && id != 0 && WindowUpdateFrame(id, increment).Some?
    ensures var e := Out(WindowUpdateFrame(id, increment).value);
            && Books(Note(c, e), id)
            && SendCredit(c.log + [e], id) == SendCredit(c.log, id)
            && RecvCredit(c.log + [e], id) == RecvCredit(c.log, id) + increment
  {
    var e := Out(WindowUpdateFrame(id, increment).value);
    GrantReads(id, increment);
    NoteConn(c.log, e);
    NoteAcks(c.log, e);
    NoteCredit(c.log, e, id);
    forall j | 0 <= j < |c.slots| && c.slots[j].id != id
      ensures SlotBooked(c.log + [e], c.initialWindow, c.slots[j]) && Settled(c.slots[j]) {
      NoteCredit(c.log, e, c.slots[j].id);
      assert c.slots[j].id != 0 ==> SlotBooked(c.log, c.initialWindow, c.slots[j]);
    }
  }

  lemma RefreshStreamIs(c: Core, k: nat, t: Slot, increment: u32)
    requires k < |c.slots| && 0 <= c.slots[k].recvWindow <= HALF_WINDOW
    requires t == c.slots[k].(recvWindow := DEFAULT_WINDOW) && increment == DEFAULT_WINDOW - c.slots[k].recvWindow
    ensures RefreshStream(c, k) == Emit(SetSlot(c, k, t), WindowUpdateFrame(t.id, increment))
  {
    assert increment % U32_SPAN == increment;
  }

  lemma GrantedBooks(c: Core, k: nat)
    requires Good(c) && k < |c.slots| && Live(c.slots[k]) && Books(c, 0) && c.slots[k].recvWindow <= HALF_WINDOW
    ensures var increment := DEFAULT_WINDOW - c.slots[k].recvWindow;
            increment < U31_SPAN && WindowUpdateFrame(c.slots[k].id, increment).Some? &&
            Books(SetSlot(Note(c, Out(WindowUpdateFrame(c.slots[k].id, increment).value)), k,
                          c.slots[k].(recvWindow := DEFAULT_WINDOW)), 0)
  {
    var s := c.slots[k];
    var increment := DEFAULT_WINDOW - s.recvWindow;
    GrantFits(c, k, increment);
    var f := WindowUpdateFrame(s.id, increment).value;
    StreamGrantBooks(c, s.id, increment);
    GrantSettles(c, k, f, s.(recvWindow := DEFAULT_WINDOW));
  }

  lemma GrantFits(c: Core, k: nat, increment: int)
    requires Good(c) && k < |c.slots| && Live(c.slots[k]) && increment == DEFAULT_WINDOW - c.slots[k].recvWindow
    requires c.slots[k].recvWindow <= HALF_WINDOW
    ensures 0 < increment < U31_SPAN && WindowUpdateFrame(c.slots[k].id, increment).Some?
  {
    assert SlotOk(c.log, c.lastStreamId, c.slots[k]);
  }

  lemma GrantSettles(c: Core, k: nat, f: Frame, t: Slot)
    requires Distinct(c.slots) && k < |c.slots| && Live(c.slots[k]) && Books(c, 0)
    requires Books(Note(c, Out(f)), t.id) && t == c.slots[k].(recvWindow := DEFAULT_WINDOW)
    requires SendCredit(c.log + [Out(f)], t.id) == SendCredit(c.log, t.id)
    requires RecvCredit(c.log + [Out(f)], t.id) == RecvCredit(c.log, t.id) + (DEFAULT_WINDOW - c.slots[k].recvWindow)
    ensures Books(SetSlot(Note(c, Out(f)), k, t), 0)
  {
    assert SlotBooked(c.log, c.initialWindow, c.slots[k]) && Settled(c.slots[k]);
    assert SlotBooked(c.log + [Out(f)], c.initialWindow, t);
    SettleSlot(Note(c, Out(f)), k, t);
  }

  lemma RefilledBooks(c: Core, k: nat, t: Slot, f: Frame)
    requires k < |c.slots| && Books(SetSlot(Note(c, Out(f)), k, t), 0) && Emit(SetSlot(c, k, t), Some(f)).ret == NoError
    ensures Books(Emit(SetSlot(c, k, t), Some(f)).core, 0)
  {
    BooksSame(SetSlot(Note(c, Out(f)), k, t), Emit(SetSlot(c, k, t), Some(f)).core, 0);
  }

  lemma RefreshStreamBooks(c: Core, k: nat)
    requires Good(c) && k < |c.slots| && Live(c.slots[k]) && Books(c, 0) && RefreshStream(c, k).ret == NoError
    ensures var d := RefreshStream(c, k).core;
            Books(d, 0) && d.slots == c.slots[k := d.slots[k]] && d.slots[k].recvWindow > HALF_WINDOW && d.recvWindow == c.recvWindow
  {
    var s := c.slots[k];
    assert SlotOk(c.log, c.lastStreamId, s);
    if s.recvWindow <= HALF_WINDOW {
      var t := s.(recvWindow := DEFAULT_WINDOW);
      var f := WindowUpdateFrame(s.id, DEFAULT_WINDOW - s.recvWindow).value;
      var r := Emit(SetSlot(c, k, t), Some(f));
      RefreshStreamIs(c, k, t, DEFAULT_WINDOW - s.recvWindow);
      GrantedBooks(c, k);
      assert RefreshStream(c, k) == r;
      RefilledBooks(c, k, t, f);
    }
  }

  /** When the connection's WINDOW_UPDATE cannot be queued, there is no room for an RST_STREAM either. */
  lemma FullForBoth(c: Core)
    requires 0 <= c.recvWindow <= DEFAULT_WINDOW && RefreshConn(c).ret != NoError
    ensures Full(RefreshConn(c).core)
  {
  }

  // -------------------------------------------------------------------- DATA

  /** Received DATA is charged to the connection; its stream is left out of account. */
  lemma ChargeConnBooks(c: Core, h: FrameHeader, payload: seq<byte>)
    requires Sound(c) && h.kind == DATA && h.streamId != 0 && h.length <= c.recvWindow
    ensures Books(Note(c, In(h, payload)).(recvWindow := c.recvWindow - h.length), h.streamId)
  {
    var e := In(h, payload);
    NoteConn(c.log, e);
    NoteAcks(c.log, e);
    forall k | 0 <= k < |c.slots| && c.slots[k].id != h.streamId
      ensures SlotBooked(c.log + [e], c.initialWindow, c.slots[k]) && Settled(c.slots[k]) {
      NoteCredit(c.log, e, c.slots[k].id);
      assert SlotOk(c.log, c.lastStreamId, c.slots[k]);
    }
  }

  lemma ClosedRefresh(c: Core, streamId: u32)
    requires Good(c) && Books(c, streamId) && AmpleSlots(c, streamId)
    ensures Leaves(Step(RefreshConn(c).core, StreamClosed), streamId)
  {
    RefreshConnGood(c);
    if RefreshConn(c).ret == NoError {
      RefreshConnBooks(c, streamId);
    } else {
      FullForBoth(c);
    }
  }

  lemma DataOnClosedLeaves(c: Core, h: FrameHeader, payload: seq<byte>)
    requires Sound(c) && h.kind == DATA && h.streamId != 0 && |payload| == h.length
    ensures Leaves(DataOnClosed(Note(c, In(h, payload)), h.length), h.streamId)
    ensures DataOnClosed(Note(c, In(h, payload)), h.length).ret != NoError
  {
    var d := Note(c, In(h, payload));
    if h.length <= c.recvWindow {
      TakeStep(c, h, payload);
      ChargeConn(d, h.length);
      ChargeConnBooks(c, h, payload);
      ClosedRefresh(d.(recvWindow := c.recvWindow - h.length), h.streamId);
    }
  }

  lemma ChargeBothBooks(c: Core, k: nat, h: FrameHeader, payload: seq<byte>, endStream: bool)
    requires Sound(c) && TakesData(c, k) && c.slots[k].id == h.streamId && h.kind == DATA && h.length <= c.recvWindow
    requires ReceiveData(c.slots[k], h.length, endStream).ret == NoError
    ensures var t := ReceiveData(c.slots[k], h.length, endStream).slot;
            var d := SetSlot(Note(c, In(h, payload)).(recvWindow := c.recvWindow - h.length), k, t);
            Books(d, 0) && AmpleSlots(d, h.streamId)
  {
    var t := ReceiveData(c.slots[k], h.length, endStream).slot;
    var e := Note(c, In(h, payload)).(recvWindow := c.recvWindow - h.length);
    assert SlotOk(c.log, c.lastStreamId, c.slots[k]);
    ChargeConnBooks(c, h, payload);
    NoteCredit(c.log, In(h, payload), h.streamId);
    assert Distinct(e.slots);
    var d := SetSlot(e, k, t);
    forall j | 0 <= j < |d.slots| && d.slots[j].id != 0
      ensures SlotBooked(d.log, d.initialWindow, d.slots[j]) && Settled(d.slots[j]) {
      assert j != k ==> c.slots[j].id != h.streamId;
    }
  }

  lemma AfterDataSound(c: Core, k: nat)
    requires Good(c) && Books(c, 0) && k < |c.slots| && c.slots[k].id != 0 && AmpleSlots(c, c.slots[k].id)
    requires AfterData(c, k, NoError).ret == NoError
    ensures Sound(AfterData(c, k, NoError).core)
  {
    AfterDataGood(c, k, NoError);
    RefreshConnGood(c);
    var r := RefreshConn(c);
    RefreshConnBooks(c, 0);
    assert Distinct(c.slots);
    if c.slots[k].state != Closed {
      RefreshStreamBooks(r.core, k);
    }
  }

  lemma AfterDataLeaves(c: Core, k: nat)
    requires Good(c) && Books(c, 0) && k < |c.slots| && c.slots[k].id != 0 && AmpleSlots(c, c.slots[k].id)
    ensures Leaves(AfterData(c, k, NoError), c.slots[k].id)
  {
    if AfterData(c, k, NoError).ret == NoError {
      AfterDataSound(c, k);
    }
  }

  lemma ChargedSound(c: Core, k: nat, h: FrameHeader, payload: seq<byte>, endStream: bool)
    requires Sound(c) && TakesData(c, k) && c.slots[k].id == h.streamId && h.kind == DATA && |payload| == h.length
    requires h.length <= c.recvWindow && ReceiveData(c.slots[k], h.length, endStream).ret == NoError
    ensures var e := SetSlot(Note(c, In(h, payload)).(recvWindow := c.recvWindow - h.length), k,
                             ReceiveData(c.slots[k], h.length, endStream).slot);
            Good(e) && Books(e, 0) && AmpleSlots(e, h.streamId)
  {
    TakeStep(c, h, payload);
    ChargeBoth(Note(c, In(h, payload)), k, h.length, endStream);
    ChargeBothBooks(c, k, h, payload, endStream);
  }

  lemma TakenLeaves(c: Core, k: nat, h: FrameHeader, payload: seq<byte>, endStream: bool)
    requires Sound(c) && TakesData(c, k) && c.slots[k].id == h.streamId && h.kind == DATA && |payload| == h.length
    requires h.length <= c.recvWindow && ReceiveData(c.slots[k], h.length, endStream).ret == NoError
    ensures Leaves(AfterData(SetSlot(Note(c, In(h, payload)).(recvWindow := c.recvWindow - h.length), k,
                                     ReceiveData(c.slots[k], h.length, endStream).slot), k, NoError), h.streamId)
  {
    ChargedSound(c, k, h, payload, endStream);
    AfterDataLeaves(SetSlot(Note(c, In(h, payload)).(recvWindow := c.recvWindow - h.length), k,
                            ReceiveData(c.slots[k], h.length, endStream).slot), k);
  }

  lemma DataOnOpenIs(c: Core, k: nat, length: nat, endStream: bool, e: Core, ret: Code)
    requires k < |c.slots| && 0 <= c.recvWindow && length <= c.recvWindow
    requires var taken := ReceiveData(c.slots[k], length, endStream);
             e == SetSlot(c.(recvWindow := c.recvWindow - length), k, taken.slot) && ret == taken.ret
    ensures DataOnOpen(c, k, length, endStream) == if ret != NoError then Step(e, ret) else AfterData(e, k, NoError)
  {
  }

  lemma TakenRet(s: Slot, length: nat, endStream: bool)
    requires s.state == Open || s.state == HalfClosedLocal
    ensures !IsStreamError(ReceiveData(s, length, endStream).ret)
  {
  }

  lemma DataOnOpenLeaves(c: Core, k: nat, h: FrameHeader, payload: seq<byte>, endStream: bool)
    requires Sound(c) && TakesData(c, k) && c.slots[k].id == h.streamId && h.kind == DATA && |payload| == h.length
    ensures Leaves(DataOnOpen(Note(c, In(h, payload)), k, h.length, endStream), h.streamId)
  {
    var d := Note(c, In(h, payload));
    var taken := ReceiveData(c.slots[k], h.length, endStream);
    if h.length <= c.recvWindow {
      var e := SetSlot(d.(recvWindow := c.recvWindow - h.length), k, taken.slot);
      DataOnOpenIs(d, k, h.length, endStream, e, taken.ret);
      TakenRet(c.slots[k], h.length, endStream);
      if taken.ret == NoError {
        TakenLeaves(c, k, h, payload, endStream);
      }
    }
  }
}
