/** What a WINDOW_UPDATE achieves for deferred responses, and what only it achieves. */
module Flushing {
  import opened Bytes
  import opened FrameCodec
  import opened HpackStatic
  import opened HpackSpec
  import opened Streams
  import opened ConnectionSpec
  import opened History
  import opened Invariants
  import opened GoodSteps
  import opened GoodResponses
  import opened GoodRuns
  import opened LedgerSteps
  import opened LedgerRuns

  /** The slot's deferred body is longer than the connection's or its own send window. */
  predicate Stuck(c: Core, s: Slot) {
    Waiting(s) ==> Blocked(c, s, |Body(s)|)
  }

  ghost predicate AllStuck(c: Core) {
    forall k :: 0 <= k < |c.slots| ==> Stuck(c, c.slots[k])
  }

  /** A response step spends connection window at most, and touches one slot. */
  ghost predicate Spends(c: Core, d: Core, k: nat) {
    k < |c.slots| == |d.slots| && d.slots == c.slots[k := d.slots[k]] && d.sendWindow <= c.sendWindow
  }

  lemma QueueResponseSpends(c: Core, k: nat)
    requires Good(c) && Answering(c, k) && QueueResponse(c, k).ret == NoError
    ensures var d := QueueResponse(c, k).core; Spends(c, d, k) && Stuck(d, d.slots[k])
  {
    var s := c.slots[k];
    assert SlotOk(c.log, c.lastStreamId, s);
    var named := SetSlot(c, k, s.(path := PathOrSlash(s.path)));
    NameSlot(c, k);
    BodyIsExpected(c, k);
    QueueHeadersGood(named, k);
    var r := QueueHeaders(named, k, |Body(s)|);
    var e := QueueDeferredData(r.core, k, Body(s));
    assert QueueResponse(c, k) == e;
    assert r.core.slots[k].path == PathOrSlash(s.path);
    DeferredSpends(r.core, k, Body(s));
  }

  lemma DeferredSpends(c: Core, k: nat, body: seq<byte>)
    requires k < |c.slots| && (c.slots[k].state == Open || c.slots[k].state == HalfClosedRemote)
    requires body == Body(c.slots[k]) && QueueDeferredData(c, k, body).ret == NoError
    ensures var d := QueueDeferredData(c, k, body).core; Spends(c, d, k) && Stuck(d, d.slots[k])
  {
  }

  lemma FlushOneSpends(c: Core, k: nat)
    requires Good(c) && k < |c.slots| && FlushOne(c, k).ret == NoError
    ensures var d := FlushOne(c, k).core; Spends(c, d, k) && Stuck(d, d.slots[k])
  {
    assert SlotOk(c.log, c.lastStreamId, c.slots[k]);
    if Waiting(c.slots[k]) {
      QueueResponseSpends(c, k);
    }
  }

  /** The pass leaves no slot it visited with a body that both windows could carry, although each response
      it sends shrinks the connection window under the slots before. */
  lemma {:induction false} FlushFromSticks(c: Core, k: nat)
    requires Good(c) && k <= |c.slots| && FlushFrom(c, k).ret == NoError
    ensures var d := FlushFrom(c, k).core;
            && |d.slots| == |c.slots| && d.sendWindow <= c.sendWindow
            && (forall j :: 0 <= j < k ==> d.slots[j] == c.slots[j])
            && (forall j :: k <= j < |d.slots| ==> Stuck(d, d.slots[j]))
    decreases |c.slots| - k
  {
    if k < |c.slots| {
      var d := FlushOne(c, k).core;
      FlushOneSpends(c, k);
      FlushOneGood(c, k);
      FlushFromSticks(d, k + 1);
    }
  }

  lemma CreditFlushes(c: Core, h: FrameHeader, payload: seq<byte>)
    requires Good(c) && |payload| == h.length && h.streamId < U31_SPAN && h.kind == WINDOW_UPDATE
    requires h.streamId == 0 || Find(c.slots, h.streamId).Some?
    requires ProcessWindowUpdate(c, h.streamId, ParseWindowUpdate(h, payload)).ret == NoError
    ensures AllStuck(ProcessWindowUpdate(c, h.streamId, ParseWindowUpdate(h, payload)).core)
  {
    var parsed := ParseWindowUpdate(h, payload);
    if h.streamId == 0 {
      var d := c.(sendWindow := c.sendWindow + parsed.value);
      ScalarStep(c, d);
      FlushFromSticks(d, 0);
    } else {
      var k := Find(c.slots, h.streamId).value;
      FoundIsOwned(c, h.streamId);
      CreditedGood(c, k, parsed.value);
      FlushFromSticks(SetSlot(c, k, AddSendWindow(c.slots[k], parsed.value).slot), 0);
    }
  }

  /** A WINDOW_UPDATE that is accepted, for the connection or for a stream in the table, makes all the
      progress there is to make. */
  lemma WindowUpdateFlushes(c: Core, h: FrameHeader, payload: seq<byte>)
    requires Good(c) && |payload| == h.length && h.streamId < U31_SPAN && h.kind == WINDOW_UPDATE
    requires h.streamId == 0 || Find(c.slots, h.streamId).Some?
    requires HandleFrame(c, h, payload).ret == NoError
    ensures AllStuck(HandleFrame(c, h, payload).core)
  {
    var d := Note(c, In(h, payload));
    TakeStep(c, h, payload);
    if ProcessFrame(d, h, payload) == ProcessWindowUpdate(d, h.streamId, ParseWindowUpdate(h, payload)) {
      CreditRet(d, h, payload);
      CreditFlushes(d, h, payload);
    }
  }

  lemma CreditedGood(c: Core, k: nat, increment: u32)
    requires Good(c) && k < |c.slots| && c.slots[k].id != 0
    ensures Good(SetSlot(c, k, AddSendWindow(c.slots[k], increment).slot))
  {
    assert SlotOk(c.log, c.lastStreamId, c.slots[k]);
    SlotStays(c, k, AddSendWindow(c.slots[k], increment).slot);
  }

  // ------------------------------------------------------------ other frames

  /** The connection goes on after this result. */
  predicate Survives(ret: Code) {
    ret == NoError || IsStreamError(ret)
  }

  /** No response waits anew, or for less, and no send window has grown. */
  ghost predicate Quieter(c: Core, d: Core) {
    && |d.slots| == |c.slots| && d.sendWindow <= c.sendWindow
    && forall k :: 0 <= k < |d.slots| && Waiting(d.slots[k]) ==>
         && Waiting(c.slots[k]) && d.slots[k].path == c.slots[k].path
         && d.slots[k].sendWindow <= c.slots[k].sendWindow
  }

  lemma QuieterSticks(c: Core, d: Core)
    requires AllStuck(c) && Quieter(c, d)
    ensures AllStuck(d)
  {
    forall k | 0 <= k < |d.slots| ensures Stuck(d, d.slots[k]) {
      assert Stuck(c, c.slots[k]);
    }
  }

  lemma OneSlotSticks(c: Core, d: Core, k: nat)
    requires AllStuck(c) && Spends(c, d, k) && Stuck(d, d.slots[k])
    ensures AllStuck(d)
  {
  }

  lemma FinishHeadersSticks(c: Core, streamId: u32, endStream: bool, scan: PathScan)
    requires Good(c) && AllStuck(c) && streamId < U31_SPAN && |scan.path| < VALUE_CAP
    requires Survives(FinishHeaders(c, streamId, endStream, scan).ret)
    ensures AllStuck(FinishHeaders(c, streamId, endStream, scan).core)
  {
    if streamId % 2 == 1 && c.lastStreamId < streamId {
      GetStreamIsFresh(c, streamId);
      var g := GetStream(c, streamId);
      if g.at.Some? {
        var d := Entered(c, g.at.value, streamId, scan.path);
        assert FinishHeaders(c, streamId, endStream, scan) == OpenStream(d, g.at.value, endStream, scan);
        EnteredGood(c, g.at.value, streamId, scan.path);
        EnteredDiscipline(c.log, c.lastStreamId, streamId, scan.path);
        OneSlotSticks(c, d, g.at.value);
        OpenStreamSticks(d, g.at.value, endStream, scan);
      }
    }
  }

  lemma OpenStreamSticks(c: Core, k: nat, endStream: bool, scan: PathScan)
    requires Good(c) && AllStuck(c) && Fresh(c, k, scan.path) && |scan.path| < VALUE_CAP
    requires Survives(OpenStream(c, k, endStream, scan).ret)
    ensures AllStuck(OpenStream(c, k, endStream, scan).core)
  {
    if scan.code != NoError {
      OneSlotSticks(c, SetSlot(c, k, c.slots[k].(path := scan.path)), k);
    } else {
      var d := SetSlot(c, k, ReceiveHeaders(c.slots[k].(path := scan.path), endStream).slot);
      HeadersTaken(c, k, scan.path, endStream);
      OneSlotSticks(c, d, k);
      QueueResponseRet(d, k);
      QueueResponseSpends(d, k);
      OneSlotSticks(d, QueueResponse(d, k).core, k);
    }
  }

  lemma AfterDataQuiet(c: Core, k: nat, ret: Code)
    requires k < |c.slots|
    ensures Quieter(c, AfterData(c, k, ret).core)
  {
  }

  lemma TakenQuiet(c: Core, k: nat, length: nat, endStream: bool)
    requires k < |c.slots|
    ensures Quieter(c, SetSlot(c.(recvWindow := c.recvWindow - length), k, ReceiveData(c.slots[k], length, endStream).slot))
  {
  }

  lemma DataOnOpenQuiet(c: Core, k: nat, length: nat, endStream: bool)
    requires k < |c.slots|
    ensures Quieter(c, DataOnOpen(c, k, length, endStream).core)
  {
    var taken := ReceiveData(c.slots[k], length, endStream);
    TakenQuiet(c, k, length, endStream);
    AfterDataQuiet(SetSlot(c.(recvWindow := c.recvWindow - length), k, taken.slot), k, taken.ret);
  }

  lemma DataOnClosedQuiet(c: Core, length: nat)
    ensures Quieter(c, DataOnClosed(c, length).core)
  {
  }

  lemma ProcessDataQuiet(c: Core, h: FrameHeader, parsed: Result<DataPayload>)
    ensures Quieter(c, ProcessData(c, h, parsed).core)
  {
    var at := Find(c.slots, h.streamId);
    if parsed.Ok? && at.Some? {
      DataOnOpenQuiet(c, at.value, h.length, HasEndStream(h.flags));
      DataOnClosedQuiet(c, h.length);
    }
  }

  lemma ResetStreamQuiet(c: Core, streamId: u32, errorCode: u32)
    ensures Quieter(c, ResetStream(c, streamId, errorCode).core)
  {
  }

  lemma ApplySettingsQuiet(c: Core, ack: bool, parsed: Result<seq<Setting>>)
    requires ApplySettings(c, ack, parsed).ret == NoError
    requires !ack && parsed.Ok? ==> LastInitial(parsed.value, c.initialWindow) <= c.initialWindow
    ensures Quieter(c, ApplySettings(c, ack, parsed).core)
  {
    if !ack && parsed.Ok? {
      ApplyAllResets(c, parsed.value);
    }
  }

  lemma ProcessHeadersSticks(c: Core, h: FrameHeader, parsed: Result<HeadersPayload>)
    requires Good(c) && AllStuck(c) && h.streamId < U31_SPAN && Survives(ProcessHeaders(c, h, parsed).ret)
    ensures AllStuck(ProcessHeaders(c, h, parsed).core)
  {
    if parsed.Ok? && HasEndHeaders(h.flags) {
      ScanIsShort(parsed.value.block, [], VALUE_CAP);
      FinishHeadersSticks(c, h.streamId, HasEndStream(h.flags), ExtractPath(parsed.value.block, VALUE_CAP));
    }
  }

  lemma ProcessContinuationSticks(c: Core, h: FrameHeader, parsed: Result<seq<byte>>)
    requires Good(c) && AllStuck(c) && Survives(ProcessContinuation(c, h, parsed).ret)
    ensures AllStuck(ProcessContinuation(c, h, parsed).core)
  {
    if c.block.open && h.streamId == c.block.streamId && parsed.Ok? {
      var r := AppendBlock(c, parsed.value);
      AppendBlockGood(c, parsed.value);
      if r.ret == NoError && HasEndHeaders(h.flags) {
        var b := r.core.block;
        var d := r.core.(block := b.(open := false));
        ScalarStep(r.core, d);
        ScanIsShort(b.bytes, [], VALUE_CAP);
        FinishHeadersSticks(d, b.streamId, HasEndStream(b.flags), ExtractPath(b.bytes, VALUE_CAP));
      }
    }
  }

  /** The initial window a frame asks for. */
  function AsksFor(c: Core, h: FrameHeader, payload: seq<byte>): int {
    InitialIn(In(h, payload), c.initialWindow)
  }

  lemma SettingsSticks(c: Core, h: FrameHeader, payload: seq<byte>)
    requires Good(c) && AllStuck(c) && |payload| == h.length && h.kind == SETTINGS
    requires Survives(ApplySettings(c, HasAck(h.flags), ParseSettings(h, payload, SETTINGS_MAX)).ret)
    requires AsksFor(c, h, payload) <= c.initialWindow
    ensures AllStuck(ApplySettings(c, HasAck(h.flags), ParseSettings(h, payload, SETTINGS_MAX)).core)
  {
    var parsed := ParseSettings(h, payload, SETTINGS_MAX);
    if parsed.Ok? && !HasAck(h.flags) {
      ApplyAllRet(c, parsed.value);
    }
    ApplySettingsQuiet(c, HasAck(h.flags), parsed);
    QuieterSticks(c, ApplySettings(c, HasAck(h.flags), parsed).core);
  }

  lemma WindowUpdateSticks(c: Core, h: FrameHeader, payload: seq<byte>)
    requires Good(c) && AllStuck(c) && |payload| == h.length && h.streamId < U31_SPAN && h.kind == WINDOW_UPDATE
    requires Survives(ProcessWindowUpdate(c, h.streamId, ParseWindowUpdate(h, payload)).ret)
    ensures AllStuck(ProcessWindowUpdate(c, h.streamId, ParseWindowUpdate(h, payload)).core)
  {
    if h.streamId == 0 || Find(c.slots, h.streamId).Some? {
      CreditRet(c, h, payload);
      CreditFlushes(c, h, payload);
    }
  }

  lemma CreditRet(c: Core, h: FrameHeader, payload: seq<byte>)
    requires Good(c) && |payload| == h.length && h.streamId < U31_SPAN && h.kind == WINDOW_UPDATE
    ensures !IsStreamError(ProcessWindowUpdate(c, h.streamId, ParseWindowUpdate(h, payload)).ret)
  {
    var parsed := ParseWindowUpdate(h, payload);
    if parsed.Ok? && h.streamId == 0 && c.sendWindow + parsed.value <= INT32_MAX {
      var d := c.(sendWindow := c.sendWindow + parsed.value);
      ScalarStep(c, d);
      FlushFromRet(d, 0);
    } else if parsed.Ok? && h.streamId != 0 && Find(c.slots, h.streamId).Some? {
      var k := Find(c.slots, h.streamId).value;
      FoundIsOwned(c, h.streamId);
      CreditedGood(c, k, parsed.value);
      FlushFromRet(SetSlot(c, k, AddSendWindow(c.slots[k], parsed.value).slot), 0);
    }
  }

  lemma ProcessFrameSticks(c: Core, h: FrameHeader, payload: seq<byte>)
    requires Good(c) && AllStuck(c) && |payload| == h.length && h.streamId < U31_SPAN
    requires Survives(ProcessFrame(c, h, payload).ret) && AsksFor(c, h, payload) <= c.initialWindow
    ensures AllStuck(ProcessFrame(c, h, payload).core)
  {
    var r := ProcessFrame(c, h, payload);
    if h.length <= c.maxFrameSize && !(c.block.open && (h.kind != CONTINUATION || h.streamId != c.block.streamId)) {
      if h.kind == DATA {
        ProcessDataQuiet(c, h, ParseData(h, payload));
        QuieterSticks(c, r.core);
      } else if h.kind == HEADERS {
        ProcessHeadersSticks(c, h, ParseHeaders(h, payload));
      } else if h.kind == SETTINGS {
        SettingsSticks(c, h, payload);
      } else if h.kind == WINDOW_UPDATE {
        WindowUpdateSticks(c, h, payload);
      } else if h.kind == CONTINUATION {
        ProcessContinuationSticks(c, h, ParseContinuation(h, payload));
      } else {
        assert Quieter(c, r.core);
        QuieterSticks(c, r.core);
      }
    }
  }

  /** Short of a SETTINGS that raises the initial window, nothing that a connection survives strands a
      response: what was blocked stays blocked until a WINDOW_UPDATE flushes it. */
  lemma FramesKeepStuck(c: Core, h: FrameHeader, payload: seq<byte>)
    requires Good(c) && AllStuck(c) && |payload| == h.length && h.streamId < U31_SPAN
    requires HandleFrame(c, h, payload).ret == NoError && AsksFor(c, h, payload) <= c.initialWindow
    ensures AllStuck(HandleFrame(c, h, payload).core)
  {
    var d := Note(c, In(h, payload));
    var r := ProcessFrame(d, h, payload);
    TakeStep(c, h, payload);
    QuieterSticks(c, d);
    ProcessFrameSticks(d, h, payload);
    if r.ret != NoError {
      ResetStreamQuiet(r.core, h.streamId, r.ret.Number());
      QuieterSticks(r.core, ResetStream(r.core, h.streamId, r.ret.Number()).core);
    }
  }

  // ------------------------------------------------------------------- SETTINGS

  lemma SettingsDispatch(e: Core, h: FrameHeader, payload: seq<byte>)
    requires |payload| == h.length && h.kind == SETTINGS
    ensures ProcessFrame(e, h, payload) == ApplySettings(e, HasAck(h.flags), ParseSettings(h, payload, SETTINGS_MAX))
            || (ProcessFrame(e, h, payload).ret != NoError && !IsStreamError(ProcessFrame(e, h, payload).ret))
  {
  }

  lemma NoStreamErrorInSettings(e: Core, h: FrameHeader, payload: seq<byte>)
    requires |payload| == h.length && h.kind == SETTINGS
    ensures !IsStreamError(ApplySettings(e, HasAck(h.flags), ParseSettings(h, payload, SETTINGS_MAX)).ret)
  {
    var parsed := ParseSettings(h, payload, SETTINGS_MAX);
    if parsed.Ok? && !HasAck(h.flags) {
      ApplyAllRet(e, parsed.value);
    }
  }

  /** Nothing is recovered from an error that is not a stream's. */
  lemma RecoverPlain(r: Step, streamId: u32)
    requires Recover(r, streamId).ret == NoError && !IsStreamError(r.ret)
    ensures r.ret == NoError && Recover(r, streamId) == r
  {
  }

  /** Accepted SETTINGS are all in force, and acknowledged. */
  lemma SettingsAccepted(c: Core, h: FrameHeader, payload: seq<byte>)
    requires |payload| == h.length && h.kind == SETTINGS && !HasAck(h.flags) && HandleFrame(c, h, payload).ret == NoError
    ensures |payload| % 6 == 0
    ensures HandleFrame(c, h, payload) == ApplySettings(Note(c, In(h, payload)), false, Ok(SettingsIn(payload)))
  {
    var e := Note(c, In(h, payload));
    SettingsDispatch(e, h, payload);
    NoStreamErrorInSettings(e, h, payload);
    RecoverPlain(ProcessFrame(e, h, payload), h.streamId);
  }

  /** Will the slot's body still be longer than a window, once the initial window is `initial`? */
  predicate StuckAfter(c: Core, initial: int, s: Slot) {
    Waiting(s) ==> c.sendWindow < |Body(s)| || s.sendWindow + (initial - c.initialWindow) < |Body(s)|
  }

  lemma ResetSticksIff(c: Core, d: Core, k: nat)
    requires Reset(c, d) && k < |c.slots|
    ensures Stuck(d, d.slots[k]) <==> StuckAfter(c, d.initialWindow, c.slots[k])
  {
  }

  /** SETTINGS do not flush. They leave every deferred response blocked exactly when each was too long for the
      connection's window, or still is for its own after the shift; otherwise one is left behind sendable. */
  lemma SettingsStrandIff(c: Core, h: FrameHeader, payload: seq<byte>)
    requires |payload| == h.length && h.kind == SETTINGS && !HasAck(h.flags) && HandleFrame(c, h, payload).ret == NoError
    ensures AllStuck(HandleFrame(c, h, payload).core)
            <==> forall k :: 0 <= k < |c.slots| ==> StuckAfter(c, AsksFor(c, h, payload), c.slots[k])
  {
    var e := Note(c, In(h, payload));
    var items := SettingsIn(payload);
    SettingsAccepted(c, h, payload);
    ApplyListIs(e, items, ApplyAll(e, items));
    ApplyAllResets(e, items);
    StrandsIff(c, e, ApplyAll(e, items).core, HandleFrame(c, h, payload).core);
  }

  lemma StrandsIff(c: Core, e: Core, r: Core, d: Core)
    requires e == c.(log := e.log) && Reset(e, r) && d == r.(pending := d.pending, log := d.log)
    ensures AllStuck(d) <==> forall k :: 0 <= k < |c.slots| ==> StuckAfter(c, d.initialWindow, c.slots[k])
  {
    forall k | 0 <= k < |c.slots| ensures Stuck(d, d.slots[k]) <==> StuckAfter(c, d.initialWindow, c.slots[k]) {
      ResetSticksIff(e, r, k);
    }
  }

  // ---------------------------------------------------------- refused settings

  /** The slots below `k` have been shifted, the others not. */
  ghost predicate ShiftedBelow(before: seq<Slot>, after: seq<Slot>, delta: int, k: nat) {
    && |after| == |before|
    && forall j :: 0 <= j < |before| ==>
         after[j] == if j < k && Live(before[j]) then before[j].(sendWindow := before[j].sendWindow + delta) else before[j]
  }

  lemma {:induction false} AdjustFromStops(c: Core, delta: int, from: nat) returns (k: nat)
    requires from <= |c.slots| && AdjustFrom(c, delta, from).ret != NoError
    ensures from <= k < |c.slots| && Live(c.slots[k])
    ensures !(INT32_MIN <= c.slots[k].sendWindow + delta <= INT32_MAX)
    ensures var d := AdjustFrom(c, delta, from).core;
            && d == c.(slots := d.slots) && |d.slots| == |c.slots|
            && forall j :: 0 <= j < |c.slots| ==>
                 d.slots[j] == if from <= j < k && Live(c.slots[j]) then c.slots[j].(sendWindow := c.slots[j].sendWindow + delta) else c.slots[j]
    decreases |c.slots| - from
  {
    var r := AdjustOne(c, delta, from);
    if r.ret != NoError {
      k := from;
    } else {
      k := AdjustFromStops(r.core, delta, from + 1);
    }
  }

  /** What a refused list leaves: the settings before the refused one in force, and of that one nothing but,
      for an initial window that some stream cannot take, the shift of the streams before it. */
  lemma {:induction false} RefusedSettings(c: Core, items: seq<Setting>) returns (n: nat, k: nat)
    requires ApplyAll(c, items).ret != NoError
    ensures n < |items| && ApplyAll(c, items[..n]).ret == NoError
    ensures var m, d := ApplyAll(c, items[..n]).core, ApplyAll(c, items).core;
            && d == m.(slots := d.slots) && ShiftedBelow(m.slots, d.slots, items[n].value - m.initialWindow, k)
            && (k > 0 ==> items[n].id == INITIAL_WINDOW_SIZE && k < |m.slots| && Live(m.slots[k])
                          && !(INT32_MIN <= m.slots[k].sendWindow + (items[n].value - m.initialWindow) <= INT32_MAX))
    decreases |items|
  {
    var r := ApplyOne(c, items[0]);
    if r.ret != NoError {
      n := 0;
      k := RefusedSetting(c, items[0]);
      assert items[..0] == [];
    } else {
      n, k := RefusedSettings(r.core, items[1..]);
      assert items[1..][..n] == items[..n + 1][1..];
      n := n + 1;
    }
  }

  lemma RefusedSetting(c: Core, item: Setting) returns (k: nat)
    requires ApplyOne(c, item).ret != NoError
    ensures var d := ApplyOne(c, item).core;
            && d == c.(slots := d.slots) && ShiftedBelow(c.slots, d.slots, item.value - c.initialWindow, k)
            && (k > 0 ==> item.id == INITIAL_WINDOW_SIZE && k < |c.slots| && Live(c.slots[k])
                          && !(INT32_MIN <= c.slots[k].sendWindow + (item.value - c.initialWindow) <= INT32_MAX))
  {
    k := 0;
    if item.id == INITIAL_WINDOW_SIZE && item.value <= INT32_MAX {
      k := AdjustFromStops(c, item.value - c.initialWindow, 0);
    }
  }
}
