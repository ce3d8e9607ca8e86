/** The remaining frames, error recovery, and whole runs: the accounts balance whenever every feed succeeds. */
module LedgerRuns {
  import opened Bytes
  import opened FrameCodec
  import opened Streams
  import opened ConnectionSpec
  import opened History
  import opened Invariants
  import opened GoodSteps
  import opened GoodRuns
  import opened Ledger
  import opened LedgerSteps

  // ------------------------------------------------------------ send windows

  /** A parsed increment is the one the log counts. */
  lemma CreditReads(h: FrameHeader, payload: seq<byte>)
    requires |payload| == h.length && ParseWindowUpdate(h, payload).Ok?
    ensures IncrementIn(In(h, payload)) == ParseWindowUpdate(h, payload).value && h.kind == WINDOW_UPDATE
  {
  }

  lemma CreditConnBooks(c: Core, h: FrameHeader, payload: seq<byte>)
    requires Sound(c) && |payload| == h.length && ParseWindowUpdate(h, payload).Ok? && h.streamId == 0
    requires c.sendWindow + ParseWindowUpdate(h, payload).value <= INT32_MAX
    ensures Sound(Note(c, In(h, payload)).(sendWindow := c.sendWindow + ParseWindowUpdate(h, payload).value))
  {
    var e := In(h, payload);
    var d := Note(c, e).(sendWindow := c.sendWindow + ParseWindowUpdate(h, payload).value);
    CreditReads(h, payload);
    TakeStep(c, h, payload);
    ScalarStep(Note(c, e), d);
    NoteConn(c.log, e);
    NoteAcks(c.log, e);
    forall k | 0 <= k < |c.slots| && c.slots[k].id != 0 ensures SlotBooked(c.log + [e], c.initialWindow, c.slots[k]) {
      NoteCredit(c.log, e, c.slots[k].id);
      assert SlotBooked(c.log, c.initialWindow, c.slots[k]);
    }
  }

  /** A grant for a stream concerns only that stream's account. */
  lemma CreditNoted(c: Core, h: FrameHeader, payload: seq<byte>)
    requires Sound(c) && |payload| == h.length && ParseWindowUpdate(h, payload).Ok? && h.streamId != 0
    ensures var d := Note(c, In(h, payload));
            && SoundBut(d, h.streamId)
            && SendCredit(d.log, h.streamId) == SendCredit(c.log, h.streamId) + ParseWindowUpdate(h, payload).value
            && RecvCredit(d.log, h.streamId) == RecvCredit(c.log, h.streamId)
  {
    var e := In(h, payload);
    CreditReads(h, payload);
    TakeStep(c, h, payload);
    NoteConn(c.log, e);
    NoteAcks(c.log, e);
    NoteCredit(c.log, e, h.streamId);
    forall k | 0 <= k < |c.slots| && c.slots[k].id != h.streamId
      ensures SlotBooked(c.log + [e], c.initialWindow, c.slots[k]) && Settled(c.slots[k]) {
      NoteCredit(c.log, e, c.slots[k].id);
      assert SlotOk(c.log, c.lastStreamId, c.slots[k]);
    }
  }

  lemma NoSuchSlot(c: Core, id: u32)
    requires SoundBut(c, id) && Find(c.slots, id).None?
    ensures Sound(c)
  {
    FindIsFirst(c.slots, id, 0);
  }

  lemma CreditedSound(c: Core, k: nat, h: FrameHeader, payload: seq<byte>)
    requires Sound(c) && |payload| == h.length && ParseWindowUpdate(h, payload).Ok? && h.streamId != 0
    requires k < |c.slots| && c.slots[k].id == h.streamId
    requires AddSendWindow(c.slots[k], ParseWindowUpdate(h, payload).value).ret == NoError
    ensures Sound(SetSlot(Note(c, In(h, payload)), k, AddSendWindow(c.slots[k], ParseWindowUpdate(h, payload).value).slot))
  {
    var d := Note(c, In(h, payload));
    var s := AddSendWindow(c.slots[k], ParseWindowUpdate(h, payload).value).slot;
    CreditNoted(c, h, payload);
    assert SlotBooked(c.log, c.initialWindow, c.slots[k]) && Settled(c.slots[k]);
    assert SlotOk(d.log, d.lastStreamId, d.slots[k]);
    SlotStays(d, k, s);
    SettleSlot(d, k, s);
    assert Distinct(d.slots);
  }

  lemma ConnCreditLeaves(c: Core, h: FrameHeader, payload: seq<byte>)
    requires Sound(c) && |payload| == h.length && ParseWindowUpdate(h, payload).Ok? && h.streamId == 0
    ensures Leaves(ProcessWindowUpdate(Note(c, In(h, payload)), 0, ParseWindowUpdate(h, payload)), 0)
  {
    var parsed := ParseWindowUpdate(h, payload);
    if c.sendWindow + parsed.value <= INT32_MAX {
      var e := Note(c, In(h, payload)).(sendWindow := c.sendWindow + parsed.value);
      CreditConnBooks(c, h, payload);
      FlushFromRet(e, 0);
      if FlushFrom(e, 0).ret == NoError {
        FlushFromSound(e, 0);
      }
    }
  }

  lemma StreamCreditLeaves(c: Core, h: FrameHeader, payload: seq<byte>)
    requires Sound(c) && |payload| == h.length && ParseWindowUpdate(h, payload).Ok? && h.streamId != 0
    ensures Leaves(ProcessWindowUpdate(Note(c, In(h, payload)), h.streamId, ParseWindowUpdate(h, payload)), h.streamId)
  {
    var d := Note(c, In(h, payload));
    var parsed := ParseWindowUpdate(h, payload);
    CreditNoted(c, h, payload);
    var at := Find(c.slots, h.streamId);
    if at.None? {
      NoSuchSlot(d, h.streamId);
    } else {
      var credited := AddSendWindow(c.slots[at.value], parsed.value);
      if credited.ret == NoError {
        var e := SetSlot(d, at.value, credited.slot);
        CreditedSound(c, at.value, h, payload);
        FlushFromRet(e, 0);
        if FlushFrom(e, 0).ret == NoError {
          FlushFromSound(e, 0);
        }
      }
    }
  }

  lemma ProcessWindowUpdateLeaves(c: Core, h: FrameHeader, payload: seq<byte>)
    requires Sound(c) && |payload| == h.length && h.kind == WINDOW_UPDATE
    ensures Leaves(ProcessWindowUpdate(Note(c, In(h, payload)), h.streamId, ParseWindowUpdate(h, payload)), h.streamId)
  {
    if ParseWindowUpdate(h, payload).Ok? {
      if h.streamId == 0 {
        ConnCreditLeaves(c, h, payload);
      } else {
        StreamCreditLeaves(c, h, payload);
      }
    }
  }

  // ---------------------------------------------------------------- settings

  /** Slot for slot, what shifting the send windows from `k` on by `delta` does. */
  ghost predicate Shifted(before: seq<Slot>, after: seq<Slot>, delta: int, k: nat) {
    && |after| == |before|
    && forall j :: 0 <= j < |before| ==>
         after[j] == if j >= k && Live(before[j]) then before[j].(sendWindow := before[j].sendWindow + delta) else before[j]
  }

  lemma {:induction false} AdjustFromShifts(c: Core, delta: int, k: nat)
    requires k <= |c.slots| && AdjustFrom(c, delta, k).ret == NoError
    ensures var d := AdjustFrom(c, delta, k).core; Shifted(c.slots, d.slots, delta, k) && d == c.(slots := d.slots)
    decreases |c.slots| - k
  {
    if k < |c.slots| {
      AdjustFromShifts(AdjustOne(c, delta, k).core, delta, k + 1);
    }
  }

  /** Applying settings moves every live send window by as much as the initial window moves. */
  ghost predicate Reset(c: Core, d: Core) {
    && Shifted(c.slots, d.slots, d.initialWindow - c.initialWindow, 0)
    && d == c.(slots := d.slots, initialWindow := d.initialWindow, maxFrameSize := d.maxFrameSize)
  }

  lemma ApplyOneResets(c: Core, item: Setting)
    requires ApplyOne(c, item).ret == NoError
    ensures var d := ApplyOne(c, item).core;
            Reset(c, d) && d.initialWindow == LastInitial([item], c.initialWindow)
  {
    if item.id == INITIAL_WINDOW_SIZE {
      AdjustFromShifts(c, item.value - c.initialWindow, 0);
    }
  }

  lemma {:induction false} ApplyAllResets(c: Core, items: seq<Setting>)
    requires ApplyAll(c, items).ret == NoError
    ensures var d := ApplyAll(c, items).core; Reset(c, d) && d.initialWindow == LastInitial(items, c.initialWindow)
    decreases |items|
  {
    if items != [] {
      ApplyOneResets(c, items[0]);
      var d := ApplyOne(c, items[0]).core;
      ApplyAllResets(d, items[1..]);
      assert LastInitial([items[0]], c.initialWindow) == if items[0].id == INITIAL_WINDOW_SIZE then items[0].value else c.initialWindow;
    }
  }

  lemma SettingsAckIs()
    ensures SettingsFrame(FLAG_ACK, []) == Some(Frame(SETTINGS, FLAG_ACK, 0, []))
    ensures IsAck(Frame(SETTINGS, FLAG_ACK, 0, []))
  {
  }

  const SETTINGS_ACK := Frame(SETTINGS, FLAG_ACK, 0, [])

  lemma AcknowledgedSlot(c: Core, h: FrameHeader, payload: seq<byte>, initial: int, k: nat)
    requires Sound(c) && h.kind == SETTINGS && k < |c.slots| && c.slots[k].id != 0
    ensures var s := c.slots[k];
            var t := if Live(s) then s.(sendWindow := s.sendWindow + (initial - c.initialWindow)) else s;
            SlotBooked(c.log + [In(h, payload)] + [Out(SETTINGS_ACK)], initial, t) && Settled(t)
  {
    var e, a := In(h, payload), Out(SETTINGS_ACK);
    NoteCredit(c.log, e, c.slots[k].id);
    NoteCredit(c.log + [e], a, c.slots[k].id);
    assert SlotBooked(c.log, c.initialWindow, c.slots[k]) && Settled(c.slots[k]);
  }

  /** The settings are in force and acknowledged. */
  lemma AcknowledgedBooks(c: Core, d: Core, h: FrameHeader, payload: seq<byte>)
    requires Sound(c) && h.kind == SETTINGS && !HasAck(h.flags) && |payload| % 6 == 0
    requires Reset(Note(c, In(h, payload)), d) && d.initialWindow == LastInitial(SettingsIn(payload), c.initialWindow)
    ensures Books(Note(d, Out(SETTINGS_ACK)), 0)
    ensures Ample(Note(d, Out(SETTINGS_ACK)), 0)
  {
    var e, a := In(h, payload), Out(SETTINGS_ACK);
    NoteConn(c.log, e);
    NoteConn(c.log + [e], a);
    NoteAcks(c.log, e);
    NoteAcks(c.log + [e], a);
    forall k | 0 <= k < |c.slots| && c.slots[k].id != 0
      ensures SlotBooked(d.log + [a], d.initialWindow, d.slots[k]) && Settled(d.slots[k]) {
      AcknowledgedSlot(c, h, payload, d.initialWindow, k);
    }
  }

  lemma ApplyOneRet(c: Core, item: Setting)
    ensures !IsStreamError(ApplyOne(c, item).ret)
  {
    if item.id == INITIAL_WINDOW_SIZE {
      AdjustFromRet(c, item.value - c.initialWindow, 0);
    }
  }

  lemma {:induction false} AdjustFromRet(c: Core, delta: int, k: nat)
    requires k <= |c.slots|
    ensures !IsStreamError(AdjustFrom(c, delta, k).ret)
    decreases |c.slots| - k
  {
    if k < |c.slots| && AdjustOne(c, delta, k).ret == NoError {
      AdjustFromRet(AdjustOne(c, delta, k).core, delta, k + 1);
    }
  }

  lemma {:induction false} ApplyAllRet(c: Core, items: seq<Setting>)
    ensures !IsStreamError(ApplyAll(c, items).ret)
    decreases |items|
  {
    if items != [] {
      ApplyOneRet(c, items[0]);
      if ApplyOne(c, items[0]).ret == NoError {
        ApplyAllRet(ApplyOne(c, items[0]).core, items[1..]);
      }
    }
  }

  lemma AckQueued(c: Core)
    requires Books(Note(c, Out(SETTINGS_ACK)), 0) && Ample(Note(c, Out(SETTINGS_ACK)), 0)
    requires Emit(c, Some(SETTINGS_ACK)).ret == NoError
    ensures Books(Emit(c, Some(SETTINGS_ACK)).core, 0) && Ample(Emit(c, Some(SETTINGS_ACK)).core, 0)
  {
    BooksSame(Note(c, Out(SETTINGS_ACK)), Emit(c, Some(SETTINGS_ACK)).core, 0);
  }

  lemma ApplyListIs(c: Core, items: seq<Setting>, r: Step)
    requires r == ApplyAll(c, items)
    ensures ApplySettings(c, false, Ok(items)) == if r.ret != NoError then r else Emit(r.core, Some(SETTINGS_ACK))
  {
    SettingsAckIs();
  }

  lemma ApplyListLeaves(c: Core, h: FrameHeader, payload: seq<byte>)
    requires Sound(c) && h.kind == SETTINGS && !HasAck(h.flags) && |payload| % 6 == 0
    ensures var r := ApplySettings(Note(c, In(h, payload)), false, Ok(SettingsIn(payload)));
            !IsStreamError(r.ret) && (r.ret == NoError ==> Books(r.core, 0) && Ample(r.core, 0))
  {
    var d := Note(c, In(h, payload));
    var r := ApplyAll(d, SettingsIn(payload));
    ApplyAllRet(d, SettingsIn(payload));
    ApplyListIs(d, SettingsIn(payload), r);
    if r.ret == NoError {
      ApplyAllResets(d, SettingsIn(payload));
      AcknowledgedBooks(c, r.core, h, payload);
      if Emit(r.core, Some(SETTINGS_ACK)).ret == NoError {
        AckQueued(r.core);
      }
    }
  }

  lemma ApplySettingsLeaves(c: Core, h: FrameHeader, payload: seq<byte>)
    requires Sound(c) && |payload| == h.length && h.kind == SETTINGS
    ensures var r := ApplySettings(Note(c, In(h, payload)), HasAck(h.flags), ParseSettings(h, payload, SETTINGS_MAX));
            !IsStreamError(r.ret) && (r.ret == NoError ==> Sound(r.core))
  {
    var d := Note(c, In(h, payload));
    var parsed := ParseSettings(h, payload, SETTINGS_MAX);
    TakeStep(c, h, payload);
    ApplySettingsGood(d, HasAck(h.flags), parsed);
    if parsed.Ok? {
      if HasAck(h.flags) {
        NeutralBooks(c, In(h, payload), 0);
      } else {
        ApplyListLeaves(c, h, payload);
      }
    }
  }

  // -------------------------------------------------------------------- PING

  lemma ProcessPingLeaves(c: Core, h: FrameHeader, payload: seq<byte>)
    requires Sound(c) && |payload| == h.length && h.kind == PING
    ensures var r := ProcessPing(Note(c, In(h, payload)), HasAck(h.flags), ParsePing(h, payload));
            !IsStreamError(r.ret) && (r.ret == NoError ==> Sound(r.core))
  {
    var e := In(h, payload);
    var d := Note(c, e);
    var parsed := ParsePing(h, payload);
    TakeStep(c, h, payload);
    if parsed.Ok? {
      if HasAck(h.flags) {
        NeutralBooks(c, e, 0);
      } else {
        var a := Out(Frame(PING, FLAG_ACK, 0, payload));
        ProcessPingGood(d, false, parsed);
        NoteConn(c.log, e);
        NoteConn(c.log + [e], a);
        NoteAcks(c.log, e);
        NoteAcks(c.log + [e], a);
        forall k | 0 <= k < |c.slots| && c.slots[k].id != 0
          ensures SlotBooked(c.log + [e] + [a], c.initialWindow, c.slots[k]) {
          NoteCredit(c.log, e, c.slots[k].id);
          NoteCredit(c.log + [e], a, c.slots[k].id);
          assert SlotBooked(c.log, c.initialWindow, c.slots[k]);
        }
      }
    }
  }

  // --------------------------------------------------------- the other frames

  /** Taking up a frame that moves no window and asks for no acknowledgement. */
  lemma NeutralSound(c: Core, h: FrameHeader, payload: seq<byte>)
    requires Sound(c) && Neutral(In(h, payload))
    ensures Sound(Note(c, In(h, payload)))
  {
    TakeStep(c, h, payload);
    NeutralBooks(c, In(h, payload), 0);
  }

  lemma ProcessDataLeaves(c: Core, h: FrameHeader, payload: seq<byte>)
    requires Sound(c) && |payload| == h.length && h.kind == DATA
    ensures Leaves(ProcessData(Note(c, In(h, payload)), h, ParseData(h, payload)), h.streamId)
    ensures IsStreamError(ProcessData(Note(c, In(h, payload)), h, ParseData(h, payload)).ret) ==> h.streamId != 0
  {
    if ParseData(h, payload).Ok? {
      var at := Find(c.slots, h.streamId);
      if at.Some? {
        if c.slots[at.value].state == Open || c.slots[at.value].state == HalfClosedLocal {
          DataOnOpenLeaves(c, at.value, h, payload, HasEndStream(h.flags));
        } else {
          DataOnClosedLeaves(c, h, payload);
        }
      }
    }
  }

  lemma ProcessRstStreamLeaves(c: Core, streamId: u32, parsed: Result<u32>)
    requires Sound(c) && (parsed.Err? ==> !IsStreamError(parsed.code) && parsed.code != NoError)
    requires parsed.Ok? ==> streamId != 0
    ensures Leaves(ProcessRstStream(c, streamId, parsed), streamId)
  {
    if parsed.Ok? && Find(c.slots, streamId).Some? {
      var k := Find(c.slots, streamId).value;
      CloseStep(c, k);
      SlotBooks(c, k, Close(c.slots[k]), 0);
    }
  }

  lemma ProcessFrameLeaves(c: Core, h: FrameHeader, payload: seq<byte>)
    requires Sound(c) && |payload| == h.length && h.streamId < U31_SPAN
    ensures Leaves(ProcessFrame(Note(c, In(h, payload)), h, payload), h.streamId)
  {
    var d := Note(c, In(h, payload));
    if h.length <= c.maxFrameSize && !(c.block.open && (h.kind != CONTINUATION || h.streamId != c.block.streamId)) {
      if h.kind == DATA {
        ProcessDataLeaves(c, h, payload);
      } else if h.kind == SETTINGS {
        ApplySettingsLeaves(c, h, payload);
      } else if h.kind == PING {
        ProcessPingLeaves(c, h, payload);
      } else if h.kind == WINDOW_UPDATE {
        ProcessWindowUpdateLeaves(c, h, payload);
      } else {
        NeutralSound(c, h, payload);
        if h.kind == HEADERS {
          ProcessHeadersLeaves(d, h, ParseHeaders(h, payload));
        } else if h.kind == RST_STREAM {
          ProcessRstStreamLeaves(d, h.streamId, ParseRstStream(h, payload));
        } else if h.kind == CONTINUATION {
          ProcessContinuationLeaves(d, h, ParseContinuation(h, payload));
        }
      }
    }
  }

  // ------------------------------------------------------------------ errors

  lemma ResetSound(c: Core, streamId: u32, errorCode: u32)
    requires SoundBut(c, streamId) && 0 < streamId < U31_SPAN && ResetStream(c, streamId, errorCode).ret == NoError
    ensures Sound(ResetStream(c, streamId, errorCode).core)
  {
    var f := RstStreamFrame(streamId, errorCode).value;
    var e := Emit(c, Some(f)).core;
    ResetStreamGood(c, streamId, errorCode);
    EmitBooks(c, f, streamId);
    var at := Find(c.slots, streamId);
    if at.Some? {
      SettleSlot(e, at.value, Close(c.slots[at.value]));
      assert Distinct(c.slots);
    } else {
      FindIsFirst(c.slots, streamId, 0);
    }
  }

  lemma FullMeansNoReset(c: Core, streamId: u32, errorCode: u32)
    requires Full(c)
    ensures ResetStream(c, streamId, errorCode).ret != NoError
  {
  }

  lemma RecoverSound(r: Step, streamId: u32)
    requires Leaves(r, streamId) && streamId < U31_SPAN && Recover(r, streamId).ret == NoError
    ensures Sound(Recover(r, streamId).core)
  {
    if r.ret != NoError {
      if Full(r.core) {
        FullMeansNoReset(r.core, streamId, r.ret.Number());
      } else {
        ResetSound(r.core, streamId, r.ret.Number());
      }
    }
  }

  lemma HandleFrameSound(c: Core, h: FrameHeader, payload: seq<byte>)
    requires Sound(c) && |payload| == h.length && h.streamId < U31_SPAN && HandleFrame(c, h, payload).ret == NoError
    ensures Sound(HandleFrame(c, h, payload).core)
  {
    ProcessFrameLeaves(c, h, payload);
    RecoverSound(ProcessFrame(Note(c, In(h, payload)), h, payload), h.streamId);
  }

  // -------------------------------------------------------------------- runs

  lemma {:induction false} DrainSound(c: Core, input: seq<byte>)
    requires Sound(c) && Drain(c, input).ret == NoError
    ensures Sound(Drain(c, input).core)
    decreases |input|
  {
    if FrameReady(input) {
      HandleFrameSound(c, ParseHeader(input).value, input[HEADER_LEN..FrameEnd(input)]);
      DrainSound(HandleHead(c, input).core, input[FrameEnd(input)..]);
    }
  }

  lemma HelloSound(c: Core)
    requires Sound(c) && OutCount(c.log) == 0
    ensures QueueSettings(c).ret == NoError && Sound(QueueSettings(c).core)
  {
    QueueSettingsOk(c);
    assert SettingsFrame(0, [Setting(ENABLE_PUSH, 0)]) == Some(HELLO);
    EmitBooks(c, HELLO, 0);
  }

  lemma FeedSound(conn: Conn, data: seq<byte>)
    requires ConnOk(conn) && Sound(conn.core) && Feed(conn, data).ret == NoError
    ensures Sound(Feed(conn, data).conn.core)
  {
    var fed := conn.(input := conn.input + data);
    AppendInput(conn, data);
    if conn.prefaceSeen {
      DrainSound(conn.core, fed.input);
    } else if |fed.input| >= PREFACE_LEN {
      HelloSound(conn.core);
      DrainSound(QueueSettings(conn.core).core, fed.input[PREFACE_LEN..]);
    }
  }

  lemma ConsumeSound(conn: Conn, n: nat)
    requires ConnOk(conn) && Sound(conn.core)
    ensures Sound(Consume(conn.core, n))
  {
    ConsumeOk(conn, n);
    BooksSame(conn.core, Consume(conn.core, n), 0);
  }

  lemma InitialSound()
    ensures Sound(InitialCore())
  {
    InitialOk();
  }

  /** After any run in which every feed returned OK, with any partial writes in between. */
  lemma {:induction false} EveryGoodRun(ops: seq<Op>)
    requires Run(ops).allOk
    ensures ConnOk(Run(ops).conn) && Sound(Run(ops).conn.core)
    decreases |ops|
  {
    EveryRun(ops);
    if ops == [] {
      InitialSound();
    } else {
      var before := ops[..|ops| - 1];
      EveryGoodRun(before);
      match ops[|ops| - 1] {
        case Receive(data) => FeedSound(Run(before).conn, data);
        case Sent(n) => ConsumeSound(Run(before).conn, n);
      }
    }
  }
}
