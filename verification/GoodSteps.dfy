/** Every handler keeps the invariant, whatever it returns. */
module GoodSteps {
  import opened Bytes
  import opened FrameCodec
  import opened Streams
  import opened ConnectionSpec
  import opened History
  import opened Invariants

  // -------------------------------------------------------------- primitives

  lemma StepRefl(c: Core)
    requires Good(c)
    ensures GoodStep(c, c)
  {
  }

  lemma StepTrans(a: Core, b: Core, c: Core)
    requires GoodStep(a, b) && GoodStep(b, c)
    ensures GoodStep(a, c)
  {
    forall id: u32 | Retired(a, id) ensures Retired(c, id) && Talk(c.log, id) == Talk(a.log, id) {
      assert Retired(b, id);
    }
  }

  /** Changing only windows, settings or the block under assembly. */
  lemma ScalarStep(c: Core, d: Core)
    requires Good(c) && Scalars(d)
    requires d.slots == c.slots && d.log == c.log && d.lastStreamId == c.lastStreamId
    requires d.pending == c.pending && d.drained == c.drained && (c.goawaySent ==> d.goawaySent)
    ensures GoodStep(c, d)
  {
    forall id: u32 | Retired(c, id) ensures Retired(d, id) {
    }
  }

  lemma TakeStep(c: Core, h: FrameHeader, payload: seq<byte>)
    requires Good(c)
    ensures GoodStep(c, Note(c, In(h, payload)))
  {
    var e := In(h, payload);
    var d := Note(c, e);
    NoteSilent(c.log, e, c.lastStreamId, c.slots);
    NoteWhole(c.log, e);
    NoteWires(c.log, e);
    forall id: u32 | Retired(c, id) ensures Retired(d, id) && Talk(d.log, id) == Talk(c.log, id) {
      NoteStream(c.log, e, id);
    }
  }

  /** Frames that may be queued at any time: not a response, and not for a retired stream's windows. */
  ghost predicate Harmless(c: Core, f: Frame) {
    && Sendable(f)
    && f.kind != HEADERS && f.kind != DATA
    && (f.kind == GOAWAY ==> Goaways(c.log) == 0 && c.goawaySent)
    && (f.kind == WINDOW_UPDATE ==> (f.streamId == 0 || !Retired(c, f.streamId)) && LargeGrant(f))
  }

  lemma EmitStep(c: Core, frame: Option<Frame>)
    requires Good(c) && (frame.Some? ==> Harmless(c, frame.value))
    ensures GoodStep(c, Emit(c, frame).core)
  {
    var r := Emit(c, frame);
    if r.ret == NoError {
      var e := Out(frame.value);
      NoteSilent(c.log, e, c.lastStreamId, c.slots);
      NoteWhole(c.log, e);
      EmitFramed(c, frame.value);
      forall id: u32 | Retired(c, id) ensures Retired(r.core, id) && Talk(r.core.log, id) == Talk(c.log, id) {
        NoteStream(c.log, e, id);
      }
    } else {
      StepRefl(c);
    }
  }

  /** Replacing a slot by another for the same stream that never comes back to life. */
  lemma SlotStays(c: Core, k: nat, s: Slot)
    requires Good(c) && k < |c.slots| && c.slots[k].id == s.id != 0 && (Live(s) ==> Live(c.slots[k]))
    requires SlotOk(c.log, c.lastStreamId, s)
    ensures GoodStep(c, SetSlot(c, k, s))
  {
    var d := SetSlot(c, k, s);
    assert SlotOk(c.log, c.lastStreamId, c.slots[k]);
    forall j | 0 <= j < |d.slots| ensures SlotOk(d.log, d.lastStreamId, d.slots[j]) {
      assert SlotOk(c.log, c.lastStreamId, c.slots[j]);
    }
    forall id: u32 | Retired(c, id) ensures Retired(d, id) {
      forall j | 0 <= j < |d.slots| && d.slots[j].id == id ensures !Live(d.slots[j]) {
        assert c.slots[j].id == id;
      }
    }
  }

  lemma CloseStep(c: Core, k: nat)
    requires Good(c) && k < |c.slots| && c.slots[k].id != 0
    ensures GoodStep(c, SetSlot(c, k, Close(c.slots[k])))
  {
    assert SlotOk(c.log, c.lastStreamId, c.slots[k]);
    SlotStays(c, k, Close(c.slots[k]));
  }

  lemma FindIsFirst(slots: seq<Slot>, id: u32, k: nat)
    requires k <= |slots|
    ensures FindFrom(slots, id, k).None? ==> forall j :: k <= j < |slots| ==> slots[j].id != id
    decreases |slots| - k
  {
    if k < |slots| {
      FindIsFirst(slots, id, k + 1);
    }
  }

  // ----------------------------------------------------------------- windows

  lemma GrantStep(c: Core, streamId: u32, increment: u32)
    requires Good(c) && streamId < U31_SPAN && (streamId == 0 || !Retired(c, streamId))
    requires DEFAULT_WINDOW / 2 < increment <= DEFAULT_WINDOW
    ensures GoodStep(c, Emit(c, WindowUpdateFrame(streamId, increment)).core)
  {
    Read32OfBe32(increment, []);
    assert Be32(increment) + [] == Be32(increment);
    EmitStep(c, WindowUpdateFrame(streamId, increment));
  }

  lemma LiveIsNotRetired(c: Core, k: nat)
    requires k < |c.slots| && Live(c.slots[k])
    ensures !Retired(c, c.slots[k].id)
  {
  }

  lemma RefillConn(c: Core)
    requires Good(c)
    ensures GoodStep(c, c.(recvWindow := DEFAULT_WINDOW))
  {
    ScalarStep(c, c.(recvWindow := DEFAULT_WINDOW));
  }

  lemma RefreshConnGood(c: Core)
    requires Good(c)
    ensures GoodStep(c, RefreshConn(c).core)
  {
    if c.recvWindow <= DEFAULT_WINDOW / 2 {
      var d := c.(recvWindow := DEFAULT_WINDOW);
      RefillConn(c);
      var increment := (DEFAULT_WINDOW - c.recvWindow) % U32_SPAN;
      GrantStep(d, 0, increment);
      var e := Emit(d, WindowUpdateFrame(0, increment));
      StepTrans(c, d, e.core);
      assert RefreshConn(c) == e;
    } else {
      StepRefl(c);
    }
  }

  /** A live slot whose receive window is put back to its full size. */
  lemma RefillSlot(c: Core, k: nat, t: Slot)
    requires Good(c) && k < |c.slots| && Live(c.slots[k]) && t == c.slots[k].(recvWindow := DEFAULT_WINDOW)
    ensures GoodStep(c, SetSlot(c, k, t)) && !Retired(SetSlot(c, k, t), t.id) && t.id < U31_SPAN
  {
    assert SlotOk(c.log, c.lastStreamId, c.slots[k]);
    SlotStays(c, k, t);
    LiveIsNotRetired(SetSlot(c, k, t), k);
  }

  lemma RefreshStreamGood(c: Core, k: nat)
    requires Good(c) && k < |c.slots| && Live(c.slots[k])
    ensures GoodStep(c, RefreshStream(c, k).core)
  {
    var s := c.slots[k];
    if s.recvWindow <= DEFAULT_WINDOW / 2 {
      var t := s.(recvWindow := DEFAULT_WINDOW);
      var d := SetSlot(c, k, t);
      RefillSlot(c, k, t);
      var increment := (DEFAULT_WINDOW - s.recvWindow) % U32_SPAN;
      GrantStep(d, s.id, increment);
      var e := Emit(d, WindowUpdateFrame(s.id, increment));
      StepTrans(c, d, e.core);
      assert RefreshStream(c, k) == e;
    } else {
      StepRefl(c);
    }
  }

  lemma RefreshWindowsGood(c: Core, at: Option<nat>)
    requires Good(c) && (at.Some? ==> at.value < |c.slots| && Live(c.slots[at.value]))
    ensures GoodStep(c, RefreshWindows(c, at).core)
  {
    RefreshConnGood(c);
    var r := RefreshConn(c);
    if r.ret == NoError && at.Some? {
      RefreshStreamGood(r.core, at.value);
      StepTrans(c, r.core, RefreshWindows(c, at).core);
    }
  }

  // ---------------------------------------------------------------- settings

  lemma AdjustOneGood(c: Core, delta: int, k: nat)
    requires Good(c) && k < |c.slots|
    ensures GoodStep(c, AdjustOne(c, delta, k).core)
  {
    var s := c.slots[k];
    assert SlotOk(c.log, c.lastStreamId, s);
    if AdjustOne(c, delta, k).core == c {
      StepRefl(c);
    } else {
      SlotStays(c, k, s.(sendWindow := s.sendWindow + delta));
    }
  }

  lemma {:induction false} AdjustFromGood(c: Core, delta: int, k: nat)
    requires Good(c) && k <= |c.slots|
    ensures GoodStep(c, AdjustFrom(c, delta, k).core)
    decreases |c.slots| - k
  {
    StepRefl(c);
    if k < |c.slots| {
      var r := AdjustOne(c, delta, k);
      AdjustOneGood(c, delta, k);
      if r.ret == NoError {
        AdjustFromGood(r.core, delta, k + 1);
        StepTrans(c, r.core, AdjustFrom(r.core, delta, k + 1).core);
      }
    }
  }

  lemma ApplyOneGood(c: Core, item: Setting)
    requires Good(c)
    ensures GoodStep(c, ApplyOne(c, item).core)
  {
    var a := ApplyOne(c, item).core;
    if item.id == INITIAL_WINDOW_SIZE && item.value <= INT32_MAX {
      var r := AdjustFrom(c, item.value - c.initialWindow, 0);
      AdjustFromGood(c, item.value - c.initialWindow, 0);
      if r.ret == NoError {
        var d := r.core.(initialWindow := item.value);
        ScalarStep(r.core, d);
        StepTrans(c, r.core, d);
        assert a == d;
      } else {
        assert a == r.core;
      }
    } else if item.id == MAX_FRAME_SIZE_ID && DEFAULT_MAX_FRAME_SIZE <= item.value <= MAX_FRAME_SIZE {
      var d := c.(maxFrameSize := item.value);
      ScalarStep(c, d);
      assert a == d;
    } else {
      StepRefl(c);
      assert a == c;
    }
  }

  lemma {:induction false} ApplyAllGood(c: Core, items: seq<Setting>)
    requires Good(c)
    ensures GoodStep(c, ApplyAll(c, items).core)
    decreases |items|
  {
    StepRefl(c);
    if items != [] {
      var r := ApplyOne(c, items[0]);
      ApplyOneGood(c, items[0]);
      if r.ret == NoError {
        ApplyAllGood(r.core, items[1..]);
        StepTrans(c, r.core, ApplyAll(r.core, items[1..]).core);
      }
    }
  }

  lemma ApplySettingsGood(c: Core, ack: bool, parsed: Result<seq<Setting>>)
    requires Good(c)
    ensures GoodStep(c, ApplySettings(c, ack, parsed).core)
  {
    StepRefl(c);
    if parsed.Ok? && !ack {
      var r := ApplyAll(c, parsed.value);
      ApplyAllGood(c, parsed.value);
      if r.ret == NoError {
        EmitStep(r.core, SettingsFrame(FLAG_ACK, []));
        StepTrans(c, r.core, ApplySettings(c, ack, parsed).core);
      }
    }
  }
}
