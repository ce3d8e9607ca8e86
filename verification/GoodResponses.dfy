/** Responses, new streams and whole frames keep the invariant too, and so does every run. */
module GoodResponses {
  import opened Bytes
  import opened FrameCodec
  import opened HpackStatic
  import opened Streams
  import opened ConnectionSpec
  import opened History
  import opened Invariants
  import opened GoodSteps

  // --------------------------------------------------------------- responses

  lemma AnswerDiscipline(log: Log, last: u32, id: u32, f: Frame)
    requires Discipline(log, last) && IsNext(log, id, f) && id <= last && id % 2 == 1
    ensures Discipline(log + [Out(f)], last)
  {
    forall i: u32
      ensures |PathOf(log + [Out(f)], i)| < VALUE_CAP
      ensures i > last || i % 2 == 0 ==> Answered(log + [Out(f)], i) == 0 {
      NoteStream(log, Out(f), i);
    }
  }

  lemma AnswerTable(c: Core, k: nat, f: Frame, s: Slot)
    requires Table(c.log, c.lastStreamId, c.slots) && k < |c.slots| && Live(c.slots[k])
    requires s.id == f.streamId == c.slots[k].id && SlotOk(c.log + [Out(f)], c.lastStreamId, s)
    ensures Table(c.log + [Out(f)], c.lastStreamId, c.slots[k := s])
  {
    var log := c.log + [Out(f)];
    var slots := c.slots[k := s];
    forall j | 0 <= j < |slots| ensures SlotOk(log, c.lastStreamId, slots[j]) {
      assert SlotOk(c.log, c.lastStreamId, c.slots[j]);
      NoteStream(c.log, Out(f), slots[j].id);
    }
  }

  lemma NextIsSendable(log: Log, id: u32, f: Frame)
    requires IsNext(log, id, f) && 0 < id < U31_SPAN && Encodable(f)
    ensures Sendable(f) && f.streamId == id && (f.kind == HEADERS || f.kind == DATA)
  {
  }

  /** Queue the next response frame of slot `k`, and put the slot into the state that goes with it. */
  lemma AnswerStep(c: Core, k: nat, f: Frame, s: Slot)
    requires Good(c) && k < |c.slots| && Live(c.slots[k]) && s.id == c.slots[k].id
    requires IsNext(c.log, s.id, f) && Emit(c, Some(f)).ret == NoError
    requires SlotOk(c.log + [Out(f)], c.lastStreamId, s)
    ensures GoodStep(c, SetSlot(Emit(c, Some(f)).core, k, s))
  {
    assert SlotOk(c.log, c.lastStreamId, c.slots[k]);
    var d := SetSlot(Emit(c, Some(f)).core, k, s);
    AnswerDiscipline(c.log, c.lastStreamId, s.id, f);
    AnswerTable(c, k, f, s);
    NoteWhole(c.log, Out(f));
    NextIsSendable(c.log, s.id, f);
    EmitFramed(c, f);
    AnswerKeeps(c, k, f, s);
  }

  lemma AnswerKeeps(c: Core, k: nat, f: Frame, s: Slot)
    requires k < |c.slots| && Live(c.slots[k]) && s.id == f.streamId == c.slots[k].id
    requires Emit(c, Some(f)).ret == NoError
    ensures Keeps(c, SetSlot(Emit(c, Some(f)).core, k, s))
  {
    var d := SetSlot(Emit(c, Some(f)).core, k, s);
    NoteWhole(c.log, Out(f));
    forall id: u32 | Retired(c, id) ensures Retired(d, id) && Talk(d.log, id) == Talk(c.log, id) {
      NoteStream(c.log, Out(f), id);
      assert id != s.id;
      forall j | 0 <= j < |d.slots| && d.slots[j].id == id ensures !Live(d.slots[j]) {
        assert c.slots[j].id == id;
      }
    }
  }

  /** A slot with a request taken and no response finished. */
  ghost predicate Answering(c: Core, k: nat) {
    k < |c.slots| && (c.slots[k].state == Open || c.slots[k].state == HalfClosedRemote) && c.slots[k].id != 0
  }

  lemma BodyIsExpected(c: Core, k: nat)
    requires Good(c) && Answering(c, k)
    ensures |PathOf(c.log, c.slots[k].id)| < VALUE_CAP
    ensures Body(c.slots[k]) == BodyFor(PathOf(c.log, c.slots[k].id)) && |Body(c.slots[k])| < BODY_CAP
    ensures Answered(c.log, c.slots[k].id) == Count(c.slots[k])
  {
    assert SlotOk(c.log, c.lastStreamId, c.slots[k]);
  }

  lemma HeadersNext(c: Core, k: nat)
    requires Good(c) && Answering(c, k) && !c.slots[k].headersSent
    ensures |Body(c.slots[k])| < BODY_CAP
    ensures var s := c.slots[k];
            var f := HeadersOf(s.id, |Body(s)|);
            IsNext(c.log, s.id, f) && SlotOk(c.log + [Out(f)], c.lastStreamId, s.(headersSent := true))
  {
    var s := c.slots[k];
    BodyIsExpected(c, k);
    assert SlotOk(c.log, c.lastStreamId, s);
    NoteStream(c.log, Out(HeadersOf(s.id, |Body(s)|)), s.id);
  }

  lemma QueueHeadersGood(c: Core, k: nat)
    requires Good(c) && Answering(c, k)
    ensures |Body(c.slots[k])| < BODY_CAP
    ensures var r := QueueHeaders(c, k, |Body(c.slots[k])|);
            && GoodStep(c, r.core)
            && (r.ret == NoError ==> r.core.slots == c.slots[k := c.slots[k].(headersSent := true)])
            && (r.ret != NoError ==> r.core.slots == c.slots)
  {
    var s := c.slots[k];
    BodyIsExpected(c, k);
    if s.headersSent {
      StepRefl(c);
      assert c.slots[k := s.(headersSent := true)] == c.slots;
    } else {
      var f := HeadersOf(s.id, |Body(s)|);
      var e := Emit(c, Some(f));
      assert HeadersFrame(s.id, FLAG_END_HEADERS, ResponseBlock(|Body(s)|)) == Some(f);
      if e.ret == NoError {
        HeadersNext(c, k);
        AnswerStep(c, k, f, s.(headersSent := true));
      } else {
        StepRefl(c);
      }
    }
  }

  lemma DataSentGood(c: Core, k: nat)
    requires Good(c) && Answering(c, k) && c.slots[k].headersSent && !Blocked(c, c.slots[k], |Body(c.slots[k])|)
    requires Emit(c, Some(DataOf(c.slots[k].id, Body(c.slots[k])))).ret == NoError
    ensures var e := Emit(c, Some(DataOf(c.slots[k].id, Body(c.slots[k])))).core;
            GoodStep(c, DataSent(e, k, |Body(c.slots[k])|).core)
  {
    var s := c.slots[k];
    BodyIsExpected(c, k);
    assert SlotOk(c.log, c.lastStreamId, s);
    var f := DataOf(s.id, Body(s));
    var e := Emit(c, Some(f)).core;
    var r := DataSent(e, k, |Body(s)|);
    var t := r.core.slots[k];
    NoteStream(c.log, Out(f), s.id);
    assert SlotOk(e.log, c.lastStreamId, t);
    AnswerStep(c, k, f, t);
    ScalarStep(SetSlot(e, k, t), r.core);
    StepTrans(c, SetSlot(e, k, t), r.core);
  }

  lemma QueueDeferredDataGood(c: Core, k: nat)
    requires Good(c) && Answering(c, k) && c.slots[k].headersSent
    ensures GoodStep(c, QueueDeferredData(c, k, Body(c.slots[k])).core)
  {
    var s := c.slots[k];
    var body := Body(s);
    assert SlotOk(c.log, c.lastStreamId, s);
    var r := QueueDeferredData(c, k, body);
    if Blocked(c, s, |body|) {
      SlotStays(c, k, s.(bodyDeferred := true));
    } else {
      assert DataFrame(s.id, FLAG_END_STREAM, body) == Some(DataOf(s.id, body));
      if Emit(c, Some(DataOf(s.id, body))).ret == NoError {
        DataSentGood(c, k);
      } else {
        StepRefl(c);
      }
    }
  }

  lemma NameSlot(c: Core, k: nat)
    requires Good(c) && Answering(c, k)
    ensures var named := SetSlot(c, k, c.slots[k].(path := PathOrSlash(c.slots[k].path)));
            GoodStep(c, named) && Answering(named, k) && Body(named.slots[k]) == Body(c.slots[k])
  {
    var s := c.slots[k];
    assert SlotOk(c.log, c.lastStreamId, s);
    SlotStays(c, k, s.(path := PathOrSlash(s.path)));
  }

  lemma QueueResponseGood(c: Core, k: nat)
    requires Good(c) && Answering(c, k)
    ensures GoodStep(c, QueueResponse(c, k).core)
  {
    var s := c.slots[k];
    if s.responseSent {
      StepRefl(c);
    } else {
      var named := SetSlot(c, k, s.(path := PathOrSlash(s.path)));
      NameSlot(c, k);
      BodyIsExpected(c, k);
      QueueHeadersGood(named, k);
      var r := QueueHeaders(named, k, |Body(s)|);
      StepTrans(c, named, r.core);
      if r.ret == NoError {
        QueueDeferredDataGood(r.core, k);
        StepTrans(c, r.core, QueueDeferredData(r.core, k, Body(s)).core);
      }
    }
  }

  lemma FlushOneGood(c: Core, k: nat)
    requires Good(c) && k < |c.slots|
    ensures GoodStep(c, FlushOne(c, k).core)
  {
    assert SlotOk(c.log, c.lastStreamId, c.slots[k]);
    if Waiting(c.slots[k]) {
      QueueResponseGood(c, k);
    } else {
      StepRefl(c);
    }
  }

  lemma {:induction false} FlushFromGood(c: Core, k: nat)
    requires Good(c) && k <= |c.slots|
    ensures GoodStep(c, FlushFrom(c, k).core)
    decreases |c.slots| - k
  {
    StepRefl(c);
    if k < |c.slots| {
      var r := FlushOne(c, k);
      FlushOneGood(c, k);
      if r.ret == NoError {
        FlushFromGood(r.core, k + 1);
        StepTrans(c, r.core, FlushFrom(r.core, k + 1).core);
      }
    }
  }
}
