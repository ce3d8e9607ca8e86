/** On runs in which every feed succeeds, the connection's counters are exactly what the log says. */
module Ledger {
  import opened Bytes
  import opened FrameCodec
  import opened Streams
  import opened ConnectionSpec
  import opened History
  import opened Invariants
  import opened GoodResponses

  const HALF_WINDOW := DEFAULT_WINDOW / 2

  /** A slot in use is past idle, and still to be answered exactly when its body is deferred. */
  predicate Settled(s: Slot) {
    s.id != 0 ==>
      && s.state != Idle
      && (s.state == Open || s.state == HalfClosedRemote ==> s.bodyDeferred)
  }

  ghost predicate SlotBooked(log: Log, initial: int, s: Slot) {
    Live(s) ==>
      && s.sendWindow == initial + SendCredit(log, s.id)
      && s.recvWindow == DEFAULT_WINDOW + RecvCredit(log, s.id)
  }

  ghost predicate ConnBooked(c: Core) {
    && c.sendWindow == ConnSend(c.log)
    && c.recvWindow == ConnRecv(c.log)
    && c.initialWindow == InitialWindow(c.log)
    && Debt(c.log) == None && Punctual(c.log)
    && FlowRespected(c.log)
  }

  /** All accounts balance, but for what concerns stream `except`. */
  ghost predicate Books(c: Core, except: u32) {
    && ConnBooked(c)
    && forall k :: 0 <= k < |c.slots| && c.slots[k].id != except
                   ==> SlotBooked(c.log, c.initialWindow, c.slots[k]) && Settled(c.slots[k])
  }

  ghost predicate AmpleSlots(c: Core, except: u32) {
    forall k :: 0 <= k < |c.slots| && c.slots[k].id != except && Live(c.slots[k]) ==> c.slots[k].recvWindow > HALF_WINDOW
  }

  /** Both kinds of receive window are more than half open. */
  ghost predicate Ample(c: Core, except: u32) {
    c.recvWindow > HALF_WINDOW && AmpleSlots(c, except)
  }

  ghost predicate SoundBut(c: Core, except: u32) {
    Good(c) && Books(c, except) && Ample(c, except)
  }

  ghost predicate Sound(c: Core) {
    SoundBut(c, 0)
  }

  // ------------------------------------------------------------------ events

  lemma NoteConn(log: Log, e: Event)
    ensures ConnSend(log + [e]) == ConnSend(log) + (if Takes(e, WINDOW_UPDATE, 0) then IncrementIn(e)
                                                    else if e.Out? && e.frame.kind == DATA then -(|e.frame.payload| as int) else 0)
    ensures ConnRecv(log + [e]) == ConnRecv(log) + (if Sends(e, WINDOW_UPDATE, 0) then IncrementOut(e)
                                                    else if e.In? && e.header.kind == DATA then -(e.header.length as int) else 0)
    ensures InitialWindow(log + [e]) == InitialIn(e, InitialWindow(log))
    ensures FlowRespected(log + [e]) <==> FlowRespected(log) && Affordable(log, e)
  {
    NoteUnfolds(log, e);
  }

  lemma NoteCredit(log: Log, e: Event, id: u32)
    ensures SendCredit(log + [e], id) == if e.Opened? && e.id == id then 0
                                         else SendCredit(log, id) + (if Takes(e, WINDOW_UPDATE, id) then IncrementIn(e)
                                                                     else if Sends(e, DATA, id) then -(|e.frame.payload| as int) else 0)
    ensures RecvCredit(log + [e], id) == if e.Opened? && e.id == id then 0
                                         else RecvCredit(log, id) + (if Sends(e, WINDOW_UPDATE, id) then IncrementOut(e)
                                                                     else if Takes(e, DATA, id) then -(e.header.length as int) else 0)
  {
    NoteUnfolds(log, e);
  }

  lemma NoteAcks(log: Log, e: Event)
    ensures Debt(log + [e]) == if Indebts(e) then Some(AckOf(e.header, e.payload))
                               else if e.Out? && IsAck(e.frame) then None else Debt(log)
    ensures Punctual(log + [e]) <==> && Punctual(log) && (Indebts(e) ==> Debt(log) == None)
                                     && (e.Out? && IsAck(e.frame) ==> Debt(log) == Some(e.frame))
  {
    NoteUnfolds(log, e);
  }

  /** Events that move no window and owe or settle no acknowledgement. */
  predicate Neutral(e: Event) {
    match e
    case In(h, _) => h.kind != DATA && h.kind != WINDOW_UPDATE && (h.kind == SETTINGS || h.kind == PING ==> HasAck(h.flags))
    case Opened(_, _) => false
    case Out(f) => f.kind != DATA && f.kind != WINDOW_UPDATE && !IsAck(f)
  }

  lemma NeutralBooks(c: Core, e: Event, except: u32)
    requires Books(c, except) && Neutral(e)
    ensures Books(Note(c, e), except)
  {
    NoteConn(c.log, e);
    NoteAcks(c.log, e);
    forall k | 0 <= k < |c.slots| && c.slots[k].id != except
      ensures SlotBooked(c.log + [e], c.initialWindow, c.slots[k]) {
      NoteCredit(c.log, e, c.slots[k].id);
      assert SlotBooked(c.log, c.initialWindow, c.slots[k]);
    }
  }

  /** The pending octets are not on the books. */
  lemma EmitBooks(c: Core, f: Frame, except: u32)
    requires Books(c, except) && Neutral(Out(f))
    ensures Books(Emit(c, Some(f)).core, except)
  {
    NeutralBooks(c, Out(f), except);
  }

  lemma BooksSame(c: Core, d: Core, except: u32)
    requires Books(c, except) && d.slots == c.slots && d.log == c.log
    requires d.sendWindow == c.sendWindow && d.recvWindow == c.recvWindow && d.initialWindow == c.initialWindow
    ensures Books(d, except)
  {
  }

  /** Replace one slot by another that is itself in order. */
  lemma SlotBooks(c: Core, k: nat, s: Slot, except: u32)
    requires Books(c, except) && k < |c.slots|
    requires s.id == c.slots[k].id || c.slots[k].id != except
    requires s.id != except ==> SlotBooked(c.log, c.initialWindow, s) && Settled(s)
    ensures Books(SetSlot(c, k, s), except)
  {
  }

  /** The excepted stream's one slot is put in order again. */
  lemma SettleSlot(c: Core, k: nat, s: Slot)
    requires Distinct(c.slots) && k < |c.slots| && s.id == c.slots[k].id != 0 && Books(c, s.id)
    requires SlotBooked(c.log, c.initialWindow, s) && Settled(s)
    ensures Books(SetSlot(c, k, s), 0)
  {
    var d := SetSlot(c, k, s);
    forall j | 0 <= j < |d.slots| && d.slots[j].id != 0
      ensures SlotBooked(d.log, d.initialWindow, d.slots[j]) && Settled(d.slots[j]) {
      assert j != k ==> c.slots[j].id != s.id;
    }
  }

  // --------------------------------------------------------------- responses

  /** What a response step may touch: the output, the send side and slot `k`, whose receive window stays. */
  ghost predicate OnlySlot(c: Core, d: Core, k: nat) {
    && k < |c.slots| == |d.slots|
    && d.slots == c.slots[k := d.slots[k]]
    && d.slots[k].id == c.slots[k].id
    && (Live(d.slots[k]) ==> d.slots[k].recvWindow == c.slots[k].recvWindow)
    && d.recvWindow == c.recvWindow && d.initialWindow == c.initialWindow
  }

  lemma OnlySlotTrans(a: Core, b: Core, c: Core, k: nat)
    requires OnlySlot(a, b, k) && OnlySlot(b, c, k) && (Live(c.slots[k]) ==> Live(b.slots[k]))
    ensures OnlySlot(a, c, k)
  {
  }

  lemma QueueHeadersBooks(c: Core, k: nat)
    requires Good(c) && Answering(c, k) && |Body(c.slots[k])| < BODY_CAP
    requires Books(c, c.slots[k].id) && SlotBooked(c.log, c.initialWindow, c.slots[k])
    requires QueueHeaders(c, k, |Body(c.slots[k])|).ret == NoError
    ensures var d := QueueHeaders(c, k, |Body(c.slots[k])|).core;
            && Books(d, c.slots[k].id) && SlotBooked(d.log, d.initialWindow, d.slots[k])
            && d.slots[k] == c.slots[k].(headersSent := true) && OnlySlot(c, d, k)
  {
    var s := c.slots[k];
    if !s.headersSent {
      var f := HeadersOf(s.id, |Body(s)|);
      assert HeadersFrame(s.id, FLAG_END_HEADERS, f.payload) == Some(f);
      EmitBooks(c, f, s.id);
      NoteCredit(c.log, Out(f), s.id);
      SlotBooks(Emit(c, Some(f)).core, k, s.(headersSent := true), s.id);
    }
  }

  lemma DataSentBooks(c: Core, k: nat, body: seq<byte>)
    requires Good(c) && Answering(c, k) && Books(c, c.slots[k].id) && SlotBooked(c.log, c.initialWindow, c.slots[k])
    requires !Blocked(c, c.slots[k], |body|) && Emit(c, Some(DataOf(c.slots[k].id, body))).ret == NoError
    ensures var r := DataSent(Emit(c, Some(DataOf(c.slots[k].id, body))).core, k, |body|);
            r.ret == NoError && Books(r.core, 0) && OnlySlot(c, r.core, k)
  {
    var s := c.slots[k];
    var f := DataOf(s.id, body);
    var e := Emit(c, Some(f)).core;
    var r := DataSent(e, k, |body|);
    NoteConn(c.log, Out(f));
    NoteAcks(c.log, Out(f));
    assert Affordable(c.log, Out(f));
    forall j | 0 <= j < |c.slots| && r.core.slots[j].id != 0
      ensures SlotBooked(r.core.log, r.core.initialWindow, r.core.slots[j]) && Settled(r.core.slots[j]) {
      NoteCredit(c.log, Out(f), c.slots[j].id);
      assert j != k ==> c.slots[j].id != s.id;
    }
  }

  lemma DeferBooks(c: Core, k: nat)
    requires Good(c) && Answering(c, k) && Books(c, c.slots[k].id) && SlotBooked(c.log, c.initialWindow, c.slots[k])
    ensures var d := SetSlot(c, k, c.slots[k].(bodyDeferred := true)); Books(d, 0) && OnlySlot(c, d, k)
  {
    SettleSlot(c, k, c.slots[k].(bodyDeferred := true));
  }

  lemma QueueDeferredDataBooks(c: Core, k: nat, body: seq<byte>)
    requires Good(c) && Answering(c, k) && Books(c, c.slots[k].id) && SlotBooked(c.log, c.initialWindow, c.slots[k])
    requires QueueDeferredData(c, k, body).ret == NoError
    ensures var d := QueueDeferredData(c, k, body).core; Books(d, 0) && OnlySlot(c, d, k)
  {
    var s := c.slots[k];
    if Blocked(c, s, |body|) {
      DeferBooks(c, k);
    } else {
      assert DataFrame(s.id, FLAG_END_STREAM, body) == Some(DataOf(s.id, body));
      DataSentBooks(c, k, body);
    }
  }

  lemma NameBooks(c: Core, k: nat)
    requires Answering(c, k) && Books(c, c.slots[k].id) && SlotBooked(c.log, c.initialWindow, c.slots[k])
    ensures var named := SetSlot(c, k, c.slots[k].(path := PathOrSlash(c.slots[k].path)));
            Books(named, c.slots[k].id) && SlotBooked(named.log, named.initialWindow, named.slots[k]) && OnlySlot(c, named, k)
  {
    SlotBooks(c, k, c.slots[k].(path := PathOrSlash(c.slots[k].path)), c.slots[k].id);
  }

  /** A response that is queued or deferred leaves every account balanced and the stream settled. */
  lemma QueueResponseBooks(c: Core, k: nat)
    requires Good(c) && Answering(c, k) && Books(c, c.slots[k].id) && SlotBooked(c.log, c.initialWindow, c.slots[k])
    requires QueueResponse(c, k).ret == NoError
    ensures Books(QueueResponse(c, k).core, 0) && OnlySlot(c, QueueResponse(c, k).core, k)
  {
    var s := c.slots[k];
    assert SlotOk(c.log, c.lastStreamId, s);
    var named := SetSlot(c, k, s.(path := PathOrSlash(s.path)));
    NameSlot(c, k);
    NameBooks(c, k);
    BodyIsExpected(c, k);
    QueueHeadersBooks(named, k);
    QueueHeadersGood(named, k);
    var r := QueueHeaders(named, k, |Body(s)|);
    QueueDeferredDataBooks(r.core, k, Body(s));
    OnlySlotTrans(c, named, r.core, k);
    OnlySlotTrans(c, r.core, QueueDeferredData(r.core, k, Body(s)).core, k);
  }
}
