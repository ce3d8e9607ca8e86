/** Reuse of descriptors is safe: no event is reported from an earlier registration, and no registration has
    two polls under way, as long as no completion outlives 2^30 registrations of its descriptor. */
module UringSafety {
  import opened Bytes
  import opened UringSpec
  import opened UringOrder

  // --------------------------------------------------------- what is in flight

  function Bag(queue: seq<Cqe>): multiset<Request>
    decreases |queue|
  {
    if queue == [] then multiset{} else multiset{queue[0].request} + Bag(queue[1..])
  }

  function BagSq(sq: seq<Sqe>): multiset<Request>
    decreases |sq|
  {
    if sq == [] then multiset{} else multiset{sq[0].request} + BagSq(sq[1..])
  }

  /** Requests whose completion the kernel has yet to post. */
  function Pending(s: State): multiset<Request> {
    multiset(s.polls) + multiset(s.cancels) + BagSq(s.sq)
  }

  /** Every request made and not yet accounted for, wherever it or its completion is. */
  function InFlight(s: State): multiset<Request> {
    Pending(s) + Bag(Queue(s))
  }

  lemma {:induction false} BagAppend(a: seq<Cqe>, b: seq<Cqe>)
    ensures Bag(a + b) == Bag(a) + Bag(b)
    decreases |a|
  {
    if a == [] {
      assert a + b == b;
    } else {
      assert (a + b)[1..] == a[1..] + b;
      BagAppend(a[1..], b);
    }
  }

  lemma BagSnoc(queue: seq<Cqe>, c: Cqe)
    ensures Bag(queue + [c]) == Bag(queue) + multiset{c.request}
  {
    BagAppend(queue, [c]);
    assert [c][1..] == [];
  }

  lemma {:induction false} BagSqAppend(sq: seq<Sqe>, e: Sqe)
    ensures BagSq(sq + [e]) == BagSq(sq) + multiset{e.request}
    decreases |sq|
  {
    if sq == [] {
      assert sq + [e] == [e] && [e][1..] == [];
    } else {
      assert (sq + [e])[1..] == sq[1..] + [e];
      BagSqAppend(sq[1..], e);
    }
  }

  lemma WithoutOne(s: seq<Request>, k: nat)
    requires k < |s|
    ensures multiset(s) == multiset(Without(s, k)) + multiset{s[k]}
  {
    assert s == s[..k] + [s[k]] + s[k + 1..];
  }

  lemma PostMoves(s: State, c: Cqe)
    ensures InFlight(Post(s, c)) == Pending(s) + Bag(Queue(s)) + multiset{c.request}
  {
    assert Queue(Post(s, c)) == Queue(s) + [c];
    BagSnoc(Queue(s), c);
  }

  lemma PollKeeps(s: State, at: nat, res: int)
    requires at < |s.polls|
    ensures InFlight(Post(s.(polls := Without(s.polls, at)), Cqe(s.polls[at], res))) == InFlight(s)
  {
    WithoutOne(s.polls, at);
    PostMoves(s.(polls := Without(s.polls, at)), Cqe(s.polls[at], res));
  }

  lemma CancelKeeps(s: State, at: nat, res: int)
    requires at < |s.cancels|
    ensures InFlight(Post(s.(cancels := Without(s.cancels, at)), Cqe(s.cancels[at], res))) == InFlight(s)
  {
    WithoutOne(s.cancels, at);
    PostMoves(s.(cancels := Without(s.cancels, at)), Cqe(s.cancels[at], res));
  }

  lemma CompleteKeeps(s: State, step: KernelStep)
    ensures InFlight(Complete(s, step)) == InFlight(s) && (|s.ring| <= CQ_ENTRIES ==> |Complete(s, step).ring| <= CQ_ENTRIES)
  {
    match step
    case PollDone(at, res) =>
      if at < |s.polls| {
        PollKeeps(s, at, res);
      }
    case CancelDone(at, res) =>
      if at < |s.cancels| {
        CancelKeeps(s, at, res);
      }
  }

  /** The kernel moves requests along and loses none. */
  lemma {:induction false} KernelKeeps(s: State, steps: seq<KernelStep>)
    ensures InFlight(Kernel(s, steps)) == InFlight(s)
    ensures |s.ring| <= CQ_ENTRIES ==> |Kernel(s, steps).ring| <= CQ_ENTRIES
    decreases |steps|
  {
    if steps != [] {
      CompleteKeeps(s, steps[0]);
      KernelKeeps(Complete(s, steps[0]), steps[1..]);
    }
  }

  lemma {:induction false} TakeAllKeeps(s: State)
    ensures InFlight(TakeAll(s)) == InFlight(s)
    decreases |s.sq|
  {
    if s.sq != [] {
      var t := TakeOne(s.(sq := s.sq[1..]), s.sq[0]);
      TakeAllKeeps(t);
    }
  }

  lemma EnterKeeps(s: State, steps: seq<KernelStep>)
    ensures InFlight(Enter(s, steps)) == InFlight(s)
    ensures |s.ring| <= CQ_ENTRIES ==> |Enter(s, steps).ring| <= CQ_ENTRIES
  {
    TakeAllKeeps(s);
    TakeAllQuiet(s);
    KernelKeeps(TakeAll(s), steps);
  }

  // --------------------------------------------------------------- invariant

  /** A poll request of some registration of its descriptor, fewer than 2^30 registrations ago. */
  predicate IsTicket(fds: seq<FdState>, r: Request) {
    var fd := FdOf(r.userData);
    && 0 <= fd < |fds| <= MAX_FDS
    && r.userData == PollData(fd, r.stamp % GENERATIONS)
    && fds[fd].epoch - GENERATIONS < r.stamp <= fds[fd].epoch
  }

  /** The poll request of the current registration. */
  function Own(fds: seq<FdState>, fd: nat): Request
    requires fd < |fds| <= MAX_FDS
  {
    Request(PollData(fd, fds[fd].generation), fds[fd].epoch)
  }

  /** The generation counts registrations, and a registration is active just when its one poll is in flight. */
  predicate FdOk(fds: seq<FdState>, flight: multiset<Request>, fd: nat)
    requires fd < |fds| <= MAX_FDS
  {
    var f := fds[fd];
    && f.generation == f.epoch % GENERATIONS
    && (f.active ==> f.used)
    && flight[Own(fds, fd)] <= 1
    && (f.used ==> (f.active <==> flight[Own(fds, fd)] == 1))
  }

  ghost predicate Tracked(fds: seq<FdState>, flight: multiset<Request>) {
    && |fds| == MAX_FDS
    && (forall r :: r in flight ==> IsTicket(fds, r))
    && (forall fd :: 0 <= fd < |fds| ==> FdOk(fds, flight, fd))
  }

  ghost predicate Inv(s: State) {
    Tracked(s.fds, InFlight(s)) && s.sq == [] && |s.ring| <= CQ_ENTRIES
  }

  // ------------------------------------------------------------------ harvest

  /** The event comes from a poll armed in the registration its descriptor has now. */
  predicate IsCurrent(fds: seq<FdState>, e: Event) {
    e.fd < |fds| && fds[e.fd].used && e.stamp == fds[e.fd].epoch
  }

  ghost predicate AllCurrent(fds: seq<FdState>, events: seq<Event>) {
    forall i :: 0 <= i < |events| ==> IsCurrent(fds, events[i])
  }

  /** The same descriptors are registered, for the same time. */
  ghost predicate SameRegistrations(a: seq<FdState>, b: seq<FdState>) {
    |a| == |b| && forall fd :: 0 <= fd < |a| ==> a[fd].used == b[fd].used && a[fd].epoch == b[fd].epoch
  }

  /** Two registrations less than 2^30 apart with the same generation are the same. */
  lemma SameGeneration(a: nat, b: nat)
    requires a <= b < a + GENERATIONS && a % GENERATIONS == b % GENERATIONS
    ensures a == b
  {
  }

  lemma TicketUnpacks(fds: seq<FdState>, r: Request)
    requires IsTicket(fds, r)
    ensures GenerationOf(r.userData) == r.stamp % GENERATIONS && !IsCancel(r.userData) && !IsTimeout(r.userData)
  {
    PackUnpack(FdOf(r.userData), r.stamp % GENERATIONS);
  }

  lemma FinishTracked(fds: seq<FdState>, flight: multiset<Request>, c: Cqe)
    requires Tracked(fds, flight + multiset{c.request})
    ensures var f := Finish(fds, c);
            && Tracked(f.fds, flight) && SameRegistrations(fds, f.fds)
            && (f.event.Some? ==> IsCurrent(f.fds, f.event.value))
  {
    var r := c.request;
    var whole := flight + multiset{r};
    assert r in whole;
    TicketUnpacks(fds, r);
    var fd := FdOf(r.userData);
    var f := Finish(fds, c);
    assert FdOk(fds, whole, fd);
    if r.stamp % GENERATIONS == fds[fd].generation {
      SameGeneration(r.stamp, fds[fd].epoch);
      assert r == Own(fds, fd);
    } else {
      assert r != Own(fds, fd);
    }
    forall q | q in flight ensures IsTicket(f.fds, q) {
      assert q in whole;
    }
    forall k | 0 <= k < |fds| ensures FdOk(f.fds, flight, k) {
      assert FdOk(fds, whole, k);
      if k != fd {
        OwnDiffers(fds, fd, k);
      }
    }
  }

  lemma OwnDiffers(fds: seq<FdState>, a: nat, b: nat)
    requires a < |fds| && b < |fds| <= MAX_FDS && a != b
    ensures Own(fds, a) != Own(fds, b)
  {
    PackUnpack(a, fds[a].generation);
    PackUnpack(b, fds[b].generation);
  }

  /** Whatever a harvest reports is current, and what it leaves is still tracked. */
  lemma {:induction false} HarvestTracked(fds: seq<FdState>, queue: seq<Cqe>, cap: nat, events: seq<Event>, flight: multiset<Request>)
    requires Tracked(fds, flight + Bag(queue)) && AllCurrent(fds, events)
    ensures var h := Harvest(fds, queue, cap, events);
            Tracked(h.fds, flight + Bag(h.rest)) && AllCurrent(h.fds, h.events) && SameRegistrations(fds, h.fds)
    decreases |queue|
  {
    if queue != [] && |events| < cap {
      var f := Finish(fds, queue[0]);
      assert flight + Bag(queue) == (flight + Bag(queue[1..])) + multiset{queue[0].request};
      FinishTracked(fds, flight + Bag(queue[1..]), queue[0]);
      HarvestTracked(f.fds, queue[1..], cap, Report(events, f.event), flight);
    }
  }

  lemma CollectTracked(s: State, cap: nat)
    requires Inv(s)
    ensures Inv(Collect(s, cap).state) && AllCurrent(Collect(s, cap).state.fds, Collect(s, cap).events)
  {
    CollectIsOneHarvest(s, cap);
    HarvestTracked(s.fds, Queue(s), cap, [], Pending(s));
    var saved := Harvest(s.fds, s.saved, cap, []);
    RestIsShorter(saved.fds, s.ring, cap, saved.events);
  }

  lemma {:induction false} RestIsShorter(fds: seq<FdState>, queue: seq<Cqe>, cap: nat, events: seq<Event>)
    ensures |Harvest(fds, queue, cap, events).rest| <= |queue|
    decreases |queue|
  {
    if queue != [] && |events| < cap {
      var f := Finish(fds, queue[0]);
      RestIsShorter(f.fds, queue[1..], cap, Report(events, f.event));
    }
  }

  // ------------------------------------------------------------ registration

  /** No request of the descriptor is so old that one more registration could bring its generation back. */
  ghost predicate Timely(s: State, fd: int) {
    0 <= fd < |s.fds| ==>
      forall r :: r in InFlight(s) && FdOf(r.userData) == fd ==> s.fds[fd].epoch + 1 - GENERATIONS < r.stamp
  }

  lemma EventsTracked(fds: seq<FdState>, flight: multiset<Request>, fd: nat, events: u32)
    requires Tracked(fds, flight) && fd < |fds|
    ensures Tracked(fds[fd := fds[fd].(events := events)], flight)
  {
    var after := fds[fd := fds[fd].(events := events)];
    forall r | r in flight ensures IsTicket(after, r) {
      assert IsTicket(fds, r);
    }
    forall k | 0 <= k < |after| ensures FdOk(after, flight, k) {
      assert FdOk(fds, flight, k);
    }
  }

  /** Nothing is in flight for a registration that is only now made. */
  lemma NotYetArmed(fds: seq<FdState>, flight: multiset<Request>, fd: nat, own: Request)
    requires Tracked(fds, flight) && fd < |fds| && own.stamp == fds[fd].epoch + 1 && FdOf(own.userData) == fd
    ensures flight[own] == 0
  {
    assert own in flight ==> IsTicket(fds, own);
  }

  function Registered(f: FdState, events: u32): FdState {
    FdState(true, false, events, (f.generation + 1) % U32_SPAN % GENERATIONS, f.epoch + 1)
  }

  lemma NextGeneration(epoch: nat, generation: u32)
    requires generation == epoch % GENERATIONS
    ensures (generation + 1) % U32_SPAN % GENERATIONS == (epoch + 1) % GENERATIONS
  {
  }

  lemma RegisterTracked(fds: seq<FdState>, flight: multiset<Request>, fd: nat, events: u32)
    requires Tracked(fds, flight) && fd < |fds| && !fds[fd].used
    requires forall r :: r in flight && FdOf(r.userData) == fd ==> fds[fd].epoch + 1 - GENERATIONS < r.stamp
    ensures Tracked(fds[fd := Registered(fds[fd], events)], flight)
  {
    var after := fds[fd := Registered(fds[fd], events)];
    assert FdOk(fds, flight, fd);
    NextGeneration(fds[fd].epoch, fds[fd].generation);
    PackUnpack(fd, after[fd].generation);
    NotYetArmed(fds, flight, fd, Own(after, fd));
    forall r | r in flight ensures IsTicket(after, r) {
      assert IsTicket(fds, r);
    }
    forall k | 0 <= k < |after| ensures FdOk(after, flight, k) {
      assert FdOk(fds, flight, k);
    }
  }

  lemma SetFdKeeps(s: State, fd: int, events: u32)
    requires Inv(s) && (0 <= fd < |s.fds| && !s.fds[fd].used ==> Timely(s, fd))
    ensures Inv(SetFd(s, fd, true, events).0)
  {
    if 0 <= fd < MAX_FDS {
      assert FdOk(s.fds, InFlight(s), fd);
      if s.fds[fd].used {
        EventsTracked(s.fds, InFlight(s), fd, events);
      } else {
        RegisterTracked(s.fds, InFlight(s), fd, events);
      }
    }
  }

  // ------------------------------------------------------------------ arming

  lemma ArmTracked(fds: seq<FdState>, flight: multiset<Request>, fd: nat)
    requires Tracked(fds, flight) && fd < |fds| && Lacks(fds[fd])
    ensures Tracked(fds[fd := fds[fd].(active := true)], flight + multiset{Own(fds, fd)})
  {
    var own, after := Own(fds, fd), fds[fd := fds[fd].(active := true)];
    assert FdOk(fds, flight, fd);
    PackUnpack(fd, fds[fd].generation);
    forall r | r in flight + multiset{own} ensures IsTicket(after, r) {
      assert r == own || IsTicket(fds, r);
    }
    forall k | 0 <= k < |after| ensures FdOk(after, flight + multiset{own}, k) {
      assert FdOk(fds, flight, k);
      if k != fd {
        OwnDiffers(fds, fd, k);
      }
    }
  }

  lemma ArmKeeps(s: State, fd: nat)
    requires Tracked(s.fds, InFlight(s)) && fd < |s.fds| && Lacks(s.fds[fd])
    ensures Tracked(Arm(s, fd).fds, InFlight(Arm(s, fd)))
  {
    ArmTracked(s.fds, InFlight(s), fd);
    ArmFlight(s, fd);
  }

  /** Arming reaches only registrations without a poll, so none gets a second. */
  lemma {:induction false} ArmFromTracked(s: State, fd: nat)
    requires Tracked(s.fds, InFlight(s)) && fd <= |s.fds|
    ensures var t := ArmFrom(s, fd); Tracked(t.fds, InFlight(t))
    decreases |s.fds| - fd
  {
    if fd < |s.fds| {
      if !Lacks(s.fds[fd]) {
        ArmFromTracked(s, fd + 1);
      } else if |s.sq| < SQ_ENTRIES {
        ArmKeeps(s, fd);
        ArmFromTracked(Arm(s, fd), fd + 1);
      }
    }
  }

  lemma {:induction false} ArmFromQuiet(s: State, fd: nat)
    requires fd <= |s.fds| <= MAX_FDS
    ensures var t := ArmFrom(s, fd); t.ring == s.ring && t.saved == s.saved
    decreases |s.fds| - fd
  {
    if fd < |s.fds| {
      if !Lacks(s.fds[fd]) {
        ArmFromQuiet(s, fd + 1);
      } else if |s.sq| < SQ_ENTRIES {
        ArmFromQuiet(Arm(s, fd), fd + 1);
      }
    }
  }

  lemma ArmFlight(s: State, fd: nat)
    requires fd < |s.fds| <= MAX_FDS
    ensures InFlight(Arm(s, fd)) == InFlight(s) + multiset{Own(s.fds, fd)}
  {
    BagSqAppend(s.sq, PollAdd(fd, s.fds[fd].events % 0x1_0000, Own(s.fds, fd)));
  }

  lemma SubmitMissingKeeps(s: State, steps: seq<KernelStep>)
    requires Inv(s)
    ensures Inv(SubmitMissing(s, steps))
  {
    var armed := ArmFrom(s, 0);
    ArmFromTracked(s, 0);
    ArmFromQuiet(s, 0);
    EnterKeeps(armed, steps);
    EnterAppends(armed, steps);
  }

  lemma WaitKeeps(s: State, cap: nat, steps: seq<KernelStep>, wake: Wake)
    requires Inv(s)
    ensures var w := Wait(s, cap, steps, wake); Inv(w.state) && AllCurrent(w.state.fds, w.events)
  {
    if cap > 0 {
      var armed := SubmitMissing(s, steps);
      SubmitMissingKeeps(s, steps);
      if armed.ring != [] {
        CollectTracked(armed, cap);
      } else if wake.Woken? {
        KernelKeeps(armed, wake.steps);
        KernelAppends(armed, wake.steps);
        CollectTracked(Kernel(armed, wake.steps), cap);
      }
    }
  }

  // ----------------------------------------------------------------- removal

  /** A drain that finds the cancel's completion takes one request out of flight, one with its user data. */
  lemma {:induction false} DrainTakesOne(s: State, target: u64, replies: seq<seq<KernelStep>>) returns (r: Request)
    requires Drain(s, target, replies).clean && |s.ring| <= CQ_ENTRIES
    ensures var t := Drain(s, target, replies).state;
            && r.userData == target && InFlight(s) == InFlight(t) + multiset{r}
            && t.fds == s.fds && (s.sq == [] ==> t.sq == []) && |t.ring| <= CQ_ENTRIES
    decreases |replies|, if s.ring == [] then 0 else 2
  {
    if s.ring != [] {
      r := SiftTakesOne(s, target, replies);
    } else {
      EnterKeeps(s, replies[0]);
      EnterAppends(s, replies[0]);
      r := SiftTakesOne(Enter(s, replies[0]), target, replies[1..]);
    }
  }

  lemma {:induction false} SiftTakesOne(s: State, target: u64, replies: seq<seq<KernelStep>>) returns (r: Request)
    requires Sift(s, target, replies).clean && |s.ring| <= CQ_ENTRIES
    ensures var t := Sift(s, target, replies).state;
            && r.userData == target && InFlight(s) == InFlight(t) + multiset{r}
            && t.fds == s.fds && (s.sq == [] ==> t.sq == []) && |t.ring| <= CQ_ENTRIES
    decreases |replies|, 1
  {
    var k := ScanStopsAt(s.saved, s.ring, target);
    match ScanRing(s.saved, s.ring, target)
    case Hit(saved, rest, _) =>
      r := s.ring[k].request;
      HitTakesOne(s, k);
    case Missing(saved) =>
      var m := s.(saved := saved, ring := []);
      assert Queue(m) == Queue(s);
      r := DrainTakesOne(m, target, replies);
    case Full(_) =>
  }

  lemma HitQueue(s: State, k: nat)
    requires k < |s.ring|
    ensures var t := s.(saved := s.saved + s.ring[..k], ring := s.ring[k + 1..]);
            Queue(s)[|s.saved| + k] == s.ring[k] && Queue(t) == Without(Queue(s), |s.saved| + k) && Pending(t) == Pending(s)
  {
    var t := s.(saved := s.saved + s.ring[..k], ring := s.ring[k + 1..]);
    assert Queue(t) == Without(Queue(s), |s.saved| + k);
  }

  lemma HitTakesOne(s: State, k: nat)
    requires k < |s.ring|
    ensures InFlight(s) == InFlight(s.(saved := s.saved + s.ring[..k], ring := s.ring[k + 1..])) + multiset{s.ring[k].request}
  {
    HitQueue(s, k);
    BagWithout(Queue(s), |s.saved| + k);
  }

  lemma BagWithout(queue: seq<Cqe>, k: nat)
    requires k < |queue|
    ensures Bag(queue) == Bag(Without(queue, k)) + multiset{queue[k].request}
  {
    BagAppend(queue[..k], queue[k..]);
    BagAppend(queue[..k], queue[k + 1..]);
    assert queue[..k] + queue[k..] == queue && queue[k..][1..] == queue[k + 1..];
  }

  /** The request a cancel makes is the only one with its user data. */
  lemma CancelIsAlone(fds: seq<FdState>, flight: multiset<Request>, fd: nat, mine: Request, r: Request)
    requires Tracked(fds, flight) && fd < |fds| && mine.userData == CancelData(fd, fds[fd].generation)
    requires r.userData == mine.userData && r in flight + multiset{mine}
    ensures r == mine
  {
    PackUnpack(fd, fds[fd].generation);
    if r in flight {
      TicketUnpacks(fds, r);
    }
  }

  /** Cancelling leaves in flight exactly what was, and the registrations as they were. */
  lemma CancelPollKeeps(s: State, fd: nat, steps: seq<KernelStep>, replies: seq<seq<KernelStep>>)
    requires Inv(s) && fd < |s.fds| && CancelPoll(s, fd, steps, replies).clean
    ensures var t := CancelPoll(s, fd, steps, replies).state; Inv(t) && t.fds == s.fds && InFlight(t) == InFlight(s)
  {
    var f := s.fds[fd];
    if f.active && |s.sq| < SQ_ENTRIES {
      var target := CancelData(fd, f.generation);
      var mine := Request(target, f.epoch);
      var asked := s.(sq := s.sq + [PollRemove(PollData(fd, f.generation), mine)]);
      BagSqAppend(s.sq, PollRemove(PollData(fd, f.generation), mine));
      assert InFlight(asked) == InFlight(s) + multiset{mine};
      EnterKeeps(asked, steps);
      EnterAppends(asked, steps);
      var r := DrainTakesOne(Enter(asked, steps), target, replies);
      var t := CancelPoll(s, fd, steps, replies).state;
      assert r in InFlight(t) + multiset{r};
      CancelIsAlone(s.fds, InFlight(s), fd, mine, r);
      SameLess(InFlight(t), InFlight(s), mine);
    }
  }

  lemma SameLess(a: multiset<Request>, b: multiset<Request>, r: Request)
    requires a + multiset{r} == b + multiset{r}
    ensures a == b
  {
    assert a == (a + multiset{r}) - multiset{r};
    assert b == (b + multiset{r}) - multiset{r};
  }

  lemma RetireTracked(fds: seq<FdState>, flight: multiset<Request>, fd: nat)
    requires Tracked(fds, flight) && fd < |fds|
    ensures Tracked(fds[fd := fds[fd].(active := false, used := false, events := 0)], flight)
  {
    var after := fds[fd := fds[fd].(active := false, used := false, events := 0)];
    forall r | r in flight ensures IsTicket(after, r) {
      assert IsTicket(fds, r);
    }
    forall k | 0 <= k < |after| ensures FdOk(after, flight, k) {
      assert FdOk(fds, flight, k);
    }
  }

  lemma RemoveKeeps(s: State, fd: int, steps: seq<KernelStep>, replies: seq<seq<KernelStep>>)
    requires Inv(s) && Remove(s, fd, steps, replies).clean
    ensures Inv(Remove(s, fd, steps, replies).state)
  {
    if 0 <= fd < MAX_FDS && s.fds[fd].used {
      CancelPollKeeps(s, fd, steps, replies);
      RetireTracked(s.fds, InFlight(s), fd);
    }
  }
}
