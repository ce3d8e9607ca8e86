/** How old a completion may get: exactly when a generation is mistaken for a later one, and that the age bound
    of the safety theorems cannot be dropped. */
module UringAge {
  import opened Bytes
  import opened UringSpec
  import opened UringOrder
  import opened UringSafety
  import opened UringRuns

  /** A completion is reported exactly when its age in registrations is a multiple of 2^30, and what is reported
      is current exactly when that age is zero. */
  lemma ReportedIff(fds: seq<FdState>, fd: nat, stamp: nat, res: int)
    requires fd < |fds| <= MAX_FDS && fds[fd].used && fds[fd].generation == fds[fd].epoch % GENERATIONS
    requires stamp <= fds[fd].epoch
    ensures var f := Finish(fds, Cqe(Request(PollData(fd, stamp % GENERATIONS), stamp), res));
            && (f.event.Some? <==> (fds[fd].epoch - stamp) % GENERATIONS == 0)
            && (f.event.Some? ==> (IsCurrent(f.fds, f.event.value) <==> stamp == fds[fd].epoch))
  {
    PackUnpack(fd, stamp % GENERATIONS);
    AgeModulo(fds[fd].epoch, stamp);
  }

  lemma AgeModulo(epoch: nat, stamp: nat)
    requires stamp <= epoch
    ensures (epoch - stamp) % GENERATIONS == 0 <==> epoch % GENERATIONS == stamp % GENERATIONS
  {
    var e, g := epoch / GENERATIONS, stamp / GENERATIONS;
    assert epoch - stamp == (e - g) * GENERATIONS + (epoch % GENERATIONS - stamp % GENERATIONS);
  }

  // ------------------------------------------------------- what a harvest keeps

  /** The tables differ at most in which descriptors are active. */
  ghost predicate SameTable(a: seq<FdState>, b: seq<FdState>) {
    |a| == |b| && forall fd :: 0 <= fd < |a| ==> b[fd] == a[fd].(active := b[fd].active)
  }

  lemma SameTableTrans(a: seq<FdState>, b: seq<FdState>, c: seq<FdState>)
    requires SameTable(a, b) && SameTable(b, c)
    ensures SameTable(a, c)
  {
  }

  lemma {:induction false} HarvestSameTable(fds: seq<FdState>, queue: seq<Cqe>, cap: nat, events: seq<Event>)
    ensures SameTable(fds, Harvest(fds, queue, cap, events).fds)
    ensures events <= Harvest(fds, queue, cap, events).events
    decreases |queue|
  {
    if queue != [] && |events| < cap {
      var f := Finish(fds, queue[0]);
      HarvestSameTable(f.fds, queue[1..], cap, Report(events, f.event));
    }
  }

  lemma {:induction false} ArmFromSameTable(s: State, fd: nat)
    requires fd <= |s.fds| <= MAX_FDS
    ensures SameTable(s.fds, ArmFrom(s, fd).fds)
    decreases |s.fds| - fd
  {
    if fd < |s.fds| {
      if !Lacks(s.fds[fd]) {
        ArmFromSameTable(s, fd + 1);
      } else if |s.sq| < SQ_ENTRIES {
        ArmFromSameTable(Arm(s, fd), fd + 1);
        SameTableTrans(s.fds, Arm(s, fd).fds, ArmFrom(Arm(s, fd), fd + 1).fds);
      }
    }
  }

  /** A completion whose generation is the descriptor's own now. */
  predicate Passes(fds: seq<FdState>, r: Request) {
    var fd := FdOf(r.userData);
    && 0 <= fd < |fds| <= MAX_FDS && fds[fd].used && fds[fd].generation < GENERATIONS
    && r.userData == PollData(fd, fds[fd].generation)
  }

  lemma PassesStays(a: seq<FdState>, b: seq<FdState>, r: Request)
    requires SameTable(a, b) && Passes(a, r)
    ensures Passes(b, r)
  {
  }

  lemma PassingReports(fds: seq<FdState>, c: Cqe)
    requires Passes(fds, c.request)
    ensures Finish(fds, c).event == Some(EventOf(FdOf(c.request.userData), c))
  {
    PackUnpack(FdOf(c.request.userData), fds[FdOf(c.request.userData)].generation);
  }

  /** With room for all of the queue, a completion that passes is reported. */
  lemma {:induction false} HarvestReports(fds: seq<FdState>, queue: seq<Cqe>, cap: nat, events: seq<Event>, k: nat) returns (i: nat)
    requires k < |queue| && |events| + |queue| <= cap && Passes(fds, queue[k].request)
    ensures var h := Harvest(fds, queue, cap, events);
            i < |h.events| && h.events[i] == EventOf(FdOf(queue[k].request.userData), queue[k])
    decreases |queue|
  {
    var f := Finish(fds, queue[0]);
    var now := Report(events, f.event);
    HarvestSameTable(f.fds, queue[1..], cap, now);
    if k == 0 {
      PassingReports(fds, queue[0]);
      i := |events|;
      assert now[i] == EventOf(FdOf(queue[0].request.userData), queue[0]);
    } else {
      PassesStays(fds, f.fds, queue[k].request);
      i := HarvestReports(f.fds, queue[1..], cap, now, k - 1);
    }
  }

  // ---------------------------------------------------------- waiting for it

  /** A wait that wakes at once, with room for everything queued. */
  function Sweep(s: State): Op {
    Await(|Queue(s)| + 1, [], Woken([]))
  }

  lemma SubmitQuietly(s: State)
    requires |s.fds| <= MAX_FDS && s.sq == []
    ensures var a := SubmitMissing(s, []);
            SameTable(s.fds, a.fds) && a.saved == s.saved && a.ring == s.ring && a.sq == []
    ensures s.polls <= SubmitMissing(s, []).polls && s.cancels <= SubmitMissing(s, []).cancels
  {
    var armed := ArmFrom(s, 0);
    ArmFromSameTable(s, 0);
    ArmFromQuiet(s, 0);
    ArmFromKeepsKernel(s, 0);
    TakeAllQuiet(armed);
    TakeAllAppends(armed);
  }

  lemma {:induction false} ArmFromKeepsKernel(s: State, fd: nat)
    requires fd <= |s.fds| <= MAX_FDS
    ensures var t := ArmFrom(s, fd); t.polls == s.polls && t.cancels == s.cancels && t.posted == s.posted
    decreases |s.fds| - fd
  {
    if fd < |s.fds| {
      if !Lacks(s.fds[fd]) {
        ArmFromKeepsKernel(s, fd + 1);
      } else if |s.sq| < SQ_ENTRIES {
        ArmFromKeepsKernel(Arm(s, fd), fd + 1);
      }
    }
  }

  lemma {:induction false} TakeAllAppends(s: State)
    ensures s.polls <= TakeAll(s).polls && s.cancels <= TakeAll(s).cancels
    decreases |s.sq|
  {
    if s.sq != [] {
      TakeAllAppends(TakeOne(s.(sq := s.sq[1..]), s.sq[0]));
    }
  }

  lemma SweepCollects(s: State, armed: State)
    requires |s.fds| <= MAX_FDS && armed == SubmitMissing(s, [])
    ensures var w := Collect(armed, |Queue(s)| + 1); Do(s, Sweep(s)) == Done(w.state, w.events, true)
  {
    assert Kernel(armed, []) == armed;
  }

  /** A sweep empties both queues, keeps the table and what the kernel has under way. */
  lemma SweepEmpties(s: State) returns (fds: seq<FdState>)
    requires |s.fds| <= MAX_FDS && s.sq == []
    ensures var d := Do(s, Sweep(s));
            && SameTable(s.fds, d.state.fds) && Queue(d.state) == [] && d.state.sq == []
            && s.polls <= d.state.polls && s.cancels <= d.state.cancels
            && SameTable(s.fds, fds) && d.events == Harvest(fds, Queue(s), |Queue(s)| + 1, []).events
  {
    var cap := |Queue(s)| + 1;
    var armed := SubmitMissing(s, []);
    fds := armed.fds;
    SubmitQuietly(s);
    SweepCollects(s, armed);
    CollectIsOneHarvest(armed, cap);
    var n := HarvestTakesPrefix(armed.fds, Queue(armed), cap, []);
    HarvestCounts(armed.fds, Queue(armed), cap, []);
    HarvestSameTable(armed.fds, Queue(armed), cap, []);
    SameTableTrans(s.fds, armed.fds, Collect(armed, cap).state.fds);
  }

  /** Each completion reports at most one event. */
  lemma {:induction false} HarvestCounts(fds: seq<FdState>, queue: seq<Cqe>, cap: nat, events: seq<Event>)
    ensures |Harvest(fds, queue, cap, events).events| <= |events| + |queue|
    decreases |queue|
  {
    if queue != [] && |events| < cap {
      var f := Finish(fds, queue[0]);
      HarvestCounts(f.fds, queue[1..], cap, Report(events, f.event));
    }
  }

  // ------------------------------------------------------ untimely registrations

  /** The run goes on from a state. */
  function RunOn(s: State, ops: seq<Op>): (d: Done)
    requires |s.fds| <= MAX_FDS
    ensures |d.state.fds| == |s.fds|
    decreases |ops|
  {
    if ops == [] then Done(s, [], true)
    else if |ops| == 1 then Do(s, ops[0])
    else RunOn(Do(s, ops[0]).state, ops[1..])
  }

  /** One of the events is for a descriptor but not from its present registration. */
  predicate IsStale(d: Done, i: nat) {
    i < |d.events| && !IsCurrent(d.state.fds, d.events[i])
  }

  lemma {:induction false} BagIndex(queue: seq<Cqe>, r: Request) returns (k: nat)
    requires r in Bag(queue)
    ensures k < |queue| && queue[k].request == r
    decreases |queue|
  {
    if queue[0].request == r {
      k := 0;
    } else {
      var m := BagIndex(queue[1..], r);
      k := m + 1;
    }
  }

  /** A completion waiting in a queue that passes without being current. */
  predicate Lurks(s: State, k: nat) {
    && k < |Queue(s)| && Passes(s.fds, Queue(s)[k].request)
    && Queue(s)[k].request.stamp != s.fds[FdOf(Queue(s)[k].request.userData)].epoch
  }

  lemma StaleEvent(fds: seq<FdState>, d: Done, c: Cqe, i: nat)
    requires SameTable(fds, d.state.fds) && Passes(fds, c.request) && i < |d.events|
    requires c.request.stamp != fds[FdOf(c.request.userData)].epoch && d.events[i] == EventOf(FdOf(c.request.userData), c)
    ensures IsStale(d, i)
  {
  }

  lemma SweepIsStale(s: State, k: nat) returns (i: nat)
    requires |s.fds| <= MAX_FDS && s.sq == [] && Lurks(s, k)
    ensures IsStale(Do(s, Sweep(s)), i)
  {
    var c := Queue(s)[k];
    var fds := SweepEmpties(s);
    PassesStays(s.fds, fds, c.request);
    i := HarvestReports(fds, Queue(s), |Queue(s)| + 1, [], k);
    StaleEvent(s.fds, Do(s, Sweep(s)), c, i);
  }

  /** A request under way that passes without being current. */
  predicate Stranger(s: State, r: Request) {
    Passes(s.fds, r) && r.stamp != s.fds[FdOf(r.userData)].epoch
  }

  lemma StrangerStays(s: State, t: State, r: Request)
    requires SameTable(s.fds, t.fds) && Stranger(s, r)
    ensures Stranger(t, r)
  {
  }

  lemma OneKernelStep(s: State, step: KernelStep)
    ensures Kernel(s, [step]) == Complete(s, step)
  {
    assert Kernel(s, [step]) == Kernel(Complete(s, [step][0]), [step][1..]);
  }

  lemma PostedLurks(s: State, step: KernelStep, r: Request)
    requires |s.fds| <= MAX_FDS && Queue(s) == [] && s.sq == [] && Stranger(s, r)
    requires match step
             case PollDone(at, _) => at < |s.polls| && s.polls[at] == r
             case CancelDone(at, _) => at < |s.cancels| && s.cancels[at] == r
    ensures var t := Do(s, Meanwhile([step])).state; t.sq == [] && t.fds == s.fds && Lurks(t, 0)
  {
    OneKernelStep(s, step);
    var t := Complete(s, step);
    assert s.ring == [] && s.saved == [];
    assert t.ring == [Cqe(r, step.res)] && Queue(t) == [Cqe(r, step.res)];
  }

  /** The kernel answers, and the answer is reported. */
  lemma AnswerIsStale(s: State, step: KernelStep, r: Request) returns (more: seq<Op>, i: nat)
    requires |s.fds| <= MAX_FDS && s.sq == [] && Stranger(s, r)
    requires match step
             case PollDone(at, _) => at < |s.polls| && s.polls[at] == r
             case CancelDone(at, _) => at < |s.cancels| && s.cancels[at] == r
    ensures more != [] && IsStale(RunOn(s, more), i)
  {
    var _ := SweepEmpties(s);
    var u := Do(s, Sweep(s)).state;
    StrangerStays(s, u, r);
    PostedLurks(u, step, r);
    var v := Do(u, Meanwhile([step])).state;
    i := SweepIsStale(v, 0);
    more := [Sweep(s), Meanwhile([step]), Sweep(v)];
    ThreeSteps(s, Sweep(s), Meanwhile([step]), Sweep(v));
  }

  lemma ThreeSteps(s: State, a: Op, b: Op, c: Op)
    requires |s.fds| <= MAX_FDS
    ensures RunOn(s, [a, b, c]) == Do(Do(Do(s, a).state, b).state, c)
  {
    var u := Do(s, a).state;
    assert [a, b, c][1..] == [b, c] && [b, c][1..] == [c];
    assert RunOn(u, [b, c]) == RunOn(Do(u, b).state, [c]);
  }

  /** A request in flight that passes comes to be reported, wherever it is. */
  lemma StrangerIsReported(s: State, r: Request) returns (more: seq<Op>, i: nat)
    requires |s.fds| <= MAX_FDS && s.sq == [] && r in InFlight(s) && Stranger(s, r)
    ensures more != [] && IsStale(RunOn(s, more), i)
  {
    if r in s.polls {
      var at :| 0 <= at < |s.polls| && s.polls[at] == r;
      more, i := AnswerIsStale(s, PollDone(at, 0), r);
    } else if r in s.cancels {
      var at :| 0 <= at < |s.cancels| && s.cancels[at] == r;
      more, i := AnswerIsStale(s, CancelDone(at, 0), r);
    } else {
      var k := BagIndex(Queue(s), r);
      i := SweepIsStale(s, k);
      more := [Sweep(s)];
    }
  }

  /** The age bound is exact: register a descriptor while a request of its registration 2^30 before is still in
      flight, and some course of events reports that request as the new registration's. */
  lemma UntimelyIsStale(s: State, fd: nat, call: Call) returns (more: seq<Op>, i: nat)
    requires Inv(s) && fd < MAX_FDS && !s.fds[fd].used && !Timely(s, fd)
    ensures more != [] && IsStale(RunOn(Do(s, Register(fd, call)).state, more), i)
  {
    var t := Do(s, Register(fd, call)).state;
    var r :| r in InFlight(s) && FdOf(r.userData) == fd && s.fds[fd].epoch + 1 - GENERATIONS >= r.stamp;
    assert IsTicket(s.fds, r) && FdOk(s.fds, InFlight(s), fd);
    NextGeneration(s.fds[fd].epoch, s.fds[fd].generation);
    assert t.fds[fd].epoch == r.stamp + GENERATIONS;
    SameAgeAgain(r.stamp);
    assert Stranger(t, r);
    assert InFlight(t) == InFlight(s);
    more, i := StrangerIsReported(t, r);
  }

  lemma SameAgeAgain(stamp: nat)
    ensures (stamp + GENERATIONS) % GENERATIONS == stamp % GENERATIONS
  {
  }
}
