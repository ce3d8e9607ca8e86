/** What the program submits to the kernel, told from the calls it was given: which descriptors are registered,
    which polls each wait asks for and with what events, and what a removal cancels. */
module UringArming {
  import opened Bytes
  import opened UringSpec
  import opened UringOrder
  import opened UringSafety
  import opened UringRuns
  import opened UringAge

  // --------------------------------------------------------------- registrations

  /** The last registration call for a descriptor, unless it has been removed since. */
  function Standing(ops: seq<Op>, fd: int): Option<Call>
    decreases |ops|
  {
    if ops == [] then None
    else
      var before := ops[..|ops| - 1];
      match ops[|ops| - 1]
      case Register(at, call) => if at == fd then Some(call) else Standing(before, fd)
      case Unregister(at, steps, replies) =>
        if at == fd && Remove(Run(before).state, fd, steps, replies).ok then None else Standing(before, fd)
      case _ => Standing(before, fd)
  }

  /** How often the descriptor has been registered anew. */
  function Registrations(ops: seq<Op>, fd: int): nat
    decreases |ops|
  {
    if ops == [] then 0
    else
      var before := ops[..|ops| - 1];
      var last := ops[|ops| - 1];
      Registrations(before, fd) + if last.Register? && last.fd == fd && Standing(before, fd).None? then 1 else 0
  }

  /** The table's entry is what the calls have made it. */
  predicate AsCalled(f: FdState, call: Option<Call>, times: nat) {
    && f.used == call.Some? && (call.Some? ==> f.events == EventsOf(call.value))
    && f.epoch == times && f.generation == times % GENERATIONS
  }

  lemma WaitSameTable(s: State, cap: nat, steps: seq<KernelStep>, wake: Wake)
    requires |s.fds| <= MAX_FDS
    ensures SameTable(s.fds, Wait(s, cap, steps, wake).state.fds)
  {
    if cap > 0 {
      var armed := SubmitMissing(s, steps);
      ArmFromSameTable(s, 0);
      assert SameTable(s.fds, armed.fds);
      CollectSameTable(armed, cap);
      SameTableTrans(s.fds, armed.fds, Collect(armed, cap).state.fds);
      if wake.Woken? {
        CollectSameTable(Kernel(armed, wake.steps), cap);
        SameTableTrans(s.fds, armed.fds, Collect(Kernel(armed, wake.steps), cap).state.fds);
      }
    }
  }

  lemma CollectSameTable(s: State, cap: nat)
    ensures SameTable(s.fds, Collect(s, cap).state.fds)
  {
    CollectIsOneHarvest(s, cap);
    HarvestSameTable(s.fds, Queue(s), cap, []);
  }

  lemma RemoveTable(s: State, at: int, steps: seq<KernelStep>, replies: seq<seq<KernelStep>>, fd: nat)
    requires fd < |s.fds| <= MAX_FDS
    ensures var r := Remove(s, at, steps, replies);
            r.state.fds[fd] == if at == fd && r.ok && s.fds[fd].used then s.fds[fd].(active := false, used := false, events := 0)
                               else s.fds[fd]
  {
  }

  lemma StepAsCalled(s: State, op: Op, fd: nat, call: Option<Call>, times: nat)
    requires |s.fds| == MAX_FDS && fd < MAX_FDS && AsCalled(s.fds[fd], call, times)
    ensures var f := Do(s, op).state.fds[fd];
            match op
            case Register(at, now) => if at == fd then AsCalled(f, Some(now), times + if call.None? then 1 else 0) else AsCalled(f, call, times)
            case Unregister(at, steps, replies) =>
              AsCalled(f, if at == fd && Remove(s, fd, steps, replies).ok then None else call, times)
            case _ => AsCalled(f, call, times)
  {
    match op
    case Register(at, now) => NextGeneration(times, s.fds[fd].generation);
    case Unregister(at, steps, replies) => RemoveTable(s, at, steps, replies, fd);
    case Await(cap, steps, wake) => WaitSameTable(s, cap, steps, wake);
    case Meanwhile(_) =>
  }

  /** On every run the table is what the calls have made it: a descriptor is in use exactly while it stands
      registered, for the events of the last call, in a generation that counts its registrations. */
  lemma {:induction false} TableIsAsCalled(ops: seq<Op>, fd: nat)
    requires fd < MAX_FDS
    ensures AsCalled(Run(ops).state.fds[fd], Standing(ops, fd), Registrations(ops, fd))
    decreases |ops|
  {
    if ops != [] {
      var before := ops[..|ops| - 1];
      TableIsAsCalled(before, fd);
      StepAsCalled(Run(before).state, ops[|ops| - 1], fd, Standing(before, fd), Registrations(before, fd));
    }
  }

  // ------------------------------------------------------------------ submissions

  /** The poll that a descriptor's registration calls for. */
  function PollFor(ops: seq<Op>, fd: nat): Sqe
    requires Standing(ops, fd).Some? && fd < MAX_FDS
  {
    var times := Registrations(ops, fd);
    PollAdd(fd, EventsOf(Standing(ops, fd).value) % 0x1_0000, Request(PollData(fd, times % GENERATIONS), times))
  }

  /** The cancel of that poll. */
  function CancelFor(ops: seq<Op>, fd: nat): Sqe
    requires Standing(ops, fd).Some? && fd < MAX_FDS
  {
    var times := Registrations(ops, fd);
    PollRemove(PollFor(ops, fd).request.userData, Request(CancelData(fd, times % GENERATIONS), times))
  }

  /** The descriptors from `k` on that are registered and have no poll, in order. */
  function Missing(fds: seq<FdState>, k: nat): (which: seq<nat>)
    requires k <= |fds|
    ensures forall i :: 0 <= i < |which| ==> k <= which[i] < |fds| && Lacks(fds[which[i]])
    decreases |fds| - k
  {
    if k == |fds| then [] else if Lacks(fds[k]) then [k] + Missing(fds, k + 1) else Missing(fds, k + 1)
  }

  lemma {:induction false} MissingIsAll(fds: seq<FdState>, k: nat, fd: nat)
    requires k <= fd < |fds|
    ensures fd in Missing(fds, k) <==> Lacks(fds[fd])
    decreases |fds| - k
  {
    if k < fd {
      MissingIsAll(fds, k + 1, fd);
    }
  }

  /** As many of a list as there is room for. */
  function Fitting(which: seq<nat>, room: nat): seq<nat> {
    if |which| <= room then which else which[..room]
  }

  ghost predicate AllStanding(ops: seq<Op>, which: seq<nat>) {
    forall i :: 0 <= i < |which| ==> which[i] < MAX_FDS && Standing(ops, which[i]).Some?
  }

  /** From `k` on the table is as called. */
  ghost predicate CalledFrom(ops: seq<Op>, fds: seq<FdState>, k: nat) {
    |fds| == MAX_FDS && forall fd :: k <= fd < MAX_FDS ==> AsCalled(fds[fd], Standing(ops, fd), Registrations(ops, fd))
  }

  ghost function PollsFor(ops: seq<Op>, which: seq<nat>): (polls: seq<Sqe>)
    requires AllStanding(ops, which)
    ensures |polls| == |which|
  {
    if which == [] then [] else [PollFor(ops, which[0])] + PollsFor(ops, which[1..])
  }

  lemma FittingCons(ops: seq<Op>, fd: nat, rest: seq<nat>, room: nat)
    requires room > 0 && fd < MAX_FDS && Standing(ops, fd).Some?
    requires AllStanding(ops, rest)
    ensures AllStanding(ops, [fd] + rest) && Fitting([fd] + rest, room) == [fd] + Fitting(rest, room - 1)
    ensures PollsFor(ops, Fitting([fd] + rest, room)) == [PollFor(ops, fd)] + PollsFor(ops, Fitting(rest, room - 1))
  {
    assert Fitting([fd] + rest, room) == [fd] + Fitting(rest, room - 1);
    PollsCons(ops, fd, Fitting(rest, room - 1));
  }

  lemma ArmOne(ops: seq<Op>, s: State, k: nat)
    requires k < |s.fds| <= MAX_FDS && Lacks(s.fds[k]) && AsCalled(s.fds[k], Standing(ops, k), Registrations(ops, k))
    ensures Standing(ops, k).Some? && Arm(s, k).sq == s.sq + [PollFor(ops, k)] && Arm(s, k).taken == s.taken
    ensures Missing(s.fds, k) == [k] + Missing(Arm(s, k).fds, k + 1)
  {
    SameMissing(s.fds, Arm(s, k).fds, k + 1);
  }

  lemma ArmsOn(ops: seq<Op>, s: State, k: nat, sq: seq<Sqe>)
    requires k < |s.fds| <= MAX_FDS && |s.sq| < SQ_ENTRIES && Lacks(s.fds[k])
    requires AsCalled(s.fds[k], Standing(ops, k), Registrations(ops, k))
    requires var a := Arm(s, k); var which := Missing(a.fds, k + 1);
             AllStanding(ops, which) && sq == a.sq + PollsFor(ops, Fitting(which, SQ_ENTRIES - |a.sq|))
    ensures var which := Missing(s.fds, k);
            AllStanding(ops, which) && sq == s.sq + PollsFor(ops, Fitting(which, SQ_ENTRIES - |s.sq|))
  {
    var rest, room := Missing(Arm(s, k).fds, k + 1), SQ_ENTRIES - |s.sq|;
    ArmOne(ops, s, k);
    FittingCons(ops, k, rest, room);
    Assoc(s.sq, [PollFor(ops, k)], PollsFor(ops, Fitting(rest, room - 1)));
  }

  /** An arming pass over a table that is as called appends the polls called for, as long as there is room. */
  lemma {:induction false} ArmFromArms(ops: seq<Op>, s: State, k: nat)
    requires k <= MAX_FDS && |s.sq| <= SQ_ENTRIES
    requires CalledFrom(ops, s.fds, k)
    ensures var t, which := ArmFrom(s, k), Missing(s.fds, k);
            && AllStanding(ops, which)
            && t.sq == s.sq + PollsFor(ops, Fitting(which, SQ_ENTRIES - |s.sq|)) && t.taken == s.taken
    decreases MAX_FDS - k
  {
    if k == MAX_FDS {
    } else if !Lacks(s.fds[k]) {
      ArmFromArms(ops, s, k + 1);
    } else if |s.sq| == SQ_ENTRIES {
      AllStand(ops, s.fds, k);
    } else {
      ArmFromArms(ops, Arm(s, k), k + 1);
      ArmsOn(ops, s, k, ArmFrom(Arm(s, k), k + 1).sq);
    }
  }

  lemma PollsCons(ops: seq<Op>, fd: nat, rest: seq<nat>)
    requires fd < MAX_FDS && Standing(ops, fd).Some?
    requires AllStanding(ops, rest)
    ensures PollsFor(ops, [fd] + rest) == [PollFor(ops, fd)] + PollsFor(ops, rest)
  {
    assert ([fd] + rest)[1..] == rest;
  }

  lemma AllStand(ops: seq<Op>, fds: seq<FdState>, k: nat)
    requires k <= MAX_FDS
    requires CalledFrom(ops, fds, k)
    ensures AllStanding(ops, Missing(fds, k))
  {
  }

  lemma {:induction false} SameMissing(a: seq<FdState>, b: seq<FdState>, k: nat)
    requires |a| == |b| && k <= |a| && forall fd :: k <= fd < |a| ==> a[fd] == b[fd]
    ensures Missing(a, k) == Missing(b, k)
    decreases |a| - k
  {
    if k < |a| {
      SameMissing(a, b, k + 1);
    }
  }

  // --------------------------------------------------------- what the kernel takes

  /** The kernel at work takes nothing up. */
  lemma {:induction false} KernelTakesNothing(s: State, steps: seq<KernelStep>)
    ensures var t := Kernel(s, steps); t.taken == s.taken && t.sq == s.sq
    decreases |steps|
  {
    if steps != [] {
      KernelTakesNothing(Complete(s, steps[0]), steps[1..]);
    }
  }

  lemma {:induction false} TakeAllTakes(s: State)
    ensures TakeAll(s).taken == s.taken + s.sq && TakeAll(s).sq == []
    decreases |s.sq|
  {
    if s.sq == [] {
      assert s.taken + s.sq == s.taken;
    } else {
      var t := TakeOne(s.(sq := s.sq[1..]), s.sq[0]);
      TakeAllTakes(t);
      assert t.taken == s.taken + [s.sq[0]] && s.sq == [s.sq[0]] + s.sq[1..];
      Assoc(s.taken, [s.sq[0]], s.sq[1..]);
    }
  }

  lemma EnterTakes(s: State, steps: seq<KernelStep>)
    ensures Enter(s, steps).taken == s.taken + s.sq && Enter(s, steps).sq == []
  {
    TakeAllTakes(s);
    KernelTakesNothing(TakeAll(s), steps);
  }

  lemma {:induction false} DrainTakesNothing(s: State, target: u64, replies: seq<seq<KernelStep>>)
    requires s.sq == []
    ensures var t := Drain(s, target, replies).state; t.taken == s.taken && t.sq == []
    decreases |replies|, if s.ring == [] then 0 else 2
  {
    if s.ring != [] {
      SiftTakesNothing(s, target, replies);
    } else if replies != [] {
      EnterTakes(s, replies[0]);
      SiftTakesNothing(Enter(s, replies[0]), target, replies[1..]);
    }
  }

  lemma {:induction false} SiftTakesNothing(s: State, target: u64, replies: seq<seq<KernelStep>>)
    requires s.sq == []
    ensures var t := Sift(s, target, replies).state; t.taken == s.taken && t.sq == []
    decreases |replies|, 1
  {
    match ScanRing(s.saved, s.ring, target)
    case Missing(saved) => DrainTakesNothing(s.(saved := saved, ring := []), target, replies);
    case _ =>
  }

  lemma RemoveSubmits(ops: seq<Op>, s: State, fd: nat, steps: seq<KernelStep>, replies: seq<seq<KernelStep>>)
    requires |s.fds| == MAX_FDS && s.sq == [] && fd < MAX_FDS && AsCalled(s.fds[fd], Standing(ops, fd), Registrations(ops, fd))
    ensures var t := Remove(s, fd, steps, replies).state;
            t.sq == [] && t.taken == if Standing(ops, fd).Some? && s.fds[fd].active then s.taken + [CancelFor(ops, fd)] else s.taken
  {
    var f := s.fds[fd];
    if f.used && f.active {
      var ask := PollRemove(PollData(fd, f.generation), Request(CancelData(fd, f.generation), f.epoch));
      var asked := s.(sq := s.sq + [ask]);
      EnterTakes(asked, steps);
      DrainTakesNothing(Enter(asked, steps), CancelData(fd, f.generation), replies);
      CancelAsks(s, fd, steps, replies, asked);
      assert ask == CancelFor(ops, fd) && s.sq + [ask] == [ask];
    }
  }

  lemma CancelAsks(s: State, fd: nat, steps: seq<KernelStep>, replies: seq<seq<KernelStep>>, asked: State)
    requires fd < |s.fds| <= MAX_FDS && s.fds[fd].active && |s.sq| < SQ_ENTRIES
    requires var f := s.fds[fd];
             asked == s.(sq := s.sq + [PollRemove(PollData(fd, f.generation), Request(CancelData(fd, f.generation), f.epoch))])
    ensures CancelPoll(s, fd, steps, replies) == Drain(Enter(asked, steps), CancelData(fd, s.fds[fd].generation), replies)
  {
  }

  lemma WaitSubmits(ops: seq<Op>, s: State, cap: nat, steps: seq<KernelStep>, wake: Wake)
    requires s.sq == [] && CalledFrom(ops, s.fds, 0) && cap > 0
    ensures var t, which := Wait(s, cap, steps, wake).state, Missing(s.fds, 0);
            AllStanding(ops, which) && t.sq == [] && t.taken == s.taken + PollsFor(ops, Fitting(which, SQ_ENTRIES))
  {
    var armed := ArmFrom(s, 0);
    var polls := PollsFor(ops, Fitting(Missing(s.fds, 0), SQ_ENTRIES));
    ArmFromArms(ops, s, 0);
    assert [] + polls == polls;
    EnterTakes(armed, steps);
    AwaitTakesNothing(SubmitMissing(s, steps), cap, wake);
  }

  lemma AwaitTakesNothing(s: State, cap: nat, wake: Wake)
    ensures var t := AwaitRing(s, cap, wake).state; t.taken == s.taken && t.sq == s.sq
  {
    if wake.Woken? {
      KernelTakesNothing(s, wake.steps);
    }
  }

  // ------------------------------------------------------------------- whole runs

  /** What a call submits: a wait, the poll of each registered descriptor without one, in order, up to the 256
      that the queue holds; a removal, the cancel of the poll that is active; anything else, nothing. */
  ghost function Submits(ops: seq<Op>, op: Op): seq<Sqe> {
    var fds := Run(ops).state.fds;
    match op
    case Await(cap, _, _) =>
      AllCalled(ops);
      AllStand(ops, fds, 0);
      if cap == 0 then [] else PollsFor(ops, Fitting(Missing(fds, 0), 256))
    case Unregister(fd, _, _) =>
      if 0 <= fd < MAX_FDS && Standing(ops, fd).Some? && fds[fd].active then [CancelFor(ops, fd)] else []
    case _ => []
  }

  lemma AllCalled(ops: seq<Op>)
    ensures CalledFrom(ops, Run(ops).state.fds, 0)
  {
    forall fd | 0 <= fd < MAX_FDS ensures AsCalled(Run(ops).state.fds[fd], Standing(ops, fd), Registrations(ops, fd)) {
      TableIsAsCalled(ops, fd);
    }
  }

  lemma StepSubmits(ops: seq<Op>, op: Op)
    requires Run(ops).state.sq == []
    ensures var s, t := Run(ops).state, Do(Run(ops).state, op).state; t.sq == [] && t.taken == s.taken + Submits(ops, op)
  {
    var s := Run(ops).state;
    AllCalled(ops);
    assert s.taken + [] == s.taken;
    match op
    case Await(cap, steps, wake) =>
      if cap > 0 {
        WaitSubmits(ops, s, cap, steps, wake);
      }
    case Unregister(fd, steps, replies) =>
      if 0 <= fd < MAX_FDS {
        RemoveSubmits(ops, s, fd, steps, replies);
      }
    case Register(_, _) =>
    case Meanwhile(kernel) => KernelTakesNothing(s, kernel);
  }

  /** Everything the calls of a run submit, in order. */
  ghost function AllSubmitted(ops: seq<Op>): seq<Sqe>
    decreases |ops|
  {
    if ops == [] then [] else AllSubmitted(ops[..|ops| - 1]) + Submits(ops[..|ops| - 1], ops[|ops| - 1])
  }

  /** On every run what the kernel has been handed is exactly that, and nothing is left in the queue. */
  lemma {:induction false} KernelTakesAll(ops: seq<Op>)
    ensures Run(ops).state.taken == AllSubmitted(ops) && Run(ops).state.sq == []
    decreases |ops|
  {
    if ops != [] {
      var before := ops[..|ops| - 1];
      KernelTakesAll(before);
      StepSubmits(before, ops[|ops| - 1]);
    }
  }

  lemma TicketIsOwn(fds: seq<FdState>, fd: nat, r: Request)
    requires IsTicket(fds, r) && fd < |fds| && fds[fd].generation == fds[fd].epoch % GENERATIONS
    requires r.userData == PollData(fd, fds[fd].generation)
    ensures r == Own(fds, fd)
  {
    PackUnpack(fd, fds[fd].generation);
    PackUnpack(FdOf(r.userData), r.stamp % GENERATIONS);
    SameGeneration(r.stamp, fds[fd].epoch);
  }

  /** The cancel of an active poll names the one poll in flight of the present registration, and no other request. */
  lemma CancelNamesItsPoll(ops: seq<Op>, fd: nat, r: Request)
    requires OrderlyRun(ops) && fd < MAX_FDS && Standing(ops, fd).Some? && Run(ops).state.fds[fd].active
    requires r in InFlight(Run(ops).state)
    ensures r.userData == CancelFor(ops, fd).target <==> r == PollFor(ops, fd).request
    ensures InFlight(Run(ops).state)[PollFor(ops, fd).request] == 1
  {
    var s := Run(ops).state;
    EveryUringRun(ops);
    TableIsAsCalled(ops, fd);
    assert FdOk(s.fds, InFlight(s), fd) && IsTicket(s.fds, r);
    assert PollFor(ops, fd).request == Own(s.fds, fd);
    if r.userData == CancelFor(ops, fd).target {
      TicketIsOwn(s.fds, fd, r);
    }
  }

  /** In the caller's terms: every event reported is for a descriptor that stands registered, from a poll of that
      registration and no earlier one. */
  lemma EventsAreOfStanding(ops: seq<Op>, i: nat)
    requires OrderlyRun(ops) && i < |Run(ops).events|
    ensures var e := Run(ops).events[i]; Standing(ops, e.fd).Some? && e.stamp == Registrations(ops, e.fd)
  {
    NoStaleEvent(ops, i);
    TableIsAsCalled(ops, Run(ops).events[i].fd);
  }

  // ----------------------------------------------------------- what a wait handles

  lemma SubmitArrives(s: State, steps: seq<KernelStep>)
    requires |s.fds| <= MAX_FDS
    ensures var a := SubmitMissing(s, steps);
            s.posted <= a.posted && a.fds == ArmFrom(s, 0).fds && Queue(a) == Queue(s) + Arrived(s, a)
  {
    var armed := ArmFrom(s, 0);
    ArmFromQuiet(s, 0);
    ArmFromKeepsKernel(s, 0);
    EnterAppends(armed, steps);
    Assoc(s.saved, s.ring, Arrived(s, SubmitMissing(s, steps)));
  }

  lemma KernelArrives(a: State, steps: seq<KernelStep>)
    ensures var t := Kernel(a, steps); a.posted <= t.posted && t.fds == a.fds && Queue(t) == Queue(a) + Arrived(a, t)
  {
    KernelAppends(a, steps);
    Assoc(a.saved, a.ring, Arrived(a, Kernel(a, steps)));
  }

  /** Of all completions unread or newly come, a wait handles a prefix, each once and in order, and leaves exactly
      the rest: none unless the events are full, or the wait was interrupted with nothing on the ring, when it
      handles none. */
  lemma WaitTakesPrefix(s: State, cap: nat, steps: seq<KernelStep>, wake: Wake) returns (n: nat)
    requires |s.fds| <= MAX_FDS && cap > 0
    ensures var w := Wait(s, cap, steps, wake);
            && s.posted <= w.state.posted
            && var all := Queue(s) + Arrived(s, w.state);
               && n <= |all| && Queue(w.state) == all[n..]
               && FinishAll(ArmFrom(s, 0).fds, all[..n], []) == Harvested(w.state.fds, w.events, [])
               && (if wake.Interrupted? && SubmitMissing(s, steps).ring == [] then n == 0
                   else n < |all| ==> |w.events| == cap)
  {
    var a := SubmitMissing(s, steps);
    SubmitArrives(s, steps);
    if a.ring == [] && wake.Interrupted? {
      n := 0;
    } else {
      var t := if a.ring == [] then Kernel(a, wake.steps) else a;
      if a.ring == [] {
        KernelArrives(a, wake.steps);
        assert Arrived(s, t) == Arrived(s, a) + Arrived(a, t);
        Assoc(Queue(s), Arrived(s, a), Arrived(a, t));
      }
      assert Queue(t) == Queue(s) + Arrived(s, t);
      CollectIsOneHarvest(t, cap);
      n := HarvestTakesPrefix(t.fds, Queue(t), cap, []);
    }
  }
}
