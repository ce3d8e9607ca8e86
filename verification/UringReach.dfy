/** The limits of the poll protocol are reached: runs that lead to a completion 2^30 registrations old, and to a
    save array with no room for a cancel. */
module UringReach {
  import opened Bytes
  import opened UringSpec
  import opened UringOrder
  import opened UringSafety
  import opened UringRuns
  import opened UringAge

  // ----------------------------------------------------------- runs step by step

  lemma RunSnoc(ops: seq<Op>, op: Op)
    ensures Run(ops + [op]) == Do(Run(ops).state, op)
    ensures OrderlyRun(ops + [op]) <==> OrderlyRun(ops) && Orderly(Run(ops).state, op)
  {
    assert (ops + [op])[..|ops|] == ops;
  }

  lemma {:induction false} RunContinues(ops: seq<Op>, more: seq<Op>)
    requires more != []
    ensures Run(ops + more) == RunOn(Run(ops).state, more)
    decreases |more|
  {
    RunSnoc(ops, more[0]);
    if |more| == 1 {
      assert more == [more[0]];
    } else {
      assert ops + [more[0]] + more[1..] == ops + more;
      RunContinues(ops + [more[0]], more[1..]);
    }
  }

  // ------------------------------------------------------- one descriptor at work

  const UNUSED := FdState(false, false, 0, 0, 0)

  /** Only descriptor 0 has ever been registered, `epoch` times; every request under way is a poll of its, and
      nothing is unread. */
  ghost predicate Lone(s: State, epoch: nat) {
    && |s.fds| == MAX_FDS && s.saved == [] && s.ring == [] && s.sq == [] && s.cancels == []
    && s.fds[0] == FdState(false, false, 0, epoch % GENERATIONS, epoch)
    && (forall fd :: 1 <= fd < MAX_FDS ==> s.fds[fd] == UNUSED)
    && (forall i :: 0 <= i < |s.polls| ==> s.polls[i].userData < CANCEL_FLAG)
  }

  lemma InitialLone()
    ensures Lone(InitialState(), 0)
  {
  }

  /** Registered, not yet armed. */
  function Registered0(s: State): State
    requires |s.fds| == MAX_FDS
  {
    SetFd(s, 0, true, EventsOf(AddConnection)).0
  }

  lemma RegisterOrderly(s: State, epoch: nat)
    requires Lone(s, epoch) && epoch + 1 < GENERATIONS
    ensures Orderly(s, Register(0, AddConnection)) && Do(s, Register(0, AddConnection)).state == Registered0(s)
  {
  }

  lemma {:induction false} ArmNothing(s: State, fd: nat)
    requires fd <= |s.fds| <= MAX_FDS && forall k :: fd <= k < |s.fds| ==> !Lacks(s.fds[k])
    ensures ArmFrom(s, fd) == s
    decreases |s.fds| - fd
  {
    if fd < |s.fds| {
      ArmNothing(s, fd + 1);
    }
  }

  function Own0(epoch: nat): Request {
    Request(PollData(0, (epoch + 1) % GENERATIONS), epoch + 1)
  }

  function PollAdd0(epoch: nat): Sqe {
    PollAdd(0, EventsOf(AddConnection) % 0x1_0000, Own0(epoch))
  }

  /** Armed: the poll is with the kernel. */
  function Armed0(s: State, epoch: nat): State
    requires |s.fds| == MAX_FDS
  {
    s.(fds := s.fds[0 := FdState(true, true, EventsOf(AddConnection), (epoch + 1) % GENERATIONS, epoch + 1)],
       polls := s.polls + [Own0(epoch)], taken := s.taken + [PollAdd0(epoch)])
  }

  lemma AwaitArms(s: State, epoch: nat)
    requires Lone(s, epoch)
    ensures Do(Registered0(s), Await(1, [], Interrupted)) == Done(Armed0(s, epoch), [], true)
  {
    NextGeneration(epoch, epoch % GENERATIONS);
    var t := Registered0(s);
    var a := Arm(t, 0);
    ArmNothing(a, 1);
    assert ArmFrom(t, 0) == a;
    assert a.sq == [PollAdd0(epoch)] && a.sq[1..] == [];
    assert TakeAll(a) == TakeAll(TakeOne(a.(sq := []), a.sq[0]));
    assert Enter(a, []) == Armed0(s, epoch);
  }

  const GRANT := CancelDone(0, 0)

  /** Removal with the cancel granted at once, and the poll's own completion still to come. */
  lemma RemoveGranted(s: State, epoch: nat)
    requires Lone(s, epoch)
    ensures var t := Armed0(s, epoch);
            var r := Remove(t, 0, [GRANT], []);
            r.ok && r.clean && Lone(r.state, epoch + 1) && r.state.polls == t.polls
  {
    var t := Armed0(s, epoch);
    var target := CancelData(0, (epoch + 1) % GENERATIONS);
    var mine := Request(target, epoch + 1);
    var ask := PollRemove(PollData(0, (epoch + 1) % GENERATIONS), mine);
    var asked := t.(sq := [ask]);
    TakeCancel(asked, mine);
    var u := t.(cancels := [mine], taken := t.taken + [ask]);
    OneKernelStep(u, GRANT);
    var v := u.(cancels := [], ring := [Cqe(mine, 0)], posted := u.posted + [Cqe(mine, 0)]);
    assert Complete(u, GRANT) == v;
    assert v.ring[1..] == [];
    assert ScanRing([], v.ring, target) == Hit([], [], 0);
    assert t.sq + asked.sq == asked.sq;
    assert CancelPoll(t, 0, [GRANT], []) == Drain(v, target, []);
    assert Drain(v, target, []) == Outcome(v.(ring := []), true, true);
  }

  lemma TakeCancel(s: State, mine: Request)
    requires s.sq != [] && s.sq[0].PollRemove? && s.sq[0].request == mine && |s.sq| == 1
    ensures TakeAll(s) == s.(sq := [], cancels := s.cancels + [mine], taken := s.taken + s.sq)
  {
    assert s.sq[1..] == [] && s.sq == [s.sq[0]];
  }

  /** Register, arm, remove: one more registration behind, and its poll still with the kernel. */
  lemma CycleRun(ops: seq<Op>, epoch: nat) returns (more: seq<Op>)
    requires OrderlyRun(ops) && Lone(Run(ops).state, epoch) && epoch + 1 < GENERATIONS
    ensures OrderlyRun(more) && Lone(Run(more).state, epoch + 1)
    ensures Run(more).state.polls == Run(ops).state.polls + [Own0(epoch)]
  {
    var s := Run(ops).state;
    var a, b, c := Register(0, AddConnection), Await(1, [], Interrupted), Unregister(0, [GRANT], []);
    RegisterOrderly(s, epoch);
    RunSnoc(ops, a);
    AwaitArms(s, epoch);
    RunSnoc(ops + [a], b);
    RemoveGranted(s, epoch);
    RunSnoc(ops + [a] + [b], c);
    more := ops + [a] + [b] + [c];
  }

  lemma {:induction false} CyclesRun(n: nat) returns (ops: seq<Op>)
    requires n < GENERATIONS
    ensures OrderlyRun(ops) && Lone(Run(ops).state, n) && |Run(ops).state.polls| == n
    ensures n > 0 ==> Run(ops).state.polls[0] == Own0(0)
    decreases n
  {
    if n == 0 {
      ops := [];
      InitialLone();
    } else {
      var before := CyclesRun(n - 1);
      ops := CycleRun(before, n - 1);
    }
  }

  // ------------------------------------------------------------------- old age

  /** Registering and removing without arming. */
  lemma IdleCycle(ops: seq<Op>, epoch: nat) returns (more: seq<Op>)
    requires OrderlyRun(ops) && Lone(Run(ops).state, epoch) && 0 < epoch < GENERATIONS
    requires Run(ops).state.polls == [Own0(0)]
    ensures OrderlyRun(more) && Lone(Run(more).state, epoch + 1) && Run(more).state.polls == [Own0(0)]
  {
    var s := Run(ops).state;
    var a, b := Register(0, AddConnection), Unregister(0, [], []);
    LoneFlight(s, epoch);
    RunSnoc(ops, a);
    NextGeneration(epoch, epoch % GENERATIONS);
    RunSnoc(ops + [a], b);
    more := ops + [a] + [b];
  }

  lemma LoneFlight(s: State, epoch: nat)
    requires Lone(s, epoch) && s.polls == [Own0(0)]
    ensures InFlight(s) == multiset{Own0(0)} && FdOf(Own0(0).userData) == 0
  {
    PackUnpack(0, 1);
    assert Queue(s) == [];
  }

  lemma {:induction false} IdleCycles(epoch: nat) returns (ops: seq<Op>)
    requires 0 < epoch <= GENERATIONS
    ensures OrderlyRun(ops) && Lone(Run(ops).state, epoch) && Run(ops).state.polls == [Own0(0)]
    decreases epoch
  {
    if epoch == 1 {
      ops := CyclesRun(1);
      assert Run(ops).state.polls == [Own0(0)];
    } else {
      var before := IdleCycles(epoch - 1);
      ops := IdleCycle(before, epoch - 1);
    }
  }

  /** The age bound is reached, and crossing it goes wrong: an orderly run, one registration too soon, and an
      event that belongs to a registration 2^30 before. */
  lemma StaleEventReached() returns (ops: seq<Op>, more: seq<Op>, i: nat)
    ensures OrderlyRun(ops) && !Timely(Run(ops).state, 0)
    ensures IsStale(Run(ops + [Register(0, AddConnection)] + more), i)
  {
    ops := IdleCycles(GENERATIONS);
    var s := Run(ops).state;
    LoneFlight(s, GENERATIONS);
    assert Own0(0) in InFlight(s);
    EveryUringRun(ops);
    more, i := UntimelyIsStale(s, 0, AddConnection);
    var again := ops + [Register(0, AddConnection)];
    RunSnoc(ops, Register(0, AddConnection));
    RunContinues(again, more);
  }

  // ----------------------------------------------------------------- no room

  function Times(step: KernelStep, n: nat): (steps: seq<KernelStep>)
    ensures |steps| == n
    decreases n
  {
    if n == 0 then [] else [step] + Times(step, n - 1)
  }

  const FIRST_DONE := PollDone(0, 0)

  /** The kernel finishes the oldest polls one by one; none of their completions looks like a cancel's. */
  lemma {:induction false} OldestDone(s: State, n: nat)
    requires n <= |s.polls| && |s.ring| + n <= CQ_ENTRIES
    requires forall i :: 0 <= i < |s.polls| ==> s.polls[i].userData < CANCEL_FLAG
    requires forall i :: 0 <= i < |s.ring| ==> s.ring[i].request.userData < CANCEL_FLAG
    ensures var t := Kernel(s, Times(FIRST_DONE, n));
            && |t.ring| == |s.ring| + n
            && t == s.(ring := t.ring, polls := t.polls, posted := t.posted)
            && forall i :: 0 <= i < |t.ring| ==> t.ring[i].request.userData < CANCEL_FLAG
    decreases n
  {
    if n > 0 {
      var m := Complete(s, FIRST_DONE);
      assert Times(FIRST_DONE, n)[1..] == Times(FIRST_DONE, n - 1);
      assert m.ring == s.ring + [Cqe(s.polls[0], 0)] && m.polls == s.polls[1..];
      OldestDone(m, n - 1);
    }
  }

  /** Registered and armed once more, after as many cycles as there are polls with the kernel. */
  lemma ManyArmed(n: nat) returns (ops: seq<Op>, s: State)
    requires n + 1 < GENERATIONS
    ensures OrderlyRun(ops) && Lone(s, n) && |s.polls| == n && Run(ops).state == Armed0(s, n)
  {
    var before := CyclesRun(n);
    s := Run(before).state;
    var a, b := Register(0, AddConnection), Await(1, [], Interrupted);
    RegisterOrderly(s, n);
    RunSnoc(before, a);
    AwaitArms(s, n);
    RunSnoc(before + [a], b);
    ops := before + [a] + [b];
  }

  /** 257 completions stand on the ring when a removal asks for its cancel: the save array takes 256, the pass
      fails, and those 256 are now both saved and still on the ring. */
  lemma NoRoomReached() returns (ops: seq<Op>, steps: seq<KernelStep>)
    ensures OrderlyRun(ops)
    ensures var s := Run(ops).state;
            var r := Remove(s, 0, steps, []);
            && !r.ok && s.saved == [] && |r.state.ring| > SAVED_CAP
            && r.state.saved == r.state.ring[..SAVED_CAP]
  {
    var armed, s := ManyArmed(257);
    var c := Meanwhile(Times(FIRST_DONE, 257));
    OldestDone(Armed0(s, 257), 257);
    RunSnoc(armed, c);
    ops := armed + [c];
    steps := [GRANT];
    CrowdedRemoval(Run(ops).state, 258);
  }

  lemma CrowdedRemoval(s: State, g: u32)
    requires |s.fds| == MAX_FDS && s.fds[0].used && s.fds[0].active && s.fds[0].generation == g
    requires s.saved == [] && s.sq == [] && s.cancels == [] && SAVED_CAP < |s.ring| < CQ_ENTRIES
    requires forall i :: 0 <= i < |s.ring| ==> s.ring[i].request.userData < CANCEL_FLAG
    ensures var r := Remove(s, 0, [GRANT], []);
            !r.ok && |r.state.ring| > SAVED_CAP && r.state.saved == r.state.ring[..SAVED_CAP]
  {
    var target := CancelData(0, g);
    var mine := Request(target, s.fds[0].epoch);
    var ask := PollRemove(PollData(0, g), mine);
    var asked := s.(sq := [ask]);
    TakeCancel(asked, mine);
    var u := s.(cancels := [mine], taken := s.taken + [ask]);
    OneKernelStep(u, GRANT);
    var v := Complete(u, GRANT);
    assert v.ring == s.ring + [Cqe(mine, 0)] && v.saved == [] && v.sq == [];
    assert s.sq + asked.sq == asked.sq;
    assert CancelPoll(s, 0, [GRANT], []) == Drain(v, target, []);
    NoneBefore(s.ring, [Cqe(mine, 0)], target);
    FullIff([], v.ring, target);
    var scan := ScanRing([], v.ring, target);
    assert scan.Full? && [] + v.ring == v.ring;
    assert Drain(v, target, []) == Outcome(v.(saved := scan.saved), false, false);
  }

  lemma {:induction false} NoneBefore(a: seq<Cqe>, b: seq<Cqe>, target: u64)
    requires target >= CANCEL_FLAG && forall i :: 0 <= i < |a| ==> a[i].request.userData < CANCEL_FLAG
    ensures FirstFor(a + b, target) >= |a|
    decreases |a|
  {
    if a != [] {
      assert (a + b)[1..] == a[1..] + b;
      NoneBefore(a[1..], b, target);
    }
  }
}
