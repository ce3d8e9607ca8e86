/** Completions are handled in the order they came, and none is lost. */
module UringOrder {
  import opened UringSpec

  /** The unread completions as one queue: those saved, then those still on the ring. */
  function Queue(s: State): seq<Cqe> {
    s.saved + s.ring
  }

  /** What the kernel has posted between two states. */
  function Arrived(s: State, t: State): seq<Cqe>
    requires s.posted <= t.posted
  {
    t.posted[|s.posted|..]
  }

  // ----------------------------------------------------------------- harvest

  /** Finish every completion of a list. */
  function FinishAll(fds: seq<FdState>, queue: seq<Cqe>, events: seq<Event>): Harvested
    decreases |queue|
  {
    if queue == [] then Harvested(fds, events, [])
    else
      var f := Finish(fds, queue[0]);
      FinishAll(f.fds, queue[1..], Report(events, f.event))
  }

  /** A harvest handles a prefix of the queue, all of it and in order, and leaves exactly the rest. */
  lemma {:induction false} HarvestTakesPrefix(fds: seq<FdState>, queue: seq<Cqe>, cap: nat, events: seq<Event>) returns (n: nat)
    requires |events| <= cap
    ensures var h := Harvest(fds, queue, cap, events);
            && n <= |queue| && h.rest == queue[n..] && |h.events| <= cap
            && FinishAll(fds, queue[..n], events) == Harvested(h.fds, h.events, [])
            && (n < |queue| ==> |h.events| == cap)
    decreases |queue|
  {
    if queue == [] || |events| >= cap {
      n := 0;
    } else {
      var f := Finish(fds, queue[0]);
      var m := HarvestTakesPrefix(f.fds, queue[1..], cap, Report(events, f.event));
      n := m + 1;
      assert queue[..n][1..] == queue[1..][..m];
    }
  }

  lemma {:induction false} HarvestSplit(fds: seq<FdState>, a: seq<Cqe>, b: seq<Cqe>, cap: nat, events: seq<Event>)
    requires |events| <= cap
    ensures var h, first := Harvest(fds, a + b, cap, events), Harvest(fds, a, cap, events);
            var second := Harvest(first.fds, b, cap, first.events);
            h == Harvested(second.fds, second.events, first.rest + second.rest)
    decreases |a|
  {
    if a == [] {
      assert a + b == b;
    } else if |events| < cap {
      var f := Finish(fds, a[0]);
      assert (a + b)[1..] == a[1..] + b;
      HarvestSplit(f.fds, a[1..], b, cap, Report(events, f.event));
    }
  }

  /** Collecting from the save array and then from the ring is one harvest of the one queue. */
  lemma CollectIsOneHarvest(s: State, cap: nat)
    ensures var w, h := Collect(s, cap), Harvest(s.fds, Queue(s), cap, []);
            w.state.fds == h.fds && w.events == h.events && Queue(w.state) == h.rest
  {
    HarvestSplit(s.fds, s.saved, s.ring, cap, []);
  }

  // ------------------------------------------------------------------ kernel

  lemma TakeAllQuiet(s: State)
    ensures var t := TakeAll(s);
            t.saved == s.saved && t.ring == s.ring && t.posted == s.posted && t.fds == s.fds && t.sq == []
    decreases |s.sq|
  {
    if s.sq != [] {
      TakeAllQuiet(TakeOne(s.(sq := s.sq[1..]), s.sq[0]));
    }
  }

  lemma {:induction false} KernelAppends(s: State, steps: seq<KernelStep>)
    ensures var t := Kernel(s, steps);
            && s.posted <= t.posted && t.ring == s.ring + Arrived(s, t)
            && t.saved == s.saved && t.fds == s.fds && t.sq == s.sq
    decreases |steps|
  {
    if steps != [] {
      var m := Complete(s, steps[0]);
      KernelAppends(m, steps[1..]);
      assert s.posted <= m.posted && m.ring == s.ring + Arrived(s, m);
    }
  }

  lemma EnterAppends(s: State, steps: seq<KernelStep>)
    ensures var t := Enter(s, steps);
            && s.posted <= t.posted && t.ring == s.ring + Arrived(s, t)
            && t.saved == s.saved && t.fds == s.fds && t.sq == []
  {
    TakeAllQuiet(s);
    KernelAppends(TakeAll(s), steps);
  }

  // ------------------------------------------------------------------- drain

  /** The first completion of the ring for the cancel, if the pass gets that far. */
  lemma {:induction false} ScanStopsAt(saved: seq<Cqe>, ring: seq<Cqe>, target: u64) returns (n: nat)
    ensures n <= |ring| && forall j :: 0 <= j < n ==> ring[j].request.userData != target
    ensures match ScanRing(saved, ring, target)
            case Missing(kept) => n == |ring| && kept == saved + ring
            case Hit(kept, rest, res) =>
              && n < |ring| && ring[n].request.userData == target && ring[n].res == res
              && kept == saved + ring[..n] && rest == ring[n + 1..]
            case Full(kept) => n < |ring| && kept == saved + ring[..n]
    decreases |ring|
  {
    if ring == [] || ring[0].request.userData == target || |saved| >= SAVED_CAP {
      n := 0;
    } else {
      var m := ScanStopsAt(saved + [ring[0]], ring[1..], target);
      n := m + 1;
      assert ring[..n] == [ring[0]] + ring[1..][..m];
    }
  }

  /** `t` is `s` after arrivals, less the completion at `n`, the first on the ring for `target`. */
  ghost predicate Removed(s: State, t: State, target: u64, n: nat) {
    && s.posted <= t.posted && t.fds == s.fds
    && |s.saved| <= n < |Queue(s) + Arrived(s, t)|
    && (Queue(s) + Arrived(s, t))[n].request.userData == target
    && (forall j :: |s.saved| <= j < n ==> (Queue(s) + Arrived(s, t))[j].request.userData != target)
    && Queue(t) == Without(Queue(s) + Arrived(s, t), n)
  }

  /** A drain that finds the cancel's completion removes just that one, the first on the ring, and keeps all
      others, saved, waiting or newly arrived, in order. */
  lemma {:induction false} DrainKeepsOrder(s: State, target: u64, replies: seq<seq<KernelStep>>) returns (n: nat)
    requires Drain(s, target, replies).clean
    ensures Removed(s, Drain(s, target, replies).state, target, n)
    decreases |replies|, if s.ring == [] then 0 else 2
  {
    if s.ring != [] {
      n := SiftKeepsOrder(s, target, replies);
    } else {
      var m := Enter(s, replies[0]);
      EnterAppends(s, replies[0]);
      n := SiftKeepsOrder(m, target, replies[1..]);
      RemovedEarlier(s, m, Drain(s, target, replies).state, target, n);
    }
  }

  lemma {:induction false} SiftKeepsOrder(s: State, target: u64, replies: seq<seq<KernelStep>>) returns (n: nat)
    requires Sift(s, target, replies).clean
    ensures Removed(s, Sift(s, target, replies).state, target, n)
    decreases |replies|, 1
  {
    var k := ScanStopsAt(s.saved, s.ring, target);
    match ScanRing(s.saved, s.ring, target)
    case Hit(saved, rest, res) =>
      n := |s.saved| + k;
      HitRemoves(s, k, target);
    case Missing(saved) =>
      var m := s.(saved := saved, ring := []);
      n := DrainKeepsOrder(m, target, replies);
      MissRemoves(s, m, Sift(s, target, replies).state, target, n);
    case Full(_) =>
  }

  lemma HitRemoves(s: State, k: nat, target: u64)
    requires k < |s.ring| && s.ring[k].request.userData == target
    requires forall j :: 0 <= j < k ==> s.ring[j].request.userData != target
    ensures Removed(s, s.(saved := s.saved + s.ring[..k], ring := s.ring[k + 1..]), target, |s.saved| + k)
  {
    var t := s.(saved := s.saved + s.ring[..k], ring := s.ring[k + 1..]);
    assert Queue(s) + Arrived(s, t) == s.saved + s.ring;
    assert Queue(t) == Without(s.saved + s.ring, |s.saved| + k);
  }

  lemma MissRemoves(s: State, m: State, t: State, target: u64, n: nat)
    requires m == s.(saved := s.saved + s.ring, ring := []) && Removed(m, t, target, n)
    requires forall j :: 0 <= j < |s.ring| ==> s.ring[j].request.userData != target
    ensures Removed(s, t, target, n)
  {
    assert Queue(m) == Queue(s);
  }

  lemma RemovedEarlier(s: State, m: State, t: State, target: u64, n: nat)
    requires s.posted <= m.posted && m.ring == s.ring + Arrived(s, m) && m.saved == s.saved && m.fds == s.fds
    requires Removed(m, t, target, n)
    ensures Removed(s, t, target, n)
  {
    assert Arrived(s, t) == Arrived(s, m) + Arrived(m, t);
    assert Queue(m) + Arrived(m, t) == Queue(s) + Arrived(s, t);
  }

  // ----------------------------------------------------- all outcomes of a drain

  /** Where the first completion for the target stands, or the length if there is none. */
  function FirstFor(queue: seq<Cqe>, target: u64): (n: nat)
    ensures n <= |queue|
    decreases |queue|
  {
    if queue == [] || queue[0].request.userData == target then 0 else 1 + FirstFor(queue[1..], target)
  }

  lemma {:induction false} FirstForMeans(queue: seq<Cqe>, target: u64)
    ensures var n := FirstFor(queue, target);
            && (forall j :: 0 <= j < n ==> queue[j].request.userData != target)
            && (n < |queue| ==> queue[n].request.userData == target)
    decreases |queue|
  {
    if queue != [] && queue[0].request.userData != target {
      FirstForMeans(queue[1..], target);
    }
  }

  /** A pass runs out of room exactly when the completions before the cancel's do not all fit the save array. */
  lemma {:induction false} FullIff(saved: seq<Cqe>, ring: seq<Cqe>, target: u64)
    requires |saved| <= SAVED_CAP
    ensures ScanRing(saved, ring, target).Full? <==> |saved| + FirstFor(ring, target) > SAVED_CAP
    ensures ScanRing(saved, ring, target).Full? ==> ScanRing(saved, ring, target).saved == (saved + ring)[..SAVED_CAP]
    ensures ScanRing(saved, ring, target).Hit? <==> |saved| + FirstFor(ring, target) <= SAVED_CAP && FirstFor(ring, target) < |ring|
    decreases |ring|
  {
    if ring != [] && ring[0].request.userData != target {
      if |saved| < SAVED_CAP {
        FullIff(saved + [ring[0]], ring[1..], target);
        assert saved + [ring[0]] + ring[1..] == saved + ring;
      } else {
        assert (saved + ring)[..SAVED_CAP] == saved;
      }
    }
  }

  /** Everything unread and everything that has come since, in order; and the part not yet saved at first. */
  function Whole(s: State, t: State): seq<Cqe>
    requires s.posted <= t.posted
  {
    Queue(s) + Arrived(s, t)
  }

  /** How far the first answer is from the front of the queue. */
  function AnswerAt(s: State, t: State, target: u64): (n: nat)
    requires s.posted <= t.posted
  {
    |s.saved| + FirstFor(Whole(s, t)[|s.saved|..], target)
  }

  /** What a drain leaves, by where the answer stands among all that was or came unread: the answer removed;
      or nothing changed but where it waits; or, the save array having filled up after `p` completions were
      saved, those from `p` on to its capacity both saved and still on the ring. The drain succeeds exactly when the
      answer says that the poll was cancelled, or was not found (ENOENT, 2). */
  ghost predicate Ended(s: State, r: Outcome, target: u64, p: nat) {
    && s.posted <= r.state.posted && r.state.fds == s.fds
    && var all, n := Whole(s, r.state), AnswerAt(s, r.state, target);
       if n <= SAVED_CAP && n < |all| then
         r.clean && Queue(r.state) == Without(all, n) && (r.ok <==> all[n].res >= 0 || all[n].res == -2)
       else if n <= SAVED_CAP then !r.ok && !r.clean && Queue(r.state) == all && r.state.ring == []
       else && !r.ok && !r.clean && |s.saved| <= p <= SAVED_CAP < |all|
            && r.state.saved == all[..SAVED_CAP] && r.state.ring == all[p..]
  }

  /** A drain removes just the answer exactly when one is within reach of the save array; it fails without
      effect on the queue exactly when none came; and it repeats completions only when more than 256 precede
      the answer. */
  lemma {:induction false} DrainEnds(s: State, target: u64, replies: seq<seq<KernelStep>>) returns (p: nat)
    requires |s.saved| <= SAVED_CAP
    ensures Ended(s, Drain(s, target, replies), target, p)
    decreases |replies|, if s.ring == [] then 0 else 2
  {
    if s.ring != [] {
      p := SiftEnds(s, target, replies);
    } else if replies == [] {
      p := |s.saved|;
      assert Whole(s, s) == s.saved && s.saved[|s.saved|..] == [];
    } else {
      var m := Enter(s, replies[0]);
      EnterAppends(s, replies[0]);
      p := SiftEnds(m, target, replies[1..]);
      EndedEarlier(s, m, Drain(s, target, replies), target, p);
    }
  }

  lemma {:induction false} SiftEnds(s: State, target: u64, replies: seq<seq<KernelStep>>) returns (p: nat)
    requires |s.saved| <= SAVED_CAP
    ensures Ended(s, Sift(s, target, replies), target, p)
    decreases |replies|, 1
  {
    var r := Sift(s, target, replies);
    FullIff(s.saved, s.ring, target);
    match ScanRing(s.saved, s.ring, target)
    case Hit(_, _, _) =>
      p := |s.saved|;
      HitEnds(s, r, target);
    case Full(_) =>
      p := |s.saved|;
      FullEnds(s, r, target);
    case Missing(saved) =>
      var m := s.(saved := saved, ring := []);
      MissingSaves(s.saved, s.ring, target);
      p := DrainEnds(m, target, replies);
      MissingEnds(s, m, r, target, p);
  }

  lemma {:induction false} MissingSaves(saved: seq<Cqe>, ring: seq<Cqe>, target: u64)
    requires ScanRing(saved, ring, target).Missing? && |saved| <= SAVED_CAP
    ensures ScanRing(saved, ring, target).saved == saved + ring && |saved + ring| <= SAVED_CAP
    ensures FirstFor(ring, target) == |ring|
    decreases |ring|
  {
    if ring == [] {
      assert saved + ring == saved;
    } else {
      MissingSaves(saved + [ring[0]], ring[1..], target);
      assert saved + [ring[0]] + ring[1..] == saved + ring;
    }
  }

  lemma HitEnds(s: State, r: Outcome, target: u64)
    requires |s.saved| <= SAVED_CAP && ScanRing(s.saved, s.ring, target).Hit?
    requires |s.saved| + FirstFor(s.ring, target) <= SAVED_CAP && FirstFor(s.ring, target) < |s.ring|
    requires var h := ScanRing(s.saved, s.ring, target);
             r == Outcome(s.(saved := h.saved, ring := h.rest), CancelAccepted(h.res), true)
    ensures Ended(s, r, target, |s.saved|)
  {
    var k := ScanStopsAt(s.saved, s.ring, target);
    FirstForMeans(s.ring, target);
    assert k == FirstFor(s.ring, target);
    assert Whole(s, r.state) == Queue(s) && Queue(s)[|s.saved|..] == s.ring;
    assert AnswerAt(s, r.state, target) == |s.saved| + k && Queue(s)[|s.saved| + k] == s.ring[k];
    assert Queue(r.state) == Without(Queue(s), |s.saved| + k);
  }

  lemma FullEnds(s: State, r: Outcome, target: u64)
    requires |s.saved| <= SAVED_CAP && |s.saved| + FirstFor(s.ring, target) > SAVED_CAP
    requires r == Outcome(s.(saved := (s.saved + s.ring)[..SAVED_CAP]), false, false)
    ensures Ended(s, r, target, |s.saved|)
  {
    assert Whole(s, r.state) == Queue(s) && Queue(s)[|s.saved|..] == s.ring;
  }

  lemma {:induction false} FirstForBehind(a: seq<Cqe>, b: seq<Cqe>, target: u64)
    requires FirstFor(a, target) == |a|
    ensures FirstFor(a + b, target) == |a| + FirstFor(b, target)
    decreases |a|
  {
    if a == [] {
      assert a + b == b;
    } else {
      assert (a + b)[1..] == a[1..] + b;
      FirstForBehind(a[1..], b, target);
    }
  }

  lemma MissingEnds(s: State, m: State, r: Outcome, target: u64, p: nat)
    requires m == s.(saved := s.saved + s.ring, ring := []) && FirstFor(s.ring, target) == |s.ring|
    requires Ended(m, r, target, p)
    ensures Ended(s, r, target, p)
  {
    var more := Arrived(s, r.state);
    assert Whole(m, r.state) == Whole(s, r.state);
    assert Whole(s, r.state)[|s.saved|..] == s.ring + more && Whole(m, r.state)[|m.saved|..] == more;
    FirstForBehind(s.ring, more, target);
  }

  lemma EndedEarlier(s: State, m: State, r: Outcome, target: u64, p: nat)
    requires s.posted <= m.posted && m.ring == s.ring + Arrived(s, m) && m.saved == s.saved && m.fds == s.fds
    requires Ended(m, r, target, p)
    ensures Ended(s, r, target, p)
  {
    assert Arrived(s, r.state) == Arrived(s, m) + Arrived(m, r.state);
    assert Whole(m, r.state) == Whole(s, r.state);
  }
}
