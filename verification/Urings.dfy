/** io_uring.c: the object behind h2_io, with its rings, its save array and its table of descriptors. `st` is
    the state of UringSpec that the fields represent; `polls` and `cancels` are the kernel's. */
module Urings {
  import opened Bytes
  import opened UringSpec

  /** Unread entries between two free-running 32-bit indices: tail - head, as unsigned arithmetic has it. */
  function Gap(head: u32, tail: u32): (n: nat)
    ensures n < U32_SPAN && n == (tail - head) % U32_SPAN
  {
    if head <= tail then tail - head else tail + U32_SPAN - head
  }

  function Next(index: u32): (next: u32)
    ensures next == (index + 1) % U32_SPAN
  {
    if index + 1 == U32_SPAN then 0 else index + 1
  }

  /** The ring holds `queue` from `head` up to `tail`, wrapping both in the buffer and in 32 bits. */
  ghost predicate OnRing(cqes: array<Cqe>, head: u32, tail: u32, queue: seq<Cqe>)
    reads cqes
  {
    && cqes.Length == CQ_ENTRIES && |queue| == Gap(head, tail) <= CQ_ENTRIES
    && forall i :: 0 <= i < |queue| ==> cqes[(head + i) % CQ_ENTRIES] == queue[i]
  }

  lemma HeadAdvances(cqes: array<Cqe>, head: u32, tail: u32, queue: seq<Cqe>)
    requires OnRing(cqes, head, tail, queue) && queue != []
    ensures cqes[head % CQ_ENTRIES] == queue[0] && OnRing(cqes, Next(head), tail, queue[1..])
  {
    assert cqes[(head + 0) % CQ_ENTRIES] == queue[0];
    forall i | 0 <= i < |queue| - 1 ensures cqes[(Next(head) + i) % CQ_ENTRIES] == queue[1..][i] {
      assert (Next(head) + i) % CQ_ENTRIES == (head + (i + 1)) % CQ_ENTRIES;
      assert cqes[(head + (i + 1)) % CQ_ENTRIES] == queue[i + 1];
    }
  }

  lemma TailSlotIsFree(head: u32, tail: u32, i: nat)
    requires i < Gap(head, tail) < CQ_ENTRIES
    ensures (head + i) % CQ_ENTRIES != tail % CQ_ENTRIES
  {
  }

  lemma TailSlot(head: u32, tail: u32)
    requires Gap(head, tail) < CQ_ENTRIES
    ensures (head + Gap(head, tail)) % CQ_ENTRIES == tail % CQ_ENTRIES && Gap(head, Next(tail)) == Gap(head, tail) + 1
  {
  }

  /** Write the entry at the tail; the unread ones are elsewhere in the buffer. */
  method WriteTail(cqes: array<Cqe>, head: u32, tail: u32, ghost queue: seq<Cqe>, c: Cqe)
    requires OnRing(cqes, head, tail, queue) && |queue| < CQ_ENTRIES
    modifies cqes
    ensures OnRing(cqes, head, Next(tail), queue + [c])
  {
    forall i | 0 <= i < |queue| ensures cqes[(head + i) % CQ_ENTRIES] == queue[i] && (head + i) % CQ_ENTRIES != tail % CQ_ENTRIES {
      TailSlotIsFree(head, tail, i);
    }
    TailSlot(head, tail);
    cqes[tail % CQ_ENTRIES] := c;
  }

  /** A submission queue whose index array points each entry at its own slot. */
  ghost predicate OnQueue(sqes: array<Sqe>, sqArray: array<nat>, head: u32, tail: u32, queue: seq<Sqe>)
    reads sqes, sqArray
  {
    && sqes.Length == sqArray.Length == SQ_ENTRIES && |queue| == Gap(head, tail) <= SQ_ENTRIES
    && forall i :: 0 <= i < |queue| ==>
         sqes[(head + i) % SQ_ENTRIES] == queue[i] && sqArray[(head + i) % SQ_ENTRIES] == (head + i) % SQ_ENTRIES
  }

  lemma QueueHeadAdvances(sqes: array<Sqe>, sqArray: array<nat>, head: u32, tail: u32, queue: seq<Sqe>)
    requires OnQueue(sqes, sqArray, head, tail, queue) && queue != []
    ensures sqArray[head % SQ_ENTRIES] == head % SQ_ENTRIES && sqes[head % SQ_ENTRIES] == queue[0]
    ensures OnQueue(sqes, sqArray, Next(head), tail, queue[1..])
  {
    assert sqes[(head + 0) % SQ_ENTRIES] == queue[0];
    forall i | 0 <= i < |queue| - 1
      ensures sqArray[(Next(head) + i) % SQ_ENTRIES] == (Next(head) + i) % SQ_ENTRIES
      ensures sqes[(Next(head) + i) % SQ_ENTRIES] == queue[1..][i] {
      assert (Next(head) + i) % SQ_ENTRIES == (head + (i + 1)) % SQ_ENTRIES;
      assert sqes[(head + (i + 1)) % SQ_ENTRIES] == queue[i + 1];
    }
  }

  lemma QueueTailIsFree(head: u32, tail: u32, i: nat)
    requires i < Gap(head, tail) < SQ_ENTRIES
    ensures (head + i) % SQ_ENTRIES != tail % SQ_ENTRIES
  {
  }

  lemma QueueTail(head: u32, tail: u32)
    requires Gap(head, tail) < SQ_ENTRIES
    ensures (head + Gap(head, tail)) % SQ_ENTRIES == tail % SQ_ENTRIES && Gap(head, Next(tail)) == Gap(head, tail) + 1
  {
  }

  /** Fill the slot taken at the tail of the submission queue. */
  method WriteSqe(sqes: array<Sqe>, sqArray: array<nat>, head: u32, tail: u32, ghost queue: seq<Sqe>, e: Sqe)
    requires OnQueue(sqes, sqArray, head, tail, queue) && |queue| < SQ_ENTRIES
    modifies sqes, sqArray
    ensures OnQueue(sqes, sqArray, head, Next(tail), queue + [e])
  {
    forall i | 0 <= i < |queue|
      ensures sqes[(head + i) % SQ_ENTRIES] == queue[i] && sqArray[(head + i) % SQ_ENTRIES] == (head + i) % SQ_ENTRIES
      ensures (head + i) % SQ_ENTRIES != tail % SQ_ENTRIES {
      QueueTailIsFree(head, tail, i);
    }
    QueueTail(head, tail);
    var index := tail % SQ_ENTRIES;
    sqArray[index] := index;
    sqes[index] := e;
  }

  lemma MoveOne<T>(a: seq<T>, b: seq<T>)
    requires b != []
    ensures a + b == (a + [b[0]]) + b[1..]
  {
  }

  datatype Pass = NotThere | Found(res: int) | NoRoom

  class Uring {
    const fds: array<FdState>
    const saved: array<Cqe>
    var savedCount: nat
    const cqes: array<Cqe>
    var cqHead: u32
    var cqTail: u32
    const sqes: array<Sqe>
    const sqArray: array<nat>
    var sqHead: u32
    var sqTail: u32
    var polls: seq<Request>
    var cancels: seq<Request>
    ghost var st: State

    ghost predicate Valid()
      reads this, fds, saved, cqes, sqes, sqArray
    {
      && fds.Length == MAX_FDS && fds[..] == st.fds
      && saved.Length == SAVED_CAP && savedCount <= SAVED_CAP && saved[..savedCount] == st.saved
      && OnRing(cqes, cqHead, cqTail, st.ring)
      && OnQueue(sqes, sqArray, sqHead, sqTail, st.sq)
      && polls == st.polls && cancels == st.cancels
      && saved != cqes
    }

    constructor ()
      ensures Valid() && st == InitialState()
      ensures fresh(fds) && fresh(saved) && fresh(cqes) && fresh(sqes) && fresh(sqArray)
    {
      var blank := Cqe(Request(0, 0), 0);
      fds := new FdState[MAX_FDS](_ => FdState(false, false, 0, 0, 0));
      saved := new Cqe[SAVED_CAP](_ => blank);
      cqes := new Cqe[CQ_ENTRIES](_ => blank);
      sqes := new Sqe[SQ_ENTRIES](_ => PollAdd(0, 0, Request(0, 0)));
      sqArray := new nat[SQ_ENTRIES](_ => 0);
      savedCount, cqHead, cqTail, sqHead, sqTail := 0, 0, 0, 0, 0;
      polls, cancels := [], [];
      st := InitialState();
    }

    // ---------------------------------------------------------------- kernel

    method PostCqe(c: Cqe)
      requires Valid() && |st.ring| < CQ_ENTRIES
      modifies this`cqTail, this`st, cqes
      ensures Valid() && st == Post(old(st), c)
    {
      WriteTail(cqes, cqHead, cqTail, st.ring, c);
      cqTail := Next(cqTail);
      st := Post(st, c);
    }

    /** One step of the kernel: it finishes a poll or a cancel, if the ring has room. */
    method CompleteStep(step: KernelStep)
      requires Valid()
      modifies this`cqTail, this`polls, this`cancels, this`st, cqes
      ensures Valid() && st == Complete(old(st), step)
    {
      if Gap(cqHead, cqTail) >= CQ_ENTRIES {
        return;
      }
      match step {
        case PollDone(at, res) =>
          if at < |polls| {
            var request := polls[at];
            polls := Without(polls, at);
            st := st.(polls := polls);
            PostCqe(Cqe(request, res));
          }
        case CancelDone(at, res) =>
          if at < |cancels| {
            var request := cancels[at];
            cancels := Without(cancels, at);
            st := st.(cancels := cancels);
            PostCqe(Cqe(request, res));
          }
      }
    }

    method RunKernel(steps: seq<KernelStep>)
      requires Valid()
      modifies this`cqTail, this`polls, this`cancels, this`st, cqes
      ensures Valid() && st == Kernel(old(st), steps)
    {
      var k := 0;
      ghost var rest := steps;
      while k < |steps|
        invariant 0 <= k <= |steps| && rest == steps[k..] && Valid()
        invariant Kernel(st, rest) == Kernel(old(st), steps)
      {
        CompleteStep(steps[k]);
        rest := rest[1..];
        k := k + 1;
      }
    }

    method TakeSubmission()
      requires Valid() && st.sq != []
      modifies this`sqHead, this`polls, this`cancels, this`st
      ensures Valid() && st == TakeOne(old(st).(sq := old(st).sq[1..]), old(st).sq[0])
    {
      QueueHeadAdvances(sqes, sqArray, sqHead, sqTail, st.sq);
      var sqe := sqes[sqArray[sqHead % SQ_ENTRIES]];
      sqHead := Next(sqHead);
      match sqe {
        case PollAdd(_, _, request) => polls := polls + [request];
        case PollRemove(_, request) => cancels := cancels + [request];
      }
      st := TakeOne(st.(sq := st.sq[1..]), sqe);
    }

    /** The kernel takes up every submission. */
    method TakeSubmissions()
      requires Valid()
      modifies this`sqHead, this`polls, this`cancels, this`st
      ensures Valid() && st == TakeAll(old(st))
    {
      while sqHead != sqTail
        invariant Valid() && TakeAll(st) == TakeAll(old(st))
        decreases |st.sq|
      {
        TakeSubmission();
      }
    }

    /** io_uring_enter, which succeeds: what the kernel does meanwhile is `steps`. */
    method EnterKernel(steps: seq<KernelStep>)
      requires Valid()
      modifies this`sqHead, this`cqTail, this`polls, this`cancels, this`st, cqes
      ensures Valid() && st == Enter(old(st), steps)
    {
      TakeSubmissions();
      RunKernel(steps);
    }

    // --------------------------------------------------------- registrations

    method ChangeFd(fd: nat, f: FdState)
      requires Valid() && fd < MAX_FDS
      modifies this`st, fds
      ensures Valid() && st == old(st).(fds := old(st).fds[fd := f])
    {
      fds[fd] := f;
      st := st.(fds := st.fds[fd := f]);
    }

    method Set(fd: int, used: bool, events: u32) returns (ok: bool)
      requires Valid()
      modifies this`st, fds
      ensures Valid() && (st, ok) == SetFd(old(st), fd, used, events)
    {
      if fd < 0 || fd >= MAX_FDS {
        return false;
      }
      var f := fds[fd];
      if used && !f.used {
        f := f.(generation := (f.generation + 1) % U32_SPAN % GENERATIONS, epoch := f.epoch + 1);
      }
      f := f.(used := used, events := events);
      if !used {
        f := f.(active := false);
      }
      ChangeFd(fd, f);
      ok := true;
    }

    method AddListener(fd: int) returns (ok: bool)
      requires Valid()
      modifies this`st, fds
      ensures Valid() && (st, ok) == SetFd(old(st), fd, true, POLLIN + POLLERR + POLLHUP)
    {
      ok := Set(fd, true, POLLIN + POLLERR + POLLHUP);
    }

    method AddConnection(fd: int) returns (ok: bool)
      requires Valid()
      modifies this`st, fds
      ensures Valid() && (st, ok) == SetFd(old(st), fd, true, POLLIN + POLLRDHUP + POLLERR + POLLHUP)
    {
      ok := Set(fd, true, POLLIN + POLLRDHUP + POLLERR + POLLHUP);
    }

    method ModConnection(fd: int, wantWrite: bool) returns (ok: bool)
      requires Valid()
      modifies this`st, fds
      ensures Valid()
      ensures (st, ok) == SetFd(old(st), fd, true, POLLIN + POLLRDHUP + POLLERR + POLLHUP + if wantWrite then POLLOUT else 0)
    {
      var events := POLLIN + POLLRDHUP + POLLERR + POLLHUP;
      if wantWrite {
        events := events + POLLOUT;
      }
      ok := Set(fd, true, events);
    }

    // ------------------------------------------------------------ submissions

    /** Take the next slot of the submission queue and fill it, if there is one. */
    method Submit(e: Sqe) returns (ok: bool)
      requires Valid()
      modifies this`sqTail, this`st, sqes, sqArray
      ensures Valid() && ok == (|old(st.sq)| < SQ_ENTRIES)
      ensures st == if ok then old(st).(sq := old(st.sq) + [e]) else old(st)
    {
      if Gap(sqHead, sqTail) >= SQ_ENTRIES {
        return false;
      }
      WriteSqe(sqes, sqArray, sqHead, sqTail, st.sq, e);
      sqTail := Next(sqTail);
      st := st.(sq := st.sq + [e]);
      ok := true;
    }

    method ArmFd(fd: nat) returns (ok: bool)
      requires Valid() && fd < MAX_FDS
      modifies this`sqTail, this`st, fds, sqes, sqArray
      ensures Valid() && ok == (|old(st.sq)| < SQ_ENTRIES)
      ensures st == if ok then Arm(old(st), fd) else old(st)
    {
      var f := fds[fd];
      ok := Submit(PollAdd(fd, f.events % 0x1_0000, Request(PollData(fd, f.generation), f.epoch)));
      if ok {
        ChangeFd(fd, f.(active := true));
      }
    }

    /** Arm a poll for every registration that lacks one, as long as the submission queue has room. */
    method ArmMissing() returns (submitted: nat)
      requires Valid()
      modifies this`sqTail, this`st, fds, sqes, sqArray
      ensures Valid() && st == ArmFrom(old(st), 0) && |st.sq| == |old(st.sq)| + submitted
    {
      submitted := 0;
      var fd := 0;
      while fd < MAX_FDS
        invariant 0 <= fd <= MAX_FDS && Valid() && |st.sq| == |old(st.sq)| + submitted
        invariant ArmFrom(st, fd) == ArmFrom(old(st), 0)
      {
        if fds[fd].used && !fds[fd].active {
          var ok := ArmFd(fd);
          if !ok {
            return;
          }
          submitted := submitted + 1;
        }
        fd := fd + 1;
      }
    }

    method SubmitMissingPolls(steps: seq<KernelStep>)
      requires Valid()
      modifies this, fds, sqes, sqArray, cqes
      ensures Valid() && savedCount == old(savedCount) && st == SubmitMissing(old(st), steps)
    {
      var submitted := ArmMissing();
      if submitted > 0 {
        EnterKernel(steps);
      } else {
        ArmNone(old(st), 0);
      }
    }

    // ------------------------------------------------------------ completions

    /** h2_uring_finish_cqe. */
    method FinishCqe(c: Cqe, events: array<Event>, count: nat) returns (n: nat)
      requires Valid() && count < events.Length
      modifies this`st, fds, events
      ensures Valid() && n <= events.Length
      ensures var f := Finish(old(st.fds), c);
              st == old(st).(fds := f.fds) && events[..n] == Report(old(events[..count]), f.event)
    {
      n := count;
      var data := c.request.userData;
      if IsTimeout(data) {
        return;
      }
      var fd := FdOf(data);
      if fd < 0 || fd >= MAX_FDS {
        return;
      }
      if GenerationOf(data) != fds[fd].generation {
        return;
      }
      ChangeFd(fd, fds[fd].(active := false));
      if !IsCancel(data) && fds[fd].used {
        events[n] := EventOf(fd, c);
        n := n + 1;
      }
    }

    method SaveCqe(c: Cqe) returns (ok: bool)
      requires Valid()
      modifies this`savedCount, this`st, saved
      ensures Valid() && ok == (|old(st.saved)| < SAVED_CAP)
      ensures st == if ok then old(st).(saved := old(st.saved) + [c]) else old(st)
    {
      if savedCount >= SAVED_CAP {
        return false;
      }
      saved[savedCount] := c;
      savedCount := savedCount + 1;
      st := st.(saved := st.saved + [c]);
      ok := true;
    }

    /** Copy one saved completion down. */
    method SlideSaved(from: nat, to: nat)
      requires Valid() && to <= from < savedCount
      modifies this`st, saved
      ensures Valid() && st == old(st).(saved := st.saved)
      ensures saved[..to + 1] == old(saved[..to]) + [old(saved[from])]
      ensures saved[from + 1..savedCount] == old(saved[from + 1..savedCount])
    {
      saved[to] := saved[from];
      st := st.(saved := saved[..savedCount]);
    }

    method KeepSaved(count: nat)
      requires Valid() && count <= savedCount
      modifies this`savedCount, this`st
      ensures Valid() && savedCount == count && st == old(st).(saved := saved[..count])
    {
      savedCount := count;
      st := st.(saved := saved[..count]);
    }

    /** h2_uring_finish_saved_cqes: finish the saved completions until the events are full, sliding the rest
        to the front. */
    method FinishSavedCqes(events: array<Event>) returns (n: nat)
      requires Valid()
      modifies this`savedCount, this`st, fds, saved, events
      ensures Valid() && n <= events.Length
      ensures var h := Harvest(old(st.fds), old(st.saved), events.Length, []);
              st == old(st).(fds := h.fds, saved := h.rest) && events[..n] == h.events
    {
      n := 0;
      var pos, keep := 0, 0;
      ghost var queue, kept, rest := st.saved, [], st.saved;
      assert kept + rest == rest;
      while pos < savedCount
        invariant 0 <= pos <= savedCount && n <= events.Length && keep == |kept| <= pos
        invariant Valid() && st == old(st).(fds := st.fds, saved := st.saved) && savedCount == old(savedCount)
        invariant saved[..keep] == kept && saved[pos..savedCount] == rest && (kept != [] ==> n == events.Length)
        invariant Harvest(old(st.fds), queue, events.Length, []) == Harvest(st.fds, kept + rest, events.Length, events[..n])
        decreases |rest|
      {
        assert saved[pos] == rest[0] && saved[pos + 1..savedCount] == rest[1..];
        if n < events.Length {
          assert kept + rest == rest;
          n := FinishCqe(saved[pos], events, n);
          assert kept + rest[1..] == rest[1..];
        } else {
          SlideSaved(pos, keep);
          MoveOne(kept, rest);
          kept := kept + [rest[0]];
          keep := keep + 1;
        }
        rest := rest[1..];
        pos := pos + 1;
      }
      assert kept + rest == kept;
      KeepSaved(keep);
    }

    /** Finish the completion at the head of the ring. */
    method FinishNext(events: array<Event>, count: nat) returns (n: nat)
      requires Valid() && count < events.Length && st.ring != []
      modifies this`cqHead, this`st, fds, events
      ensures Valid() && n <= events.Length
      ensures var f := Finish(old(st.fds), old(st.ring)[0]);
              st == old(st).(fds := f.fds, ring := old(st.ring)[1..]) && events[..n] == Report(old(events[..count]), f.event)
    {
      ghost var ring := st.ring;
      HeadAdvances(cqes, cqHead, cqTail, ring);
      n := FinishCqe(cqes[cqHead % CQ_ENTRIES], events, count);
      cqHead := Next(cqHead);
      st := st.(ring := ring[1..]);
    }

    /** Finish what is on the ring until the events are full. */
    method FinishRing(events: array<Event>, count: nat) returns (n: nat)
      requires Valid() && count <= events.Length
      modifies this`cqHead, this`st, fds, events
      ensures Valid() && n <= events.Length
      ensures var h := Harvest(old(st.fds), old(st.ring), events.Length, old(events[..count]));
              st == old(st).(fds := h.fds, ring := h.rest) && events[..n] == h.events
    {
      n := count;
      while cqHead != cqTail && n < events.Length
        invariant Valid() && n <= events.Length && st == old(st).(fds := st.fds, ring := st.ring)
        invariant Harvest(st.fds, st.ring, events.Length, events[..n])
                  == Harvest(old(st.fds), old(st.ring), events.Length, old(events[..count]))
        decreases |st.ring|
      {
        n := FinishNext(events, n);
      }
    }

    /** The harvest of h2_io_wait: saved completions first, then the ring. */
    method CollectEvents(events: array<Event>) returns (n: nat)
      requires Valid()
      modifies this`savedCount, this`cqHead, this`st, fds, saved, events
      ensures Valid() && n <= events.Length
      ensures var w := Collect(old(st), events.Length); st == w.state && events[..n] == w.events
    {
      n := FinishSavedCqes(events);
      n := FinishRing(events, n);
    }

    method AwaitEvents(events: array<Event>, wake: Wake) returns (n: nat)
      requires Valid()
      modifies this, fds, saved, cqes, events
      ensures Valid() && n <= events.Length
      ensures var w := AwaitRing(old(st), events.Length, wake); st == w.state && events[..n] == w.events
    {
      if cqHead == cqTail {
        match wake {
          case Interrupted => return 0;
          case Woken(steps) => RunKernel(steps);
        }
      }
      n := CollectEvents(events);
    }

    /** h2_io_wait; `steps` and `wake` are what the kernel does meanwhile. */
    method WaitForEvents(events: array<Event>, steps: seq<KernelStep>, wake: Wake) returns (n: nat)
      requires Valid()
      modifies this, fds, saved, cqes, sqes, sqArray, events
      ensures Valid() && n <= events.Length
      ensures var w := Wait(old(st), events.Length, steps, wake); st == w.state && events[..n] == w.events
    {
      if events.Length == 0 {
        return 0;
      }
      SubmitMissingPolls(steps);
      n := AwaitEvents(events, wake);
    }

    // ----------------------------------------------------------------- cancels

    /** One pass over the ring for the completion of a cancel, saving the others. The shared head moves only
        when the pass ends. */
    method ScanForCancel(target: u64) returns (pass: Pass)
      requires Valid()
      modifies this`savedCount, this`cqHead, this`st, saved
      ensures Valid()
      ensures match ScanRing(old(st.saved), old(st.ring), target)
              case Missing(kept) => pass == NotThere && st == old(st).(saved := kept, ring := [])
              case Hit(kept, rest, res) => pass == Found(res) && st == old(st).(saved := kept, ring := rest)
              case Full(kept) => pass == NoRoom && st == old(st).(saved := kept)
    {
      var head: u32 := cqHead;
      ghost var rest := st.ring;
      while head != cqTail
        invariant Valid() && OnRing(cqes, head, cqTail, rest) && st == old(st).(saved := st.saved)
        invariant ScanRing(st.saved, rest, target) == ScanRing(old(st.saved), old(st.ring), target)
        decreases |rest|
      {
        HeadAdvances(cqes, head, cqTail, rest);
        var c := cqes[head % CQ_ENTRIES];
        if c.request.userData == target {
          cqHead := Next(head);
          st := st.(ring := rest[1..]);
          return Found(c.res);
        }
        var ok := SaveCqe(c);
        if !ok {
          return NoRoom;
        }
        head := Next(head);
        rest := rest[1..];
      }
      cqHead := head;
      st := st.(ring := []);
      pass := NotThere;
    }

    /** Wait for the kernel once if the ring is empty, then scan. */
    method AwaitAndScan(target: u64, wait: bool, reply: seq<KernelStep>, ghost left: seq<seq<KernelStep>>) returns (pass: Pass)
      requires Valid() && wait == (st.ring == []) && (wait ==> left != [] && left[0] == reply)
      modifies this, saved, cqes
      ensures Valid()
      ensures var r := Drain(old(st), target, left);
              match pass
              case Found(res) => r == Outcome(st, CancelAccepted(res), true)
              case NoRoom => r == Outcome(st, false, false)
              case NotThere => r == Drain(st, target, if wait then left[1..] else left) && st.ring == []
    {
      if wait {
        EnterKernel(reply);
      }
      pass := ScanForCancel(target);
    }

    /** h2_uring_drain_until_cancel; each wait for the kernel takes one of `replies`, and fails when none is left. */
    method DrainUntilCancel(target: u64, replies: seq<seq<KernelStep>>) returns (ok: bool)
      requires Valid()
      modifies this, saved, cqes
      ensures Valid()
      ensures var r := Drain(old(st), target, replies); st == r.state && ok == r.ok
    {
      var k := 0;
      ghost var left := replies;
      while true
        invariant 0 <= k <= |replies| && left == replies[k..] && Valid()
        invariant Drain(st, target, left) == Drain(old(st), target, replies)
        decreases |left|, if st.ring == [] then 0 else 1
      {
        var wait := cqHead == cqTail;
        if wait && k == |replies| {
          return false;
        }
        var reply := if wait then replies[k] else [];
        var pass := AwaitAndScan(target, wait, reply, left);
        if wait {
          left := left[1..];
          k := k + 1;
        }
        match pass {
          case Found(res) => return CancelAccepted(res);
          case NoRoom => return false;
          case NotThere =>
        }
      }
    }

    /** h2_uring_cancel_active_poll. */
    method CancelActivePoll(fd: nat, steps: seq<KernelStep>, replies: seq<seq<KernelStep>>) returns (ok: bool)
      requires Valid() && fd < MAX_FDS
      modifies this, saved, cqes, sqes, sqArray
      ensures Valid()
      ensures var r := CancelPoll(old(st), fd, steps, replies); st == r.state && ok == r.ok
    {
      var f := fds[fd];
      if !f.active {
        return true;
      }
      var target := CancelData(fd, f.generation);
      var room := Submit(PollRemove(PollData(fd, f.generation), Request(target, f.epoch)));
      if !room {
        return false;
      }
      EnterKernel(steps);
      ok := DrainUntilCancel(target, replies);
    }

    /** h2_io_remove. */
    method RemoveFd(fd: int, steps: seq<KernelStep>, replies: seq<seq<KernelStep>>) returns (ok: bool)
      requires Valid()
      modifies this, fds, saved, cqes, sqes, sqArray
      ensures Valid()
      ensures var r := Remove(old(st), fd, steps, replies); st == r.state && ok == r.ok
    {
      if fd < 0 || fd >= MAX_FDS {
        return false;
      }
      if !fds[fd].used {
        return true;
      }
      ok := CancelActivePoll(fd, steps, replies);
      if ok {
        ChangeFd(fd, fds[fd].(active := false, used := false, events := 0));
      }
    }
  }

  /** Arming only appends to the submission queue. */
  lemma {:induction false} ArmNone(s: State, fd: nat)
    requires fd <= |s.fds| <= MAX_FDS
    ensures s.sq <= ArmFrom(s, fd).sq
    decreases |s.fds| - fd
  {
    if fd < |s.fds| {
      if !Lacks(s.fds[fd]) {
        ArmNone(s, fd + 1);
      } else if |s.sq| < SQ_ENTRIES {
        ArmNone(Arm(s, fd), fd + 1);
      }
    }
  }
}
