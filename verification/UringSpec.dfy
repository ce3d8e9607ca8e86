/** The io_uring poll protocol of io_uring.c as functions on its state: registrations with generations, the
    saved completions and the completion ring as queues, and the kernel as a script of steps. */
module UringSpec {
  import opened Bytes

  type u64 = v: int | 0 <= v < U64_SPAN

  const MAX_FDS := 4096
  const SAVED_CAP := 256
  const SQ_ENTRIES := 256
  const CQ_ENTRIES := 512
  const GENERATIONS := 0x4000_0000
  const CANCEL_FLAG := 0x8000_0000_0000_0000
  const TIMEOUT_FLAG := 0x4000_0000_0000_0000
  const ENOENT := 2

  const POLLIN := 0x1
  const POLLOUT := 0x4
  const POLLERR := 0x8
  const POLLHUP := 0x10
  const POLLRDHUP := 0x2000

  // --------------------------------------------------------------- user data

  /** The generation in bits 32 to 61, the descriptor in the low word. */
  function PollData(fd: u32, generation: u32): u64 {
    generation % GENERATIONS * U32_SPAN + fd
  }

  function CancelData(fd: u32, generation: u32): u64 {
    CANCEL_FLAG + PollData(fd, generation)
  }

  predicate IsCancel(data: u64) {
    data / CANCEL_FLAG % 2 == 1
  }

  predicate IsTimeout(data: u64) {
    data / TIMEOUT_FLAG % 2 == 1
  }

  /** The low word read back as a signed int. */
  function FdOf(data: u64): int {
    var low := data % U32_SPAN;
    if low < U31_SPAN then low else low - U32_SPAN
  }

  function GenerationOf(data: u64): u32 {
    data / U32_SPAN % GENERATIONS
  }

  /** What is packed is what is unpacked, and the flags tell cancels, timeouts and polls apart. */
  lemma PackUnpack(fd: u32, generation: u32)
    requires fd < U31_SPAN
    ensures var p, c := PollData(fd, generation), CancelData(fd, generation);
            && FdOf(p) == FdOf(c) == fd && GenerationOf(p) == GenerationOf(c) == generation % GENERATIONS
            && !IsCancel(p) && IsCancel(c) && !IsTimeout(p) && !IsTimeout(c)
  {
    var g := generation % GENERATIONS;
    var p := PollData(fd, generation);
    assert p / U32_SPAN == g && p % U32_SPAN == fd;
    assert (CANCEL_FLAG + p) / U32_SPAN == 0x8000_0000 + g && (CANCEL_FLAG + p) % U32_SPAN == fd;
  }

  // ------------------------------------------------------------------- state

  /** h2_uring_fd_state; `epoch` is history: how many times the descriptor has been registered. */
  datatype FdState = FdState(used: bool, active: bool, events: u32, generation: u32, epoch: nat)

  /** A request as its user data, with the registration it was made in as history. */
  datatype Request = Request(userData: u64, stamp: nat)

  datatype Sqe =
    | PollAdd(fd: nat, events: u32, request: Request)
    | PollRemove(target: u64, request: Request)

  datatype Cqe = Cqe(request: Request, res: int)

  /** h2_event, with the registration its completion was armed in as history. */
  datatype Event = Event(fd: nat, readable: bool, writable: bool, closed: bool, stamp: nat)

  /** `saved` and `ring` are the unread completions, `sq` the submissions the kernel has not taken, `polls` and
      `cancels` what it has under way; `taken` and `posted` are history: every submission it has taken and every
      completion it has put on the ring. */
  datatype State = State(fds: seq<FdState>, saved: seq<Cqe>, ring: seq<Cqe>, sq: seq<Sqe>,
                         polls: seq<Request>, cancels: seq<Request>, taken: seq<Sqe>, posted: seq<Cqe>)

  function InitialFds(): (fds: seq<FdState>)
    ensures |fds| == MAX_FDS
  {
    seq(MAX_FDS, i requires 0 <= i => FdState(false, false, 0, 0, 0))
  }

  function InitialState(): State {
    State(InitialFds(), [], [], [], [], [], [], [])
  }

  function Without<T>(s: seq<T>, k: nat): (r: seq<T>)
    requires k < |s|
  {
    s[..k] + s[k + 1..]
  }

  // ------------------------------------------------------------------ kernel

  /** The kernel finishes some poll or some cancel, with whatever result. */
  datatype KernelStep = PollDone(at: nat, res: int) | CancelDone(at: nat, res: int)

  function Post(s: State, c: Cqe): (r: State)
    ensures r.fds == s.fds
  {
    s.(ring := s.ring + [c], posted := s.posted + [c])
  }

  /** One kernel step; a full ring makes it wait. */
  function Complete(s: State, step: KernelStep): (r: State)
    ensures r.fds == s.fds
  {
    if |s.ring| >= CQ_ENTRIES then s
    else match step
      case PollDone(at, res) =>
        if at < |s.polls| then Post(s.(polls := Without(s.polls, at)), Cqe(s.polls[at], res)) else s
      case CancelDone(at, res) =>
        if at < |s.cancels| then Post(s.(cancels := Without(s.cancels, at)), Cqe(s.cancels[at], res)) else s
  }

  function Kernel(s: State, steps: seq<KernelStep>): (r: State)
    ensures r.fds == s.fds
    decreases |steps|
  {
    if steps == [] then s else Kernel(Complete(s, steps[0]), steps[1..])
  }

  /** The kernel takes the submissions. */
  function TakeOne(s: State, sqe: Sqe): State {
    var t := s.(taken := s.taken + [sqe]);
    match sqe
    case PollAdd(_, _, request) => t.(polls := t.polls + [request])
    case PollRemove(_, request) => t.(cancels := t.cancels + [request])
  }

  function TakeAll(s: State): (r: State)
    ensures r.fds == s.fds
    decreases |s.sq|
  {
    if s.sq == [] then s else TakeAll(TakeOne(s.(sq := s.sq[1..]), s.sq[0]))
  }

  /** io_uring_enter: take what was submitted, then do what `steps` say. */
  function Enter(s: State, steps: seq<KernelStep>): (r: State)
    ensures r.fds == s.fds
  {
    Kernel(TakeAll(s), steps)
  }

  // ----------------------------------------------------------- registrations

  function SetFd(s: State, fd: int, used: bool, events: u32): (r: (State, bool))
    ensures |r.0.fds| == |s.fds|
  {
    if fd < 0 || fd >= MAX_FDS || fd >= |s.fds| then (s, false)
    else
      var f := s.fds[fd];
      var g := if used && !f.used then f.(generation := (f.generation + 1) % U32_SPAN % GENERATIONS, epoch := f.epoch + 1) else f;
      (s.(fds := s.fds[fd := g.(used := used, events := events, active := g.active && used)]), true)
  }

  // -------------------------------------------------------------- completions

  predicate HasBit(result: int, bit: nat)
    requires bit > 0
  {
    result > 0 && result / bit % 2 == 1
  }

  datatype Finished = Finished(fds: seq<FdState>, event: Option<Event>)

  function EventOf(fd: nat, c: Cqe): Event {
    Event(fd, HasBit(c.res, POLLIN), HasBit(c.res, POLLOUT),
          c.res < 0 || HasBit(c.res, POLLERR) || HasBit(c.res, POLLHUP) || HasBit(c.res, POLLRDHUP), c.request.stamp)
  }

  /** A poll result with these conditions in it. */
  function PollMask(input: bool, output: bool, error: bool, hangup: bool, peerClosed: bool): int {
    (if input then POLLIN else 0) + (if output then POLLOUT else 0) + (if error then POLLERR else 0)
    + (if hangup then POLLHUP else 0) + (if peerClosed then POLLRDHUP else 0)
  }

  /** The event tells the conditions apart; a failed poll is a closed descriptor and nothing else. */
  lemma EventReadsMask(fd: nat, r: Request, input: bool, output: bool, error: bool, hangup: bool, peerClosed: bool)
    ensures var e := EventOf(fd, Cqe(r, PollMask(input, output, error, hangup, peerClosed)));
            e == Event(fd, input, output, error || hangup || peerClosed, r.stamp)
    ensures forall res :: res < 0 ==> EventOf(fd, Cqe(r, res)) == Event(fd, false, false, true, r.stamp)
  {
  }

  /** What a completion does to the registrations, and the event it reports. */
  function Finish(fds: seq<FdState>, c: Cqe): (f: Finished)
    ensures |f.fds| == |fds|
  {
    var data := c.request.userData;
    var fd := FdOf(data);
    if IsTimeout(data) || fd < 0 || fd >= MAX_FDS || fd >= |fds| || GenerationOf(data) != fds[fd].generation
    then Finished(fds, None)
    else
      var idle := fds[fd := fds[fd].(active := false)];
      if IsCancel(data) || !fds[fd].used then Finished(idle, None) else Finished(idle, Some(EventOf(fd, c)))
  }

  datatype Harvested = Harvested(fds: seq<FdState>, events: seq<Event>, rest: seq<Cqe>)

  function Report(events: seq<Event>, more: Option<Event>): seq<Event> {
    match more case None => events case Some(e) => events + [e]
  }

  /** Finish completions in order until `cap` events are out. */
  function Harvest(fds: seq<FdState>, queue: seq<Cqe>, cap: nat, events: seq<Event>): (h: Harvested)
    ensures |h.fds| == |fds|
    decreases |queue|
  {
    if queue == [] || |events| >= cap then Harvested(fds, events, queue)
    else
      var f := Finish(fds, queue[0]);
      Harvest(f.fds, queue[1..], cap, Report(events, f.event))
  }

  // ------------------------------------------------------------------ cancels

  datatype Scan = Missing(saved: seq<Cqe>) | Hit(saved: seq<Cqe>, rest: seq<Cqe>, res: int) | Full(saved: seq<Cqe>)

  /** One pass over the ring for the cancel's completion, saving the others on the way. */
  function ScanRing(saved: seq<Cqe>, ring: seq<Cqe>, target: u64): Scan
    decreases |ring|
  {
    if ring == [] then Missing(saved)
    else if ring[0].request.userData == target then Hit(saved, ring[1..], ring[0].res)
    else if |saved| >= SAVED_CAP then Full(saved)
    else ScanRing(saved + [ring[0]], ring[1..], target)
  }

  /** Whether the operation succeeded; `clean`, history, says that no cancel of its is left under way. */
  datatype Outcome = Outcome(state: State, ok: bool, clean: bool)

  predicate CancelAccepted(res: int) {
    res == -ENOENT || res >= 0
  }

  /** Scan the ring; on a miss wait for the kernel again. A full save array leaves the ring as it was. */
  function Sift(s: State, target: u64, replies: seq<seq<KernelStep>>): (r: Outcome)
    ensures r.state.fds == s.fds && (r.ok ==> r.clean)
    decreases |replies|, 1
  {
    match ScanRing(s.saved, s.ring, target)
    case Hit(saved, rest, res) => Outcome(s.(saved := saved, ring := rest), CancelAccepted(res), true)
    case Full(saved) => Outcome(s.(saved := saved), false, false)
    case Missing(saved) => Drain(s.(saved := saved, ring := []), target, replies)
  }

  /** h2_uring_drain_until_cancel: what the kernel does in each wait is one of `replies`, empty for an
      interrupted one; when they are used up the wait fails. */
  function Drain(s: State, target: u64, replies: seq<seq<KernelStep>>): (r: Outcome)
    ensures r.state.fds == s.fds && (r.ok ==> r.clean)
    decreases |replies|, if s.ring == [] then 0 else 2
  {
    if s.ring != [] then Sift(s, target, replies)
    else if replies == [] then Outcome(s, false, false)
    else Sift(Enter(s, replies[0]), target, replies[1..])
  }

  /** h2_uring_cancel_active_poll; `steps` is what the kernel does while it takes the request. */
  function CancelPoll(s: State, fd: nat, steps: seq<KernelStep>, replies: seq<seq<KernelStep>>): (r: Outcome)
    requires fd < |s.fds| && fd < MAX_FDS
    ensures r.state.fds == s.fds && (r.ok ==> r.clean)
  {
    var f := s.fds[fd];
    if !f.active then Outcome(s, true, true)
    else if |s.sq| >= SQ_ENTRIES then Outcome(s, false, true)
    else
      var target := CancelData(fd, f.generation);
      Drain(Enter(s.(sq := s.sq + [PollRemove(PollData(fd, f.generation), Request(target, f.epoch))]), steps), target, replies)
  }

  function Retire(s: State, fd: nat): State
    requires fd < |s.fds|
  {
    s.(fds := s.fds[fd := s.fds[fd].(active := false, used := false, events := 0)])
  }

  /** h2_io_remove. */
  function Remove(s: State, fd: int, steps: seq<KernelStep>, replies: seq<seq<KernelStep>>): (r: Outcome)
    ensures |r.state.fds| == |s.fds| && (r.ok ==> r.clean)
  {
    if fd < 0 || fd >= MAX_FDS || fd >= |s.fds| then Outcome(s, false, true)
    else if !s.fds[fd].used then Outcome(s, true, true)
    else
      var r := CancelPoll(s, fd, steps, replies);
      if !r.ok then r
      else Outcome(Retire(r.state, fd), true, r.clean)
  }

  // -------------------------------------------------------------------- waits

  predicate Lacks(f: FdState) {
    f.used && !f.active
  }

  function Arm(s: State, fd: nat): (r: State)
    requires fd < |s.fds| && fd < MAX_FDS
    ensures |r.fds| == |s.fds|
  {
    var f := s.fds[fd];
    s.(sq := s.sq + [PollAdd(fd, f.events % 0x1_0000, Request(PollData(fd, f.generation), f.epoch))],
       fds := s.fds[fd := f.(active := true)])
  }

  /** The pass that arms a poll for every registration without one, as long as the queue has room. */
  function ArmFrom(s: State, fd: nat): (r: State)
    requires fd <= |s.fds| <= MAX_FDS
    ensures |r.fds| == |s.fds|
    decreases |s.fds| - fd
  {
    if fd == |s.fds| then s
    else if !Lacks(s.fds[fd]) then ArmFrom(s, fd + 1)
    else if |s.sq| >= SQ_ENTRIES then s
    else ArmFrom(Arm(s, fd), fd + 1)
  }

  function SubmitMissing(s: State, steps: seq<KernelStep>): (r: State)
    requires |s.fds| <= MAX_FDS
    ensures |r.fds| == |s.fds|
  {
    var armed := ArmFrom(s, 0);
    if armed.sq == s.sq then armed else Enter(armed, steps)
  }

  datatype Wake = Interrupted | Woken(steps: seq<KernelStep>)
  datatype Waited = Waited(state: State, events: seq<Event>)

  /** Finish what was saved, then what is on the ring. */
  function Collect(s: State, cap: nat): (w: Waited)
    ensures |w.state.fds| == |s.fds|
  {
    var saved := Harvest(s.fds, s.saved, cap, []);
    var ring := Harvest(saved.fds, s.ring, cap, saved.events);
    Waited(s.(fds := ring.fds, saved := saved.rest, ring := ring.rest), ring.events)
  }

  /** Wait for the kernel if the ring is empty, then collect. */
  function AwaitRing(s: State, cap: nat, wake: Wake): (w: Waited)
    ensures |w.state.fds| == |s.fds|
  {
    if s.ring != [] then Collect(s, cap)
    else if wake.Interrupted? then Waited(s, [])
    else Collect(Kernel(s, wake.steps), cap)
  }

  /** h2_io_wait; `steps` is what the kernel does while it takes the polls, `wake` how the wait ends. */
  function Wait(s: State, cap: nat, steps: seq<KernelStep>, wake: Wake): (w: Waited)
    requires |s.fds| <= MAX_FDS
    ensures |w.state.fds| == |s.fds|
  {
    if cap == 0 then Waited(s, []) else AwaitRing(SubmitMissing(s, steps), cap, wake)
  }
}
