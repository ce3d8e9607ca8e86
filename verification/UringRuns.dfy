/** Whole runs of the poll protocol: any registrations, removals, waits and kernel steps. */
module UringRuns {
  import opened Bytes
  import opened UringSpec
  import opened UringOrder
  import opened UringSafety

  /** The three calls that register a descriptor or change what it waits for. */
  datatype Call = AddListener | AddConnection | ModConnection(wantWrite: bool)

  function EventsOf(call: Call): u32 {
    match call
    case AddListener => POLLIN + POLLERR + POLLHUP
    case AddConnection => POLLIN + POLLRDHUP + POLLERR + POLLHUP
    case ModConnection(wantWrite) => POLLIN + POLLRDHUP + POLLERR + POLLHUP + if wantWrite then POLLOUT else 0
  }

  /** Add or modify, remove, wait, and the kernel at work in between. */
  datatype Op =
    | Register(fd: int, call: Call)
    | Unregister(fd: int, steps: seq<KernelStep>, replies: seq<seq<KernelStep>>)
    | Await(cap: nat, steps: seq<KernelStep>, wake: Wake)
    | Meanwhile(kernel: seq<KernelStep>)

  datatype Done = Done(state: State, events: seq<Event>, clean: bool)

  function Do(s: State, op: Op): (d: Done)
    requires |s.fds| <= MAX_FDS
    ensures |d.state.fds| == |s.fds|
  {
    match op
    case Register(fd, call) => Done(SetFd(s, fd, true, EventsOf(call)).0, [], true)
    case Unregister(fd, steps, replies) =>
      var r := Remove(s, fd, steps, replies);
      Done(r.state, [], r.clean)
    case Await(cap, steps, wake) =>
      var w := Wait(s, cap, steps, wake);
      Done(w.state, w.events, true)
    case Meanwhile(kernel) => Done(Kernel(s, kernel), [], true)
  }

  /** A step leaves no cancel under way, and does not register a descriptor that has a request in flight from
      2^30 registrations before. */
  ghost predicate Orderly(s: State, op: Op)
    requires |s.fds| <= MAX_FDS
  {
    && Do(s, op).clean
    && (op.Register? && 0 <= op.fd < |s.fds| && !s.fds[op.fd].used ==> Timely(s, op.fd))
  }

  lemma StepKeeps(s: State, op: Op)
    requires Inv(s) && Orderly(s, op)
    ensures var d := Do(s, op); Inv(d.state) && AllCurrent(d.state.fds, d.events)
  {
    match op
    case Register(fd, call) => SetFdKeeps(s, fd, EventsOf(call));
    case Unregister(fd, steps, replies) => RemoveKeeps(s, fd, steps, replies);
    case Await(cap, steps, wake) => WaitKeeps(s, cap, steps, wake);
    case Meanwhile(kernel) =>
      KernelKeeps(s, kernel);
      KernelAppends(s, kernel);
  }

  function Run(ops: seq<Op>): (d: Done)
    ensures |d.state.fds| == MAX_FDS
    decreases |ops|
  {
    if ops == [] then Done(InitialState(), [], true) else Do(Run(ops[..|ops| - 1]).state, ops[|ops| - 1])
  }

  /** Every step of the run is orderly. */
  ghost predicate OrderlyRun(ops: seq<Op>)
    decreases |ops|
  {
    ops == [] || (OrderlyRun(ops[..|ops| - 1]) && Orderly(Run(ops[..|ops| - 1]).state, ops[|ops| - 1]))
  }

  lemma InitialInv()
    ensures Inv(InitialState())
  {
    var s := InitialState();
    assert InFlight(s) == multiset{};
    forall fd | 0 <= fd < |s.fds| ensures FdOk(s.fds, InFlight(s), fd) {
    }
  }

  lemma {:induction false} EveryUringRun(ops: seq<Op>)
    requires OrderlyRun(ops)
    ensures var d := Run(ops); Inv(d.state) && AllCurrent(d.state.fds, d.events)
    decreases |ops|
  {
    if ops == [] {
      InitialInv();
    } else {
      EveryUringRun(ops[..|ops| - 1]);
      StepKeeps(Run(ops[..|ops| - 1]).state, ops[|ops| - 1]);
    }
  }

  /** Every event reported is for a registered descriptor, from a poll armed in its present registration. */
  lemma NoStaleEvent(ops: seq<Op>, i: nat)
    requires OrderlyRun(ops) && i < |Run(ops).events|
    ensures var fds, e := Run(ops).state.fds, Run(ops).events[i];
            e.fd < |fds| && fds[e.fd].used && e.stamp == fds[e.fd].epoch
  {
    EveryUringRun(ops);
    assert IsCurrent(Run(ops).state.fds, Run(ops).events[i]);
  }

  /** A registration never has two polls in flight, and is marked active exactly while it has one. */
  lemma OnePollPerRegistration(ops: seq<Op>, fd: nat)
    requires OrderlyRun(ops) && fd < MAX_FDS
    ensures var s := Run(ops).state;
            var count := InFlight(s)[Own(s.fds, fd)];
            count <= 1 && (s.fds[fd].used ==> (s.fds[fd].active <==> count == 1))
  {
    EveryUringRun(ops);
    assert FdOk(Run(ops).state.fds, InFlight(Run(ops).state), fd);
  }
}
