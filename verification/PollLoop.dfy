/** The server's poll loop (server.c): ties the io_uring object to the runs its safety is about. */
module PollLoop {
  import opened UringSpec
  import opened UringRuns
  import opened Urings

  method Register(io: Uring, fd: int, call: Call) returns (ok: bool)
    requires io.Valid()
    modifies io, io.fds
    ensures io.Valid() && (io.st, ok) == SetFd(old(io.st), fd, true, EventsOf(call))
  {
    match call {
      case AddListener => ok := io.AddListener(fd);
      case AddConnection => ok := io.AddConnection(fd);
      case ModConnection(wantWrite) => ok := io.ModConnection(fd, wantWrite);
    }
  }

  method CollectInto(io: Uring, cap: nat, steps: seq<KernelStep>, wake: Wake) returns (reported: seq<Event>)
    requires io.Valid()
    modifies io, io.fds, io.saved, io.cqes, io.sqes, io.sqArray
    ensures io.Valid() && |old(io.st).fds| == MAX_FDS && Waited(io.st, reported) == Wait(old(io.st), cap, steps, wake)
  {
    var events := new Event[cap](_ => Event(0, false, false, false, 0));
    var n := io.WaitForEvents(events, steps, wake);
    reported := events[..n];
  }

  /** One call into the object: the events it reports are those of the step, and a removal that succeeds leaves
      no cancel under way. */
  method Turn(io: Uring, op: Op) returns (reported: seq<Event>, ok: bool)
    requires io.Valid()
    modifies io, io.fds, io.saved, io.cqes, io.sqes, io.sqArray
    ensures io.Valid() && |old(io.st).fds| == MAX_FDS
    ensures var d := Do(old(io.st), op); io.st == d.state && reported == d.events && (ok ==> d.clean)
  {
    reported, ok := [], true;
    match op {
      case Register(fd, call) =>
        ok := Register(io, fd, call);
      case Unregister(fd, steps, replies) =>
        ok := io.RemoveFd(fd, steps, replies);
      case Await(cap, steps, wake) =>
        reported := CollectInto(io, cap, steps, wake);
      case Meanwhile(kernel) =>
        io.RunKernel(kernel);
    }
  }

  /** After any registrations, removals and waits, the object is in the state of that run, and the last call
      reported that run's events. */
  method Poll(ops: seq<Op>) returns (io: Uring, reported: seq<Event>)
    ensures fresh(io) && io.Valid()
    ensures io.st == Run(ops).state && reported == Run(ops).events
  {
    io := new Uring();
    reported := [];
    var k := 0;
    assert ops[..0] == [];
    while k < |ops|
      invariant 0 <= k <= |ops| && fresh(io) && io.Valid()
      invariant fresh(io.fds) && fresh(io.saved) && fresh(io.cqes) && fresh(io.sqes) && fresh(io.sqArray)
      invariant io.st == Run(ops[..k]).state && reported == Run(ops[..k]).events
    {
      assert ops[..k + 1][..k] == ops[..k];
      var ok;
      reported, ok := Turn(io, ops[k]);
      k := k + 1;
    }
    assert ops[..k] == ops;
  }
}
