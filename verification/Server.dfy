/** The server's side of a connection (server.c): octets read from the socket are fed, and output is consumed
    by as much as each write took. Ties the connection object to the runs the theorems are about. */
module Server {
  import opened FrameCodec
  import opened ConnectionSpec
  import opened Connections

  method Turn(conn: Connection, op: Op) returns (ok: bool)
    requires conn.Valid()
    modifies conn, conn.headerBlock, conn.input, conn.output, conn.streams
    ensures conn.Valid()
    ensures var fed := Apply(old(conn.Val()), op); conn.Val() == fed.conn && ok == (fed.ret == NoError)
  {
    ok := true;
    match op {
      case Receive(data) =>
        var ret := conn.Receive(data);
        ok := ret == NoError;
      case Sent(n) =>
        conn.ConsumeOutput(n);
    }
  }

  lemma RunSnoc(ops: seq<Op>, k: nat)
    requires k < |ops|
    ensures var before, fed := Run(ops[..k]), Apply(Run(ops[..k]).conn, ops[k]);
            Run(ops[..k + 1]) == Outcome(fed.conn, before.allOk && fed.ret == NoError)
  {
    assert ops[..k + 1][..k] == ops[..k];
  }

  /** After any reads and writes, the object is in the state of that run. */
  method Serve(ops: seq<Op>) returns (conn: Connection, allOk: bool)
    ensures fresh(conn) && conn.Valid()
    ensures Outcome(conn.Val(), allOk) == Run(ops)
  {
    conn := new Connection();
    allOk := true;
    var k := 0;
    ghost var reached := Run([]);
    assert ops[..0] == [];
    while k < |ops|
      invariant 0 <= k <= |ops| && reached == Run(ops[..k])
      invariant fresh(conn) && fresh(conn.streams) && fresh(conn.headerBlock) && fresh(conn.input) && fresh(conn.output)
      invariant conn.Valid() && conn.Val() == reached.conn && allOk == reached.allOk
    {
      RunSnoc(ops, k);
      var ok := Turn(conn, ops[k]);
      allOk := allOk && ok;
      reached := Run(ops[..k + 1]);
      k := k + 1;
    }
    assert ops[..k] == ops;
  }
}
