/** Where the byte stream is cut does not matter: the preface, frame headers and payloads may be split
    anywhere between feeds. */
module Chunking {
  import opened Bytes
  import opened FrameCodec
  import opened ConnectionSpec

  /** A frame that is already whole is the same frame with more input behind it. */
  lemma HeadOfMore(a: seq<byte>, b: seq<byte>)
    requires FrameReady(a)
    ensures FrameReady(a + b) && ParseHeader(a + b) == ParseHeader(a) && FrameEnd(a + b) == FrameEnd(a)
    ensures (a + b)[HEADER_LEN..FrameEnd(a)] == a[HEADER_LEN..FrameEnd(a)]
    ensures (a + b)[FrameEnd(a)..] == a[FrameEnd(a)..] + b
  {
    assert (a + b)[5..9] == a[5..9];
    assert forall i :: 0 <= i < 4 ==> (a + b)[5..][i] == a[5..][i];
  }

  /** What feeding `b` behind a loop that ended as `d` amounts to. */
  function DrainOn(d: Drained, b: seq<byte>): Drained {
    if d.ret == NoError then Drain(d.core, d.rest + b) else Drained(d.core, d.rest + b, d.ret)
  }

  lemma {:induction false} DrainMore(c: Core, a: seq<byte>, b: seq<byte>)
    ensures Drain(c, a + b) == DrainOn(Drain(c, a), b)
    decreases |a|
  {
    if FrameReady(a) {
      HeadOfMore(a, b);
      var r := HandleHead(c, a);
      assert HandleHead(c, a + b) == r;
      if r.ret == NoError {
        DrainMore(r.core, a[FrameEnd(a)..], b);
      }
    }
  }

  /** Two results differ at most in `b` waiting behind an error. */
  function Behind(f: Fed, b: seq<byte>): Fed {
    if f.ret == NoError then Advance(f.conn.(input := f.conn.input + b))
    else Fed(f.conn.(input := f.conn.input + b), f.ret)
  }

  lemma PumpMore(conn: Conn, b: seq<byte>)
    requires conn.prefaceSeen
    ensures Pump(conn.(input := conn.input + b)) == Behind(Pump(conn), b)
  {
    DrainMore(conn.core, conn.input, b);
  }

  lemma GreetMore(conn: Conn, b: seq<byte>)
    requires conn.prefaceSeen
    ensures Greet(conn.(input := conn.input + b)) == Behind(Greet(conn), b)
  {
    var r := QueueSettings(conn.core);
    PumpMore(conn, b);
    PumpMore(conn.(core := r.core, settingsSent := true), b);
  }

  lemma AdvanceMore(conn: Conn, b: seq<byte>)
    ensures Advance(conn.(input := conn.input + b)) == Behind(Advance(conn), b)
  {
    var x := conn.input;
    if conn.prefaceSeen {
      PumpMore(conn, b);
    } else if |x| >= PREFACE_LEN {
      assert (x + b)[..PREFACE_LEN] == x[..PREFACE_LEN];
      if x[..PREFACE_LEN] == PREFACE {
        assert (x + b)[PREFACE_LEN..] == x[PREFACE_LEN..] + b;
        GreetMore(conn.(prefaceSeen := true, input := x[PREFACE_LEN..]), b);
      }
    }
  }

  lemma AdvanceShrinks(conn: Conn)
    ensures |Advance(conn).conn.input| <= |conn.input|
  {
  }

  /** Feeding `a` and then `b` is feeding `a + b`; after an error `b` merely waits behind. */
  lemma FeedSplit(conn: Conn, a: seq<byte>, b: seq<byte>)
    requires |conn.input| + |a| + |b| <= INPUT_CAP
    ensures var f := Feed(conn, a);
            if f.ret == NoError then Feed(conn, a + b) == Feed(f.conn, b)
            else Feed(conn, a + b) == Fed(f.conn.(input := f.conn.input + b), f.ret)
  {
    var after := conn.(input := conn.input + a);
    Assoc(conn.input, a, b);
    AdvanceMore(after, b);
    AdvanceShrinks(after);
  }

  function Concat(chunks: seq<seq<byte>>): seq<byte> {
    if chunks == [] then [] else chunks[0] + Concat(chunks[1..])
  }

  /** Feed chunk after chunk, up to the first that fails. */
  function FeedAll(conn: Conn, chunks: seq<seq<byte>>): Fed
    requires chunks != []
    decreases |chunks|
  {
    var f := Feed(conn, chunks[0]);
    if f.ret != NoError || |chunks| == 1 then f else FeedAll(f.conn, chunks[1..])
  }

  /** Same result code, output, windows, table and flags, and the same unread input unless the run failed,
      when the later chunks were not offered. */
  ghost predicate Alike(f: Fed, whole: Fed) {
    && whole.ret == f.ret
    && f.conn.input <= whole.conn.input
    && whole.conn == f.conn.(input := whole.conn.input)
    && (f.ret == NoError ==> whole == f)
  }

  lemma FeedShrinks(conn: Conn, a: seq<byte>)
    ensures |Feed(conn, a).conn.input| <= |conn.input| + |a|
  {
    AdvanceShrinks(conn.(input := conn.input + a));
  }

  lemma {:induction false} ChunksAreOneFeed(conn: Conn, chunks: seq<seq<byte>>)
    requires chunks != [] && |conn.input| + |Concat(chunks)| <= INPUT_CAP
    ensures Alike(FeedAll(conn, chunks), Feed(conn, Concat(chunks)))
    decreases |chunks|
  {
    var a, rest := chunks[0], chunks[1..];
    if rest == [] {
      assert Concat(chunks) == a + [] == a;
    } else {
      FeedSplit(conn, a, Concat(rest));
      FeedShrinks(conn, a);
      if Feed(conn, a).ret == NoError {
        ChunksAreOneFeed(Feed(conn, a).conn, rest);
      }
    }
  }

  /** Any two ways of cutting the same octets agree. */
  lemma ChunkingIndependence(conn: Conn, chunks: seq<seq<byte>>, others: seq<seq<byte>>)
    requires chunks != [] && others != [] && Concat(chunks) == Concat(others)
    requires |conn.input| + |Concat(chunks)| <= INPUT_CAP
    ensures var f, g := FeedAll(conn, chunks), FeedAll(conn, others);
            f.ret == g.ret && g.conn == f.conn.(input := g.conn.input) && (f.ret == NoError ==> f == g)
  {
    ChunksAreOneFeed(conn, chunks);
    ChunksAreOneFeed(conn, others);
  }
}
