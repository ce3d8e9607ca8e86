/** Runs and blocks on which the code departs from a simpler story: a response left sendable, accounts out of
    balance after an error, and a block the scan takes but the decoder does not. */
module Witnesses {
  import opened Bytes
  import opened FrameCodec
  import opened HpackInteger
  import opened HpackStatic
  import opened HpackSpec
  import opened HpackTheorems
  import opened Streams
  import opened ConnectionSpec
  import opened History
  import opened GoodSteps
  import opened GoodRuns
  import opened Ledger
  import opened LedgerRuns
  import opened Flushing
  import opened Fragmentation
  import opened Connections
  import opened Content

  // ------------------------------------------------------------ frame by frame

  /** A run that has taken all its input so far, and is past the preface. */
  predicate Idling(o: Outcome) {
    o.allOk && o.conn.prefaceSeen && o.conn.input == []
  }

  lemma RunSnoc(ops: seq<Op>, op: Op)
    ensures var fed := Apply(Run(ops).conn, op);
            Run(ops + [op]) == Outcome(fed.conn, Run(ops).allOk && fed.ret == NoError)
  {
    assert (ops + [op])[..|ops|] == ops;
  }

  /** Feeding one whole frame is handling it. */
  lemma FrameFed(ops: seq<Op>, f: Frame)
    requires Idling(Run(ops)) && Encodable(f) && |Wire(f)| <= INPUT_CAP
    ensures var r, o := HandleFrame(Run(ops).conn.core, HeaderOf(f), f.payload), Run(ops + [Receive(Wire(f))]);
            && o.conn.core == r.core && o.allOk == (r.ret == NoError)
            && (r.ret == NoError ==> Idling(o))
  {
    var conn := Run(ops).conn;
    RunSnoc(ops, Receive(Wire(f)));
    DrainStep(conn.core, f, []);
    assert conn.input + Wire(f) == Wire(f) + [];
  }

  /** The connection once the preface has been answered. */
  function Greeted(): Core {
    Emit(InitialCore(), Some(HELLO)).core
  }

  lemma PrefaceFed()
    ensures Run([Receive(PREFACE)]) == Outcome(Conn(Greeted(), true, true, []), true)
    ensures Greeted() == InitialCore().(pending := Wire(HELLO), log := [Out(HELLO)])
  {
    assert [Receive(PREFACE)][..0] == [];
    assert [] + PREFACE == PREFACE && PREFACE[..PREFACE_LEN] == PREFACE && PREFACE[PREFACE_LEN..] == [];
    assert SettingsFrame(0, [Setting(ENABLE_PUSH, 0)]) == Some(HELLO);
    assert [] + Wire(HELLO) == Wire(HELLO);
  }

  // ------------------------------------------------------------------ settings

  function InitialWindowFrame(value: u32): Frame {
    Frame(SETTINGS, 0, 0, SettingsBytes([Setting(INITIAL_WINDOW_SIZE, value)]))
  }

  lemma OneSetting(item: Setting)
    ensures SettingsIn(SettingsBytes([item])) == [item] && |SettingsBytes([item])| == 6
  {
    var w := SettingsBytes([item]);
    assert SettingsBytes([]) == [];
    Read16OfBe16(item.id, Be32(item.value));
    Read32OfBe32(item.value, []);
    assert w == Be16(item.id) + Be32(item.value);
    assert w[2..] == Be32(item.value) + [];
    assert w[6..] == [];
  }

  lemma {:induction false} AdjustNothing(c: Core, delta: int, k: nat)
    requires k <= |c.slots| && forall j :: k <= j < |c.slots| ==> Reusable(c.slots[j])
    ensures AdjustFrom(c, delta, k) == Step(c, NoError)
    decreases |c.slots| - k
  {
    if k < |c.slots| {
      AdjustNothing(c, delta, k + 1);
    }
  }

  lemma SettingsHandled(c: Core, value: u32, r: Step)
    requires !c.block.open && c.maxFrameSize >= 6
    requires var f := InitialWindowFrame(value);
             r == ApplyOne(Note(c, In(HeaderOf(f), f.payload)), Setting(INITIAL_WINDOW_SIZE, value))
    ensures var f := InitialWindowFrame(value);
            HandleFrame(c, HeaderOf(f), f.payload)
            == Recover(if r.ret != NoError then r else Emit(r.core, Some(SETTINGS_ACK)), 0)
  {
    var f := InitialWindowFrame(value);
    var item := Setting(INITIAL_WINDOW_SIZE, value);
    var e := Note(c, In(HeaderOf(f), f.payload));
    OneSetting(item);
    ApplyAllOne(e, item, r);
    ApplyListIs(e, [item], ApplyAll(e, [item]));
    assert ProcessFrame(e, HeaderOf(f), f.payload) == ApplySettings(e, false, Ok([item]));
  }

  lemma ApplyAllOne(c: Core, item: Setting, r: Step)
    requires r == ApplyOne(c, item)
    ensures ApplyAll(c, [item]) == r
  {
    assert [item][1..] == [];
  }

  /** An accepted initial window moves the window of the one live slot, if any, and is acknowledged. */
  lemma WindowMoved(c: Core, value: u32)
    requires !c.block.open && c.maxFrameSize >= 6 && value <= INT32_MAX && c.slots != []
    requires forall j :: 1 <= j < |c.slots| ==> Reusable(c.slots[j])
    requires Live(c.slots[0]) ==> INT32_MIN <= c.slots[0].sendWindow + (value - c.initialWindow) <= INT32_MAX
    requires |c.pending| + HEADER_LEN <= OUTPUT_CAP
    ensures var f := InitialWindowFrame(value);
            var r := HandleFrame(c, HeaderOf(f), f.payload);
            var s := c.slots[0];
            var t := if Live(s) then s.(sendWindow := s.sendWindow + (value - c.initialWindow)) else s;
            r.ret == NoError
            && r.core == c.(slots := c.slots[0 := t], initialWindow := value, pending := c.pending + Wire(SETTINGS_ACK), log := r.core.log)
  {
    var f := InitialWindowFrame(value);
    var e := Note(c, In(HeaderOf(f), f.payload));
    var delta := value - c.initialWindow;
    AdjustNothing(AdjustOne(e, delta, 0).core, delta, 1);
    assert AdjustFrom(e, delta, 0) == AdjustOne(e, delta, 0);
    SettingsHandled(c, value, ApplyOne(e, Setting(INITIAL_WINDOW_SIZE, value)));
  }

  const TOO_LARGE: u32 := 0x8000_0000

  /** An error leaves the accounts out of balance: the frame is in the log, its setting is not in force. */
  lemma AccountsAfterError() returns (ops: seq<Op>)
    ensures var o := Run(ops);
            !o.allOk && o.conn.core.initialWindow == DEFAULT_WINDOW && InitialWindow(o.conn.core.log) == TOO_LARGE
  {
    var c, f := Greeted(), InitialWindowFrame(TOO_LARGE);
    var e := Note(c, In(HeaderOf(f), f.payload));
    PrefaceFed();
    SettingsHandled(c, TOO_LARGE, Step(e, FlowControlError));
    FrameFed([Receive(PREFACE)], f);
    ops := [Receive(PREFACE)] + [Receive(Wire(f))];
    OneSetting(Setting(INITIAL_WINDOW_SIZE, TOO_LARGE));
    NoteConn(c.log, In(HeaderOf(f), f.payload));
    assert LastInitial([Setting(INITIAL_WINDOW_SIZE, TOO_LARGE)], DEFAULT_WINDOW) == TOO_LARGE;
    GoawayLogged(e);
  }

  lemma GoawayLogged(e: Core)
    ensures var d := QueueGoaway(e, FlowControlError.Number()).core;
            InitialWindow(d.log) == InitialWindow(e.log) && d.initialWindow == e.initialWindow
  {
    NoteConn(e.log, Out(GoawayFrame(e.lastStreamId, FlowControlError.Number(), []).value));
  }

  // ------------------------------------------------------------------ a request

  /** An index of the static table below 128 is one octet. */
  lemma PathIndex()
    ensures IndexedCode(4) == [0x84]
  {
    Powers();
    assert OrByte(0x80, 4) == 0x84 by {
      assert BitOr(8, 0, 4) == 8 && BitOr(0x80, 4, 8) == 0x84;
    }
  }

  lemma PathRow()
    ensures Row(4) == (":path", "/")
  {
  }

  lemma SlashIs()
    ensures Ascii("/") == SLASH
  {
    assert "/"[0] as int % 256 == 47;
  }

  lemma Row4()
    ensures RowOf(4) == Ok(Field(PATH, SLASH))
  {
    PathRow();
    PlainText(":path");
    PlainText("/");
    SlashIs();
  }

  lemma SlashScanned()
    ensures ExtractPath([0x84], VALUE_CAP) == PathScan(NoError, SLASH)
  {
    PathIndex();
    Row4();
    StaticItem(4, []);
    assert [0x84] + [] == IndexedCode(4);
    assert ReadItem([0x84]) == Ok(Indexed(Field(PATH, SLASH), 1));
    assert [0x84][1..] == [];
  }

  const REQUEST := Frame(HEADERS, 5, 1, [0x84])

  /** The stream's slot while its response waits for credit. */
  const DEFERRED := Slot(1, HalfClosedRemote, 0, DEFAULT_WINDOW, true, true, false, SLASH)

  lemma RequestFinished(c: Core)
    requires c.slots == EmptyTable() && c.lastStreamId == 0 && c.initialWindow == 0 && |c.pending| <= 100
    ensures var r := FinishHeaders(c, 1, true, PathScan(NoError, SLASH));
            r.ret == NoError && |r.core.pending| <= |c.pending| + WIRE_CAP
            && r.core == c.(slots := c.slots[0 := DEFERRED], lastStreamId := 1, pending := r.core.pending, log := r.core.log)
  {
    FindIsFirst(c.slots, 1, 0);
    assert FreeFrom(c.slots, 0) == Some(0);
    var g := SetSlot(c, 0, Init(1, 0));
    assert GetStream(c, 1) == Got(g, Some(0));
    var e := Note(g.(lastStreamId := 1), Opened(1, SLASH));
    var s := Init(1, 0).(path := SLASH, state := HalfClosedRemote);
    var entered := SetSlot(e, 0, s);
    assert OpenStream(e, 0, true, PathScan(NoError, SLASH)) == QueueResponse(entered, 0);
    Deferred(entered, s);
  }

  lemma Deferred(c: Core, s: Slot)
    requires c.slots != [] && c.slots[0] == s && |c.pending| <= 100
    requires s == Init(1, 0).(path := SLASH, state := HalfClosedRemote)
    ensures var r := QueueResponse(c, 0);
            r.ret == NoError && |r.core.pending| <= |c.pending| + WIRE_CAP
            && r.core == c.(slots := c.slots[0 := DEFERRED], pending := r.core.pending, log := r.core.log)
  {
    assert |Body(s)| == 2;
    ResponseBlockFits(2);
    var q := QueueHeaders(c, 0, 2);
    assert SetSlot(c, 0, s.(path := SLASH)) == c;
    assert q.ret == NoError && q.core.slots[0] == s.(headersSent := true);
  }

  lemma RequestHandled(c: Core)
    requires c.slots == EmptyTable() && c.lastStreamId == 0 && c.initialWindow == 0 && |c.pending| <= 100
    requires !c.block.open && c.maxFrameSize == DEFAULT_MAX_FRAME_SIZE
    ensures var r := HandleFrame(c, HeaderOf(REQUEST), REQUEST.payload);
            r.ret == NoError && |r.core.pending| <= |c.pending| + WIRE_CAP
            && r.core == c.(slots := c.slots[0 := DEFERRED], lastStreamId := 1, pending := r.core.pending, log := r.core.log)
  {
    var d := Note(c, In(HeaderOf(REQUEST), REQUEST.payload));
    SlashScanned();
    RequestFinished(d);
    WholeHandled(c, REQUEST, [0x84]);
  }

  /** Nothing has been requested, and new streams start without credit. */
  predicate Waitless(c: Core) {
    && c.slots == EmptyTable() && c.lastStreamId == 0 && c.initialWindow == 0 && c.sendWindow == DEFAULT_WINDOW
    && |c.pending| <= 100 && !c.block.open && c.maxFrameSize == DEFAULT_MAX_FRAME_SIZE
  }

  /** One response waits for credit of its own. */
  predicate OneWaits(c: Core) {
    && c.slots == EmptyTable()[0 := DEFERRED] && c.initialWindow == 0 && c.sendWindow == DEFAULT_WINDOW
    && |c.pending| <= 100 + WIRE_CAP && !c.block.open && c.maxFrameSize == DEFAULT_MAX_FRAME_SIZE
  }

  lemma WindowZeroed() returns (ops: seq<Op>)
    ensures Idling(Run(ops)) && Waitless(Run(ops).conn.core)
  {
    var f := InitialWindowFrame(0);
    PrefaceFed();
    WindowMoved(Greeted(), 0);
    FrameFed([Receive(PREFACE)], f);
    ops := [Receive(PREFACE)] + [Receive(Wire(f))];
  }

  lemma RequestTaken(ops: seq<Op>) returns (more: seq<Op>)
    requires Idling(Run(ops)) && Waitless(Run(ops).conn.core)
    ensures Idling(Run(more)) && OneWaits(Run(more).conn.core)
  {
    RequestHandled(Run(ops).conn.core);
    FrameFed(ops, REQUEST);
    more := ops + [Receive(Wire(REQUEST))];
  }

  /** On an all-OK run, SETTINGS leave behind a response that both windows could carry. */
  lemma ResponseStranded() returns (ops: seq<Op>)
    ensures Run(ops).allOk && !AllStuck(Run(ops).conn.core)
  {
    var f := InitialWindowFrame(DEFAULT_WINDOW);
    ops := WindowZeroed();
    ops := RequestTaken(ops);
    WindowMoved(Run(ops).conn.core, DEFAULT_WINDOW);
    FrameFed(ops, f);
    ops := ops + [Receive(Wire(f))];
    var d := Run(ops).conn.core;
    assert d.slots[0] == DEFERRED.(sendWindow := DEFAULT_WINDOW);
    assert |Body(d.slots[0])| == 2 && !Stuck(d, d.slots[0]);
  }

  // ------------------------------------------------------------------ a block

  const LETTER: seq<byte> := [0x61]
  const HUFFMAN_VALUE: seq<byte> := [0x81, 0x2f]
  const HUFFMAN_FIELD: seq<byte> := [0, 1, 0x61, 0x81, 0x2f]

  /** A literal field "a" whose value has the Huffman bit set, behind the path. */
  const HUFFMAN_BEHIND_PATH: seq<byte> := [0x84, 0, 1, 0x61, 0x81, 0x2f]

  lemma LetterCode()
    ensures StringCode(LETTER) == [1, 0x61]
  {
    Powers();
    assert OrByte(0, 1) == 1 by {
      assert BitOr(0, 1, 8) == 1;
    }
  }

  lemma HuffmanSkipped()
    ensures SkipString(HUFFMAN_VALUE, VALUE_CAP) == Ok(2) && DecodeString(HUFFMAN_VALUE, VALUE_CAP) == Err(CompressionError)
  {
    Powers();
    assert Mask(0x81, 7) == 1;
  }

  lemma HuffmanField()
    ensures ReadItem(HUFFMAN_FIELD) == Ok(Literal(LETTER, 3)) && HUFFMAN_FIELD[3..] == HUFFMAN_VALUE
  {
    LetterCode();
    ZeroIndex();
    NewNameHead(Plain, LETTER, HUFFMAN_VALUE);
    assert [0] + StringCode(LETTER) + HUFFMAN_VALUE == HUFFMAN_FIELD;
    assert NulFree(LETTER);
    CutIsIdentity(LETTER);
  }

  lemma HuffmanFieldTaken(path: seq<byte>)
    ensures ScanPiece(HUFFMAN_FIELD, path, VALUE_CAP) == Ok((path, 5)) && HuffmanAhead(HUFFMAN_FIELD)
    ensures DecodePiece(HUFFMAN_FIELD) == Err(CompressionError)
  {
    HuffmanField();
    HuffmanSkipped();
    assert |LETTER| != |PATH|;
  }

  lemma PathTaken(w: seq<byte>, path: seq<byte>)
    requires w == [0x84] + HUFFMAN_FIELD
    ensures ScanPiece(w, path, VALUE_CAP) == Ok((SLASH, 1)) && DecodePiece(w) == Ok(Piece(Some(Field(PATH, SLASH)), 1))
    ensures w[1..] == HUFFMAN_FIELD && !HuffmanAhead(w)
  {
    PathIndex();
    Row4();
    StaticItem(4, HUFFMAN_FIELD);
  }

  /** The scan takes the block and finds its path; the decoder refuses it, whatever its room. */
  lemma ScanTakesMore(fieldCap: nat)
    ensures var w := HUFFMAN_BEHIND_PATH;
            && ExtractPath(w, VALUE_CAP) == PathScan(NoError, SLASH) && SkipsHuffman(w)
            && DecodeFrom(w, [], fieldCap).Err?
  {
    var w := [0x84] + HUFFMAN_FIELD;
    assert w == HUFFMAN_BEHIND_PATH;
    PathTaken(w, []);
    HuffmanFieldTaken([]);
    HuffmanFieldTaken(SLASH);
    assert HUFFMAN_FIELD[5..] == [];
    assert ExtractFrom(HUFFMAN_FIELD, SLASH, VALUE_CAP) == ExtractFrom([], SLASH, VALUE_CAP);
    assert SkipsHuffman(HUFFMAN_FIELD);
    var f := Field(PATH, SLASH);
    assert fieldCap > 0 ==> DecodeFrom(w, [], fieldCap) == DecodeFrom(HUFFMAN_FIELD, [] + [f], fieldCap);
  }
}
