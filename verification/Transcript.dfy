/** A whole exchange, octet for octet: the client's preface, SETTINGS and one request, and what the server sends. */
module Transcript {
  import opened Bytes
  import opened FrameCodec
  import opened HpackInteger
  import opened HpackStatic
  import opened HpackSpec
  import opened HpackTheorems
  import opened Streams
  import opened ConnectionSpec
  import opened History
  import opened GoodSteps
  import opened GoodRuns
  import opened LedgerRuns
  import opened Fragmentation
  import opened Connections
  import opened Witnesses

  // -------------------------------------------------------------------- octets

  /** A short frame's octets: three of length, kind, flags, four of stream id, payload. */
  lemma ShortWire(f: Frame)
    requires |f.payload| < 256 && f.streamId < 256
    ensures Wire(f) == [0, 0, |f.payload|, f.kind, f.flags, 0, 0, 0, f.streamId] + f.payload
  {
    assert f.streamId % U31_SPAN == f.streamId;
    assert Be32(f.streamId) == [0, 0, 0, f.streamId];
  }

  /** A short string's code is its length and its text. */
  lemma ShortString(text: seq<byte>)
    requires |text| < 127
    ensures StringCode(text) == [|text| as byte] + text
  {
    Powers();
    ZeroMask(7);
    HighBitsStay(7, 0, |text|);
  }

  lemma StatusIndex()
    ensures IndexedCode(8) == [0x88]
  {
    Powers();
    HighBits();
    HighBitsStay(7, 0x80, 8);
  }

  function Literal(name: string, value: string): seq<byte>
    requires |name| < 127 && |value| < 127
  {
    [0, |name|] + Ascii(name) + [|value| as byte] + Ascii(value)
  }

  lemma LiteralOctets(name: string, value: string)
    requires |name| < 127 && |value| < 127
    ensures LiteralCode(Ascii(name), Ascii(value)) == Literal(name, value)
  {
    ShortString(Ascii(name));
    ShortString(Ascii(value));
  }

  lemma TwoIs()
    ensures Decimal(2) == Ascii("2")
  {
    assert "2"[0] as int % 256 == 50;
  }

  /** The header block of a response of two octets: status 200 as row 8 of the static table, three literals. */
  function BlockOctets(): seq<byte> {
    [0x88] + Literal("content-type", "text/plain") + Literal("content-length", "2") + Literal("server", "c11-h2")
  }

  lemma BlockIs()
    ensures ResponseBlock(2) == BlockOctets() && |BlockOctets()| == 59
  {
    StatusIndex();
    TwoIs();
    LiteralOctets("content-type", "text/plain");
    LiteralOctets("content-length", "2");
    LiteralOctets("server", "c11-h2");
  }

  // ------------------------------------------------------------------ the frames

  const EMPTY_SETTINGS := Frame(SETTINGS, 0, 0, [])

  lemma SettingsTaken(c: Core)
    requires !c.block.open && c.maxFrameSize >= 0 && |c.pending| <= 100
    ensures var r := HandleFrame(c, HeaderOf(EMPTY_SETTINGS), EMPTY_SETTINGS.payload);
            r.ret == NoError && r.core == c.(pending := c.pending + Wire(SETTINGS_ACK), log := r.core.log)
  {
    var e := Note(c, In(HeaderOf(EMPTY_SETTINGS), []));
    assert SettingsIn([]) == [];
    ApplyListIs(e, [], ApplyAll(e, []));
    assert ProcessFrame(e, HeaderOf(EMPTY_SETTINGS), []) == ApplySettings(e, false, Ok([]));
  }

  lemma Answered(c: Core, s: Slot)
    requires c.slots != [] && c.slots[0] == s && |c.pending| <= 100 && c.sendWindow == DEFAULT_WINDOW
    requires s == Init(1, DEFAULT_WINDOW).(path := SLASH, state := HalfClosedRemote)
    ensures var r := QueueResponse(c, 0);
            r.ret == NoError && r.core.pending == c.pending + Wire(HeadersOf(1, 2)) + Wire(DataOf(1, [47, 10]))
  {
    assert Body(s) == [47, 10];
    ResponseBlockFits(2);
    var q := QueueHeaders(c, 0, 2);
    assert SetSlot(c, 0, s.(path := SLASH)) == c;
    assert q.ret == NoError && q.core.slots[0] == s.(headersSent := true) && q.core.pending == c.pending + Wire(HeadersOf(1, 2));
    assert DataFrame(1, FLAG_END_STREAM, [47, 10]) == Some(DataOf(1, [47, 10]));
  }

  lemma RequestAnswered(c: Core)
    requires c.slots == EmptyTable() && c.lastStreamId == 0 && c.initialWindow == DEFAULT_WINDOW == c.sendWindow
    requires |c.pending| <= 100 && !c.block.open && c.maxFrameSize == DEFAULT_MAX_FRAME_SIZE
    ensures var r := HandleFrame(c, HeaderOf(REQUEST), REQUEST.payload);
            r.ret == NoError && r.core.pending == c.pending + Wire(HeadersOf(1, 2)) + Wire(DataOf(1, [47, 10]))
  {
    var d := Note(c, In(HeaderOf(REQUEST), REQUEST.payload));
    SlashScanned();
    RequestEntered(d);
    WholeHandled(c, REQUEST, [0x84]);
  }

  lemma RequestEntered(c: Core)
    requires c.slots == EmptyTable() && c.lastStreamId == 0 && c.initialWindow == DEFAULT_WINDOW == c.sendWindow
    requires |c.pending| <= 100
    ensures var r := FinishHeaders(c, 1, true, PathScan(NoError, SLASH));
            r.ret == NoError && r.core.pending == c.pending + Wire(HeadersOf(1, 2)) + Wire(DataOf(1, [47, 10]))
  {
    FindIsFirst(c.slots, 1, 0);
    assert FreeFrom(c.slots, 0) == Some(0);
    var g := SetSlot(c, 0, Init(1, DEFAULT_WINDOW));
    assert GetStream(c, 1) == Got(g, Some(0));
    var e := Note(g.(lastStreamId := 1), Opened(1, SLASH));
    var s := Init(1, DEFAULT_WINDOW).(path := SLASH, state := HalfClosedRemote);
    var entered := SetSlot(e, 0, s);
    assert OpenStream(e, 0, true, PathScan(NoError, SLASH)) == QueueResponse(entered, 0);
    Answered(entered, s);
  }

  // ------------------------------------------------------------------ the exchange

  const SETTINGS_OCTETS: seq<byte> := [0, 0, 0, 4, 0, 0, 0, 0, 0]
  const REQUEST_OCTETS: seq<byte> := [0, 0, 1, 1, 5, 0, 0, 0, 1, 0x84]

  const HELLO_OCTETS: seq<byte> := [0, 0, 6, 4, 0, 0, 0, 0, 0, 0, 2, 0, 0, 0, 0]
  const ACK_OCTETS: seq<byte> := [0, 0, 0, 4, 1, 0, 0, 0, 0]
  const HEADERS_START: seq<byte> := [0, 0, 59, 1, 4, 0, 0, 0, 1]
  const DATA_OCTETS: seq<byte> := [0, 0, 2, 0, 1, 0, 0, 0, 1, 47, 10]

  lemma InputIs()
    ensures Wire(EMPTY_SETTINGS) == SETTINGS_OCTETS && Wire(REQUEST) == REQUEST_OCTETS
  {
    ShortWire(EMPTY_SETTINGS);
    ShortWire(REQUEST);
  }

  lemma HelloIs()
    ensures Wire(HELLO) == HELLO_OCTETS && Wire(SETTINGS_ACK) == ACK_OCTETS
  {
    assert SettingsBytes([Setting(ENABLE_PUSH, 0)]) == [0, 2, 0, 0, 0, 0] by {
      assert SettingsBytes([]) == [];
    }
    ShortWire(HELLO);
    ShortWire(SETTINGS_ACK);
  }

  lemma ResponseIs()
    ensures Wire(HeadersOf(1, 2)) == HEADERS_START + BlockOctets() && Wire(DataOf(1, [47, 10])) == DATA_OCTETS
  {
    BlockIs();
    ShortWire(HeadersOf(1, 2));
    ShortWire(DataOf(1, [47, 10]));
  }

  const OPENING: seq<Op> := [Receive(PREFACE), Receive(SETTINGS_OCTETS)]

  lemma AfterSettings()
    ensures var o := Run(OPENING);
            && Idling(o) && o.conn.core.slots == EmptyTable() && o.conn.core.lastStreamId == 0
            && o.conn.core.initialWindow == DEFAULT_WINDOW == o.conn.core.sendWindow
            && !o.conn.core.block.open && o.conn.core.maxFrameSize == DEFAULT_MAX_FRAME_SIZE
            && o.conn.core.pending == HELLO_OCTETS + ACK_OCTETS
  {
    InputIs();
    HelloIs();
    PrefaceFed();
    SettingsTaken(Greeted());
    FrameFed([Receive(PREFACE)], EMPTY_SETTINGS);
    assert [Receive(PREFACE)] + [Receive(SETTINGS_OCTETS)] == OPENING;
  }

  /** The preface, an empty SETTINGS and GET / on stream 1, each fed on its own, leave exactly these octets to be
      sent: SETTINGS, its acknowledgement, the response headers and "/\n" with END_STREAM. */
  lemma OneExchange()
    ensures var o := Run(OPENING + [Receive(REQUEST_OCTETS)]);
            o.allOk && o.conn.core.pending == HELLO_OCTETS + ACK_OCTETS + (HEADERS_START + BlockOctets()) + DATA_OCTETS
  {
    AfterSettings();
    InputIs();
    ResponseIs();
    RequestAnswered(Run(OPENING).conn.core);
    FrameFed(OPENING, REQUEST);
  }
}
