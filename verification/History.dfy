/** What an observer of the events can compute: windows, responses, acknowledgements, all from the log. */
module History {
  import opened Bytes
  import opened FrameCodec
  import opened HpackStatic
  import opened Streams
  import opened ConnectionSpec

  type Log = seq<Event>

  function Past(log: Log): Log
    requires log != []
  {
    log[..|log| - 1]
  }

  function Last(log: Log): Event
    requires log != []
  {
    log[|log| - 1]
  }

  // --------------------------------------------------------------- one event

  predicate Sends(e: Event, kind: byte, id: u32) {
    e.Out? && e.frame.kind == kind && e.frame.streamId == id
  }

  predicate Takes(e: Event, kind: byte, id: u32) {
    e.In? && e.header.kind == kind && e.header.streamId == id
  }

  /** The increment a received WINDOW_UPDATE carries. */
  function IncrementIn(e: Event): nat
    requires e.In?
  {
    if |e.payload| == 4 then Read31(e.payload) else 0
  }

  function IncrementOut(e: Event): nat
    requires e.Out?
  {
    if |e.frame.payload| == 4 then Read31(e.frame.payload) else 0
  }

  // ----------------------------------------------------------------- windows

  /** The connection's send window: 65535, plus what the peer granted, less the DATA sent. */
  function ConnSend(log: Log): int {
    if log == [] then DEFAULT_WINDOW
    else
      var e := Last(log);
      if Takes(e, WINDOW_UPDATE, 0) then ConnSend(Past(log)) + IncrementIn(e)
      else if e.Out? && e.frame.kind == DATA then ConnSend(Past(log)) - |e.frame.payload|
      else ConnSend(Past(log))
  }

  /** The connection's receive window: 65535, plus what the server granted, less the DATA received. */
  function ConnRecv(log: Log): int {
    if log == [] then DEFAULT_WINDOW
    else
      var e := Last(log);
      if Sends(e, WINDOW_UPDATE, 0) then ConnRecv(Past(log)) + IncrementOut(e)
      else if e.In? && e.header.kind == DATA then ConnRecv(Past(log)) - e.header.length
      else ConnRecv(Past(log))
  }

  /** A stream's send credit since it opened, over the initial window. */
  function SendCredit(log: Log, id: u32): int {
    if log == [] then 0
    else
      var e := Last(log);
      if e.Opened? && e.id == id then 0
      else if Takes(e, WINDOW_UPDATE, id) then SendCredit(Past(log), id) + IncrementIn(e)
      else if Sends(e, DATA, id) then SendCredit(Past(log), id) - |e.frame.payload|
      else SendCredit(Past(log), id)
  }

  function RecvCredit(log: Log, id: u32): int {
    if log == [] then 0
    else
      var e := Last(log);
      if e.Opened? && e.id == id then 0
      else if Sends(e, WINDOW_UPDATE, id) then RecvCredit(Past(log), id) + IncrementOut(e)
      else if Takes(e, DATA, id) then RecvCredit(Past(log), id) - e.header.length
      else RecvCredit(Past(log), id)
  }

  /** The last initial window size a list of settings asks for. */
  function LastInitial(items: seq<Setting>, current: int): int
    decreases |items|
  {
    if items == [] then current
    else LastInitial(items[1..], if items[0].id == INITIAL_WINDOW_SIZE then items[0].value else current)
  }

  function InitialIn(e: Event, current: int): int {
    if e.In? && e.header.kind == SETTINGS && !HasAck(e.header.flags) && |e.payload| % 6 == 0
    then LastInitial(SettingsIn(e.payload), current) else current
  }

  /** The peer's SETTINGS_INITIAL_WINDOW_SIZE in force. */
  function InitialWindow(log: Log): int {
    if log == [] then DEFAULT_WINDOW else InitialIn(Last(log), InitialWindow(Past(log)))
  }

  /** Section 6.9 of RFC 7540: DATA never exceeds a window, in either direction. */
  predicate Affordable(log: Log, e: Event) {
    && (e.Out? && e.frame.kind == DATA
        ==> && |e.frame.payload| <= ConnSend(log)
            && |e.frame.payload| <= InitialWindow(log) + SendCredit(log, e.frame.streamId))
    && (e.In? && e.header.kind == DATA ==> e.header.length <= ConnRecv(log))
  }

  ghost predicate FlowRespected(log: Log) {
    log == [] || (FlowRespected(Past(log)) && Affordable(Past(log), Last(log)))
  }

  lemma {:induction false} FlowRespectedAt(log: Log, k: nat)
    requires FlowRespected(log) && k < |log|
    ensures Affordable(log[..k], log[k])
  {
    if k < |log| - 1 {
      FlowRespectedAt(Past(log), k);
      assert Past(log)[..k] == log[..k];
    }
  }

  // --------------------------------------------------------------- responses

  predicate Answers(e: Event, id: u32) {
    Sends(e, HEADERS, id) || Sends(e, DATA, id)
  }

  /** How many response frames a stream has been sent. */
  function Answered(log: Log, id: u32): nat {
    if log == [] then 0 else Answered(Past(log), id) + if Answers(Last(log), id) then 1 else 0
  }

  /** How many frames that keep a stream busy: its response and its window updates. */
  function Talk(log: Log, id: u32): nat {
    if log == [] then 0
    else Talk(Past(log), id) + if Answers(Last(log), id) || Sends(Last(log), WINDOW_UPDATE, id) then 1 else 0
  }

  /** The path a stream asked for when it was opened. */
  function PathOf(log: Log, id: u32): seq<byte> {
    if log == [] then []
    else if Last(log).Opened? && Last(log).id == id then Last(log).path
    else PathOf(Past(log), id)
  }

  /** The id opened last. */
  function LastOpened(log: Log): u32 {
    if log == [] then 0 else if Last(log).Opened? then Last(log).id else LastOpened(Past(log))
  }

  function HeadersOf(id: u32, length: nat): Frame
    requires length < BODY_CAP
  {
    Frame(HEADERS, FLAG_END_HEADERS, id, ResponseBlock(length))
  }

  function DataOf(id: u32, body: seq<byte>): Frame {
    Frame(DATA, FLAG_END_STREAM, id, body)
  }

  function BodyFor(path: seq<byte>): seq<byte> {
    PathOrSlash(path) + NEWLINE
  }

  /** Frame `n` of the response to a request for `path`: HEADERS, then DATA with END_STREAM. */
  function ResponseFrame(id: u32, path: seq<byte>, n: nat): Frame
    requires |path| < VALUE_CAP
  {
    if n == 0 then HeadersOf(id, |BodyFor(path)|) else DataOf(id, BodyFor(path))
  }

  // ------------------------------------------------------------------ output

  /** A frame the server may send: it validates, and nothing of it is lost in encoding. */
  predicate Sendable(f: Frame) {
    Encodable(f) && f.streamId < U31_SPAN && Validate(HeaderOf(f)) == NoError
  }

  function Goaways(log: Log): nat {
    if log == [] then 0
    else Goaways(Past(log)) + if Last(log).Out? && Last(log).frame.kind == GOAWAY then 1 else 0
  }

  /** All octets ever queued. */
  function Wires(log: Log): seq<byte> {
    if log == [] then []
    else if Last(log).Out? && Encodable(Last(log).frame) then Wires(Past(log)) + Wire(Last(log).frame)
    else Wires(Past(log))
  }

  function OutCount(log: Log): nat {
    if log == [] then 0 else OutCount(Past(log)) + if Last(log).Out? then 1 else 0
  }

  function FirstOut(log: Log): Option<Frame> {
    if log == [] then None
    else if FirstOut(Past(log)).Some? then FirstOut(Past(log))
    else if Last(log).Out? then Some(Last(log).frame) else None
  }

  /** The next frame a stream's response calls for. */
  ghost predicate IsNext(log: Log, id: u32, f: Frame) {
    && |PathOf(log, id)| < VALUE_CAP
    && Answered(log, id) < 2
    && f == ResponseFrame(id, PathOf(log, id), Answered(log, id))
  }

  /** The frame grants more than half a window. */
  predicate LargeGrant(f: Frame) {
    |f.payload| == 4 && DEFAULT_WINDOW / 2 < Read31(f.payload) <= DEFAULT_WINDOW
  }

  /** What may happen after `log`: valid frames only, responses in order, one GOAWAY, large grants, ids ever
      higher. */
  ghost predicate Allowed(log: Log, e: Event) {
    match e
    case In(_, _) => true
    case Opened(id, path) => LastOpened(log) < id && id % 2 == 1 && |path| < VALUE_CAP && Answered(log, id) == 0
    case Out(f) =>
      && Sendable(f)
      && (f.kind == HEADERS || f.kind == DATA ==> IsNext(log, f.streamId, f))
      && (f.kind == GOAWAY ==> Goaways(log) == 0)
      && (f.kind == WINDOW_UPDATE ==> LargeGrant(f))
  }

  ghost predicate Lawful(log: Log) {
    log == [] || (Lawful(Past(log)) && Allowed(Past(log), Last(log)))
  }

  // -------------------------------------------------------- acknowledgements

  predicate IsAck(f: Frame) {
    HasAck(f.flags) && (f.kind == SETTINGS || f.kind == PING)
  }

  predicate Indebts(e: Event) {
    e.In? && (e.header.kind == SETTINGS || e.header.kind == PING) && !HasAck(e.header.flags)
  }

  function AckOf(h: FrameHeader, payload: seq<byte>): Frame {
    Frame(h.kind, FLAG_ACK, 0, if h.kind == PING then payload else [])
  }

  /** The acknowledgement still owed. */
  function Debt(log: Log): Option<Frame> {
    if log == [] then None
    else if Indebts(Last(log)) then Some(AckOf(Last(log).header, Last(log).payload))
    else if Last(log).Out? && IsAck(Last(log).frame) then None
    else Debt(Past(log))
  }

  /** Every acknowledgement settles the one debt there is, and no debt is run up on another. */
  ghost predicate Punctual(log: Log) {
    log == [] ||
    (&& Punctual(Past(log))
     && (Indebts(Last(log)) ==> Debt(Past(log)) == None)
     && (Last(log).Out? && IsAck(Last(log).frame) ==> Debt(Past(log)) == Some(Last(log).frame)))
  }
}
