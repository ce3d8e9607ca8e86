# A model of the sans-I/O HTTP/2 server, its io_uring poll protocol and the headless CRC

The repository's HTTP/2 server is an engine that is fed octets and leaves octets to be sent. This project
models that engine in Dafny, from bits to whole connections, and proves what it promises a peer. Two smaller
protocols beside it are modelled the same way: the io_uring completion protocol behind the event loop, and the
CRC-32 that the headless game build chains over all rendered frames.

## How it is built

Code that changes fields, buffers and tables in place is modelled by classes and methods with loops
(`Streams.Stream`, `Connections.Connection`, `Urings.Uring`, `Crc32.Headless`, the encoders and decoders of
`Hpack` and `HpackInteger`, the writers of `FrameCodec`). Each method is proved equal to a function on the
abstract state; the theorems are about those functions and the runs they generate, and `Server.Serve` and
`PollLoop.Poll` carry them over to the objects.

| files | what they hold |
|---|---|
| `Bytes`, `FrameCodec`, `FrameRoundTrips` | C integer types, the frame layout of sections 4.1 and 6 of RFC 7540, round trips and exact layouts |
| `HpackInteger`, `HpackStatic`, `HpackSpec`, `Hpack`, `HpackTheorems` | the HPACK subset of RFC 7541: integers with their 32-bit bound, strings, field lists, and the fused path scan against the plain decoder |
| `Streams`, `ConnectionSpec`, `Connections`, `Server` | the stream slot, the connection engine as functions on its state, and the object that refines them |
| `Chunking`, `Fragmentation`, `Futures` | the cut of the byte stream, and of a header block into frames, does not matter, then or later |
| `History`, `Invariants`, `GoodSteps`, `GoodResponses`, `GoodRuns` | the log of frames taken and queued, and the invariant of every run, failed ones included |
| `Ledger`, `LedgerSteps`, `LedgerRuns` | the accounts that balance on runs in which every feed succeeds |
| `Traces`, `Content`, `Telling`, `RunTheorems`, `Flushing`, `Requests` | the guarantees over whole runs, and what a flush achieves |
| `Admission`, `Resets`, `Lifecycle`, `Farewells` | which frames are accepted and which streams opened, what RST_STREAM from the peer ends, how long a stream lives, and what the connection says when something fails |
| `Witnesses`, `Transcript` | concrete runs and blocks on which the code departs from a simpler story, and one exchange octet for octet |
| `UringSpec`, `UringOrder`, `UringSafety`, `UringRuns`, `UringAge`, `UringReach`, `UringArming`, `Urings`, `PollLoop` | the poll protocol as a state machine with the kernel as its environment, its order and safety theorems, their exact limits and runs that reach them, what it submits told from the calls alone, and the object with its wrapping rings |
| `Crc32`, `CrcRemainder` | the bit loop, its chaining, linearity, injectivity and burst detection, and the polynomial division it carries out |

Conventions. A run is a list of operations: octets received, cut anywhere, and amounts of output sent. A run is
all-OK when every feed returned `H2_OK`. State marked as history (`log`, `drained`, `taken`, `posted`, stamps,
epochs, `shown`) is kept only to state theorems and never decides a branch. C strings are given by their characters
before the first NUL. Sizes compared as `size_t` go through `AsSize`. `ConnectionSpec.Core.pending` is the
output between `output_sent` and `output_len`.

Where the code departs from what its documentation or the RFC suggests, the model follows the code, shows it on a
concrete run or input, and says exactly when it happens:

* after a connection error the frame in question stays at the head of the input and is taken up again by the
  next feed, and SETTINGS may have been applied in part: `Flushing.RefusedSettings` says how much of a refused
  list stays in force, and `Witnesses.AccountsAfterError` is a run whose accounts no longer balance. Exact
  conservation is therefore stated for all-OK runs, and the output discipline for all runs;
* SETTINGS do not flush deferred responses: `Flushing.SettingsStrandIff` says for every accepted SETTINGS whether a
  response is left behind that could be sent, `Witnesses.ResponseStranded` is an all-OK run that leaves one, and by
  `Flushing.FramesKeepStuck` and `Requests.NothingSendableWaits` nothing but a raised initial window ever does;
* the path scan skips values without looking at their Huffman bit: `HpackTheorems.DecoderAcceptsIff` says exactly
  which blocks the plain decoder accepts of those the scan accepts, and `Witnesses.ScanTakesMore` is a block on
  which they differ;
* a cancel drain that runs out of room repeats completions: `UringOrder.DrainEnds` gives all three outcomes of a
  drain by where the answer stands in the queue, and `UringReach.NoRoomReached` is a run that ends in the bad one;
* a completion whose age is a multiple of 2^30 registrations passes for a current one (`UringAge.ReportedIff`).
  The age bound of the safety theorems is exact: `UringAge.UntimelyIsStale` turns every registration that breaks it
  into a stale event, and `UringReach.StaleEventReached` is a run that gets there.

## Model

| member | source | states |
|---|---|---|
| Chunking.ChunkingIndependence | phase1/http2/src/connection.c:576-641 | any two ways of cutting the same octets into feeds, up to the first failing one, give the same result code, windows, stream table, flags and output, and the same unread input unless they fail |
| Chunking.FeedSplit | phase1/http2/src/connection.c:576-641 | feeding two pieces in turn is feeding them at once wherever the cut falls: preface, frame header or payload; after an error the second piece only waits behind |
| Chunking.DrainMore | phase1/http2/src/connection.c:608-640 | the frame loop over more input is the loop over less, continued with the rest |
| RunTheorems.OutputDiscipline | phase1/http2/src/connection.c:207-334 | over every run, errors included, a stream id gets at most one HEADERS and then at most one DATA, which carries END_STREAM; even ids and ids never opened get nothing |
| RunTheorems.ClosedStreamsStaySilent | phase1/http2/src/connection.c:207-334 | once an opened stream has no live slot, no later step of any run queues HEADERS, DATA or WINDOW_UPDATE for it, whatever its old slot is used for |
| RunTheorems.BodyAgreesWithHeaders | phase1/http2/src/connection.c:228-290 | every response header block decodes to :status 200, content-type, content-length, server; the decimal content-length is the length of the DATA later sent, which is the requested path and a newline, however long it was deferred |
| RunTheorems.OutputFraming | phase1/http2/src/connection.c:9-103 | what the caller has written, the first n octets offered before each report of n sent, followed by the octets pending, is the exact serialisation of frames that all validate, under any partial writes; they start with SETTINGS or are a lone GOAWAY, and hold at most one GOAWAY |
| RunTheorems.WrittenIsDrained | phase1/http2/src/connection.c:664-677 | feeds take nothing off the output, and each report of n octets sent takes off exactly the first n of those offered, or all |
| Resets.RstStreamIff | phase1/http2/src/connection.c:507-536 | RST_STREAM is accepted exactly when it is four octets long, not amid a header block and for a stream the peer has opened; it closes that stream's slot and leaves every other slot, all windows and the output alone |
| Resets.ResetStreamsStaySilent | phase1/http2/src/connection.c:515-520 | once a feed has taken RST_STREAM and succeeded, no HEADERS, DATA or WINDOW_UPDATE is ever queued for that stream again, in any later course, failures included |
| Lifecycle.StreamsLive | phase1/http2/src/stream.c:15-77 | on all-OK runs a stream that was opened is in the table until either side resets it, or the peer has sent END_STREAM and both frames of the response are out: no longer, and no less |
| Lifecycle.TakesDataUntilEnd | phase1/http2/src/stream.c:29-61 | on all-OK runs a slot in use takes DATA exactly until the peer has sent END_STREAM, on its HEADERS or on DATA |
| Farewells.FailingFeedSaysGoaway | phase1/http2/src/connection.c:623-637 | unless one was sent before, a feed that fails leaves GOAWAY as the last frame queued; it parses to the stream opened last and to the number, by section 7 of RFC 7540, of the code the feed returned; only an output without room for it keeps it back |
| Farewells.GoawayMeansError | phase1/http2/src/connection.c:37-52 | on all-OK runs no GOAWAY is ever queued |
| Farewells.FrameErrorTells | phase1/http2/src/connection.c:623-637 | the same frame by frame: a frame that fails the connection is answered by that GOAWAY |
| Farewells.StreamErrorTells | phase1/http2/src/connection.c:464-478 | a stream error queues RST_STREAM for its stream that parses to the error's number, closes every slot of the stream and lets the connection go on, or, without room for the frame, fails and changes nothing |
| Farewells.NumberIsListed | phase1/http2/include/http2/frame.h:13-28 | each error's number is its place in the list of section 7 of RFC 7540 |
| Admission.FramesAreAdmissible | phase1/http2/src/connection.c:480-494 | on all-OK runs every frame received is valid, no PUSH_PROMISE and within the frame size the peer's SETTINGS last asked for, and between HEADERS without END_HEADERS and the CONTINUATION with it there is nothing but CONTINUATION of that stream, and nowhere else any |
| Admission.SettingsVerdict | phase1/http2/src/connection.c:172-203 | a list of settings is applied up to the first with a forbidden value or an initial window that, from where the windows stood before the list, would take a live stream's out of 32 bits; that one decides the error |
| Admission.SettingsAcceptedIff | phase1/http2/src/connection.c:158-205 | the exact condition under which a SETTINGS frame is accepted |
| Admission.InertIff | phase1/http2/src/connection.c:496-565 | PRIORITY, GOAWAY, acknowledgements and unknown kinds: when they are accepted, and that they leave everything as it was |
| Admission.RequestOpensIff | phase1/http2/src/connection.c:117-133 | a proper request opens its stream exactly when some slot is unused or closed; with 128 live streams none is opened |
| Admission.RequestVerdict | phase1/http2/src/connection.c:309-334 | what becomes of a proper request: with a full table or a header too long to keep a stream error, with any other error of its header block that error of the connection, else a response if there is room |
| Admission.OverflowIff | phase1/http2/src/connection.c:428-457 | WINDOW_UPDATE is a flow control error exactly when the window it credits would exceed 2^31-1, and for a stream without a slot changes nothing |
| Admission.DataRefusedIff | phase1/http2/src/connection.c:394-426 | DATA is a flow control error exactly when it is longer than the connection's window or, while the stream takes DATA, than its own; for an unknown stream it is a protocol error |
| Requests.ResponsesAreCounted | phase1/http2/src/connection.c:224 | after any run, failures included, responses_sent is the number of DATA frames ever queued, in 32 bits |
| Transcript.OneExchange | phase1/http2/src/connection.c:576-641 | preface, empty SETTINGS and one GET leave exactly these octets to be sent: SETTINGS, acknowledgement, response headers, body |
| RunTheorems.OpenedIdsRise | phase1/http2/src/connection.c:309-334 | opened ids are odd and strictly increase over every run despite slot reuse, and none exceeds last_stream_id |
| RunTheorems.TableOnEveryRun | phase1/http2/src/connection.c:105-133 | on every run slots in use hold distinct odd ids up to last_stream_id, and their flags agree with their state and with the number of response frames actually sent |
| RunTheorems.TableIsSettled | phase1/http2/src/connection.c:309-334 | on all-OK runs no slot in use is idle, a slot is open or half closed (remote) exactly when its body is deferred behind sent headers, and half closed (local) exactly when its response was sent |
| RunTheorems.SendWindowConservation | phase1/http2/src/connection.c:158-226 | on all-OK runs the connection's send window is 65535 plus stream-0 increments less DATA queued, and each live stream's is the current initial window plus its increments less its DATA, through every SETTINGS change |
| RunTheorems.ReceiveWindowConservation | phase1/http2/src/connection.c:135-156 | on all-OK runs the connection's and every live stream's receive window is 65535 plus increments granted less DATA received, padding included, and lies in 32768..65535 between feeds |
| RunTheorems.GrantsAreLarge | phase1/http2/src/connection.c:135-156 | over every run each WINDOW_UPDATE sent grants 32768 to 65535 octets: no window is topped up before it is half used |
| RunTheorems.FlowControlRespected | phase1/http2/src/connection.c:207-226 | on all-OK runs every DATA queued fitted both send windows as a peer would count them from the frames alone, and every DATA received fitted the connection's receive window |
| RunTheorems.StreamWindowRespected | phase1/http2/src/stream.c:41-61 | DATA that a stream still takes fits the stream's own receive window as the peer counts it |
| RunTheorems.AcknowledgementsMatch | phase1/http2/src/connection.c:480-565 | on all-OK runs the SETTINGS and PING acknowledgements sent are, one for one, in order and with equal opaque octets, those owed for the frames received |
| GoodRuns.EveryRun | phase1/http2/src/connection.c:576-641 | the invariant of table, log, output and greeting holds after every run from a fresh connection |
| GoodRuns.HandleFrameGood | phase1/http2/src/connection.c:480-565 | handling any frame, whatever its result, keeps the invariant and says nothing more for streams already closed |
| LedgerRuns.EveryGoodRun | phase1/http2/src/connection.c:576-641 | after every all-OK run all windows, debts and slots are exactly what the log accounts for |
| LedgerSteps.DataOnClosedLeaves | phase1/http2/src/connection.c:394-426 | DATA on a half-closed or closed stream is charged to the connection; when the ignored refresh fails there is no room for the equally long RST_STREAM either, so the feed cannot succeed with unbalanced accounts |
| LedgerRuns.ApplySettingsLeaves | phase1/http2/src/connection.c:158-205 | accepted SETTINGS move every live stream's send window by as much as the initial window moves, leave all accounts balanced and settle the acknowledgement owed |
| Traces.LawfulResponses | phase1/http2/src/connection.c:228-290 | what a stream is sent is a prefix of the one response its path calls for |
| Traces.PunctualAcks | phase1/http2/src/connection.c:158-205 | settling one debt at a time amounts to acknowledging in order, one for one |
| Flushing.WindowUpdateFlushes | phase1/http2/src/connection.c:428-457 | after an accepted WINDOW_UPDATE for the connection or a known stream, every response still deferred is longer than the connection's window or its stream's own |
| Flushing.FlushFromSticks | phase1/http2/src/connection.c:292-307 | the flush pass leaves no visited slot sendable, although earlier slots spend connection window under later ones |
| Flushing.FramesKeepStuck | phase1/http2/src/connection.c:480-565 | no frame the connection survives, short of SETTINGS that raise the initial window, turns a blocked response into one that could be sent; for SETTINGS the exact condition is SettingsStrandIff |
| Flushing.SettingsStrandIff | phase1/http2/src/connection.c:158-205 | every accepted SETTINGS leaves all deferred responses blocked exactly when each is too long for the connection's window, or for its own after the shift of the initial window; otherwise one that could be sent is left waiting |
| Flushing.RefusedSettings | phase1/http2/src/connection.c:172-203 | of a refused list the settings before the refused one stay in force, and of that one only the shift of the streams before the first whose window would leave 32 bits |
| Witnesses.ResponseStranded | phase1/http2/src/connection.c:158-205 | an all-OK run (preface, initial window 0, one request, initial window 65535) ends with a response waiting that both windows could carry |
| Witnesses.AccountsAfterError | phase1/http2/src/connection.c:180-182 | a run (preface, initial window 2^31) after which the window in force is not the one the received frames ask for |
| Requests.NothingSendableWaits | phase1/http2/src/connection.c:292-307 | on all-OK runs whose SETTINGS never raised the initial window, every deferred response is too long for one of its windows |
| Requests.PathsAreRequested | phase1/http2/src/connection.c:309-392 | on all-OK runs a stream is opened under the id of the HEADERS before it, for the path to which the fragments received in that frame and its CONTINUATION frames scan |
| Fragmentation.FragmentationInvariance | phase1/http2/src/connection.c:309-392 | a header block cut over HEADERS and any CONTINUATION frames gives the result, streams, windows and output of one HEADERS frame carrying it whole, errors included, and leaves no block open; END_STREAM counts only on the HEADERS frame |
| Fragmentation.FragmentsFed | phase1/http2/src/connection.c:576-641 | the same for the octets a peer sends |
| Futures.FragmentsForgotten | phase1/http2/src/connection.c:576-641 | after a block taken whole or in fragments, every later feed and write gives the same results and the same output |
| Futures.TwinsStayAlike | phase1/http2/src/connection.c:576-677 | connections that differ only in a finished block and in history answer every course of operations alike |
| Fragmentation.FinishHeadersAgrees | phase1/http2/src/connection.c:309-334 | entering a stream and answering it depends neither on the block buffer nor on history |
| Content.ResponseBlockDecodes | phase1/http2/src/connection.c:256-281 | the response block decodes to exactly four fields, and its content-length denotes the body's length in decimal |
| Content.DecimalDenotes | phase1/http2/src/connection.c:251-254 | the printed digits denote the number they were printed from |
| Server.Serve | phase1/http2/src/server.c:170-217 | after any reads and partial writes the connection object is in the state of that run, with the same record of success |
| Connections.Connection.constructor | phase1/http2/src/connection.c:567-574 | a fresh object represents the initial connection |
| Connections.Connection.CompactOutput | phase1/http2/src/connection.c:9-22 | sliding the output to the front of its buffer changes no pending octet |
| Connections.Connection.QueueBytes | phase1/http2/src/connection.c:24-35 | octets are appended to the pending output, or nothing changes when they do not fit |
| Connections.Connection.QueueGoawayFrame | phase1/http2/src/connection.c:37-52 | one GOAWAY, and none after the first; by Farewells.FailingFeedSaysGoaway it names the stream opened last and the error |
| Connections.Connection.QueueHello | phase1/http2/src/connection.c:54-67 | SETTINGS with ENABLE_PUSH 0 is queued |
| Connections.Connection.QueueWindowUpdate | phase1/http2/src/connection.c:81-91 | a WINDOW_UPDATE is queued, or nothing changes |
| Connections.Connection.FindStream | phase1/http2/src/connection.c:105-115 | the loop returns the first slot that holds the id, if any |
| Connections.Connection.TakeStream | phase1/http2/src/connection.c:117-133 | the stream's own slot, else the first unused or closed one, reinitialised; none when all are live |
| Connections.Connection.RefreshRecvWindows | phase1/http2/src/connection.c:135-156 | windows at half or below are topped up to 65535 and announced, the connection's first |
| Connections.Connection.TakeSettings | phase1/http2/src/connection.c:158-205 | the nested loops apply the settings one by one up to the first refused, shift live send windows slot by slot, and acknowledge at the end |
| Connections.Connection.QueueBody | phase1/http2/src/connection.c:207-226 | the body is deferred when either window is too small, else sent with both windows charged |
| Connections.Connection.Respond | phase1/http2/src/connection.c:228-290 | the response headers are built in a 512-octet buffer that always suffices, sent once, and followed by the body |
| Connections.BuildResponseBlock | phase1/http2/src/connection.c:256-281 | the four encoders in turn leave exactly the response block, or report 0 when the buffer is too small |
| Connections.ResponseBlockFits | phase1/http2/src/connection.c:228-281 | the block for any body the server makes fits 512 octets |
| Connections.Connection.FlushDeferredResponses | phase1/http2/src/connection.c:292-307 | the loop retries every deferred response in slot order up to the first failure |
| Connections.Connection.CompleteHeaders | phase1/http2/src/connection.c:309-334 | ids must be odd and rising; a full table refuses the stream without advancing last_stream_id |
| Connections.Connection.AppendHeaderBlock | phase1/http2/src/connection.c:336-346 | fragments accumulate up to 65536 octets, beyond which is a compression error |
| Connections.Connection.TakeHeaders | phase1/http2/src/connection.c:348-368 | HEADERS either completes a block or opens one |
| Connections.Connection.TakeContinuation | phase1/http2/src/connection.c:370-392 | CONTINUATION extends the open block of its own stream and completes it at END_HEADERS |
| Connections.Connection.TakeData | phase1/http2/src/connection.c:394-426 | DATA is charged to both windows, also where the stream no longer takes any |
| Connections.Connection.TakeWindowUpdate | phase1/http2/src/connection.c:428-457 | credit without overflow, then a flush; unknown streams are ignored |
| Connections.Connection.ResetStreamError | phase1/http2/src/connection.c:464-478 | RST_STREAM is queued and only then the stream closed |
| Connections.Connection.DispatchFrame | phase1/http2/src/connection.c:480-565 | size limit, open-block guard and the switch over frame types, each with the effect that Resets, Admission and Flushing state |
| Connections.Connection.DrainInput | phase1/http2/src/connection.c:608-640 | whole frames are handled and removed from the buffer until one fails or the rest is short |
| Connections.Connection.Receive | phase1/http2/src/connection.c:576-641 | feeding the object is feeding the connection it represents, preface, greeting and frames |
| Connections.Connection.ConsumeOutput | phase1/http2/src/connection.c:664-677 | the octets sent, at most those pending, leave the output; by RunTheorems.WrittenIsDrained just those |
| Connections.Connection.PendingOutput | phase1/http2/src/connection.c:648-662 | what the caller is offered to send is exactly the pending output |
| Connections.Connection.WantsWrite | phase1/http2/src/connection.c:643-646 | output is wanted exactly while some is pending |
| Streams.Stream.Reinit | phase1/http2/src/stream.c:6-13 | a slot starts over idle, with the peer's initial window |
| Streams.Stream.Shut | phase1/http2/src/stream.c:15-27 | closing keeps only the id |
| Streams.Stream.OnHeaders | phase1/http2/src/stream.c:29-39 | HEADERS opens an idle stream, half closed at END_STREAM |
| Streams.Stream.OnData | phase1/http2/src/stream.c:41-61 | DATA is taken only in the states that take it and within the receive window, and END_STREAM moves the stream on |
| Streams.Stream.OnEndStreamSent | phase1/http2/src/stream.c:63-77 | the last DATA half closes an open stream and closes a half-closed one |
| Streams.Stream.Credit | phase1/http2/src/stream.c:79-89 | credit must be positive and keep the window within 31 bits |
| HpackInteger.DecodeIsExact | phase1/http2/src/hpack.c:24-74 | decoding succeeds exactly on integers that end within the wire and within five continuation octets and are at most 2^32-1, for every prefix size, and returns exactly their value |
| HpackInteger.DecodeIntegerLoop | phase1/http2/src/hpack.c:24-74 | the loop with its shift counter and overflow guards computes that value |
| HpackInteger.EncodeInteger | phase1/http2/src/hpack.c:76-106 | the loop writes the code of section 5.1 of RFC 7541, or returns 0 when it does not fit |
| HpackInteger.IntegerRoundTrip | phase1/http2/src/hpack.c:24-106 | for every 32-bit value and high bits clear of the prefix, decoding the code returns the value, uses all of it, and the code has at most six octets |
| HpackTheorems.StringRoundTrip | phase1/http2/src/hpack.c:116-182 | a string of any length decodes to its text up to the first NUL, or is refused when it does not fit the buffer |
| HpackTheorems.FieldListRoundTrip | phase1/http2/src/hpack.c:108-297 | any list of representations of section 6 of RFC 7541 (indexed fields; literals of all three forms, with the name of a row of appendix A or spelled out; size updates) decodes to exactly the fields it stands for, every octet consumed, or is refused with the error of the first that is not allowed: no such row, a string too long, or no room for another field |
| HpackTheorems.PathRoundTrip | phase1/http2/src/hpack.c:307-387 | and scans to the last path among those fields, or to that error |
| HpackTheorems.PathScanRefinesDecoder | phase1/http2/src/hpack.c:229-387 | whenever the plain decoder accepts a block, the scan returns the last :path, and a protocol error exactly when it is missing or empty |
| HpackTheorems.DecoderAcceptsIff | phase1/http2/src/hpack.c:184-203 | with room for every field the decoder accepts a block exactly when the scan reaches its end and passed over no value with the Huffman bit set |
| Witnesses.ScanTakesMore | phase1/http2/src/hpack.c:184-203 | on one six-octet block the scan finds the path and the decoder refuses, whatever its room |
| Hpack.EncodeLiteralNewName | phase1/http2/src/hpack.c:136-156 | the literal's code is appended, or 0 is returned |
| Hpack.DecodeHeaders | phase1/http2/src/hpack.c:229-297 | the loop fills the field array with exactly the decoded list, or reports the same error; FieldListRoundTrip says what list that is |
| Hpack.ExtractPath | phase1/http2/src/hpack.c:307-387 | the fused loop over the block computes the scan; PathRoundTrip says which path that is |
| FrameRoundTrips.HeaderRoundTrip | phase1/http2/src/frame.c:45-71 | the nine octets written for a frame parse back to its header, and payload and rest lie behind them |
| FrameRoundTrips.HeaderIsInjective | phase1/http2/src/frame.c:45-71 | writing what was parsed restores the octets |
| FrameRoundTrips.DataRoundTrip | phase1/http2/src/frame.c:414-420 | DATA parses back to what was encoded |
| FrameRoundTrips.HeadersRoundTrip | phase1/http2/src/frame.c:422-428 | HEADERS parses back to what was encoded |
| FrameRoundTrips.PriorityRoundTrip | phase1/http2/src/frame.c:430-445 | PRIORITY parses back, except self-dependency, which is refused |
| FrameRoundTrips.RstStreamRoundTrip | phase1/http2/src/frame.c:447-456 | RST_STREAM parses back to its error code |
| FrameRoundTrips.SettingsRoundTrip | phase1/http2/src/frame.c:458-474 | SETTINGS of every encodable length parses back to the same list |
| FrameRoundTrips.PushPromiseRoundTrip | phase1/http2/src/frame.c:476-488 | PUSH_PROMISE parses back to promised id and block |
| FrameRoundTrips.PingRoundTrip | phase1/http2/src/frame.c:490-496 | PING parses back to its opaque octets |
| FrameRoundTrips.GoawayRoundTrip | phase1/http2/src/frame.c:498-511 | GOAWAY parses back to last stream, error code and debug data |
| FrameRoundTrips.WindowUpdateRoundTrip | phase1/http2/src/frame.c:513-522 | WINDOW_UPDATE parses back to its increment |
| FrameRoundTrips.ContinuationRoundTrip | phase1/http2/src/frame.c:524-530 | CONTINUATION parses back to its fragment |
| FrameRoundTrips.DataLayout | phase1/http2/src/frame.c:126-157 | DATA is accepted exactly when it splits into pad-length octet, content and padding adding up to the header's length |
| FrameRoundTrips.HeadersLayout | phase1/http2/src/frame.c:177-230 | the same for HEADERS with its priority block |
| FrameRoundTrips.PushPromiseLayout | phase1/http2/src/frame.c:356-389 | the same for PUSH_PROMISE with its promised id |
| FrameRoundTrips.FixedLayouts | phase1/http2/src/frame.c:73-124 | the kinds without padding are accepted exactly at their lengths, on stream 0 or on another as each demands |
| FrameRoundTrips.FlagsComeApart | phase1/http2/include/http2/frame.h:43-49 | flags put together from the bits of section 6 come apart into them |
| FrameRoundTrips.TypesAreListed | phase1/http2/include/http2/frame.h:30-41 | each frame type's number is its place in section 6 of RFC 7540 |
| FrameCodec.ParseSettingsInto | phase1/http2/src/frame.c:232-266 | the loop fills the array with exactly the payload's settings, or reports the error |
| FrameCodec.EncodeRaw | phase1/http2/src/frame.c:391-412 | header and payload are written to the front of the buffer and nothing behind them changes, or 0 is returned and nothing changes at all |
| FrameCodec.EncodeSettings | phase1/http2/src/frame.c:458-474 | the loop lays out up to 16 settings and encodes them |
| UringRuns.NoStaleEvent | phase1/http2/src/io_uring.c:183-296 | over every orderly run of registrations, removals, waits and kernel steps, each event reported comes from a poll armed in its descriptor's present registration |
| UringRuns.OnePollPerRegistration | phase1/http2/src/io_uring.c:394-422 | a registration never has two polls in flight, and is active exactly while it has one |
| UringArming.TableIsAsCalled | phase1/http2/src/io_uring.c:183-243 | on every run a descriptor is in use exactly while the calls leave it registered, for the events of the last call, in a generation that counts its registrations |
| UringArming.KernelTakesAll | phase1/http2/src/io_uring.c:372-422 | on every run the kernel is handed exactly these submissions, in order: at each wait, for every registered descriptor without a poll, in ascending order and up to the 256 the queue holds, a poll with the events of its last registration call; at each removal of one with a poll, the cancel of that poll; nothing is ever left in the queue |
| UringArming.CancelNamesItsPoll | phase1/http2/src/io_uring.c:372-392 | a cancel names the one poll in flight of its descriptor's present registration, and no other request |
| UringArming.WaitTakesPrefix | phase1/http2/src/io_uring.c:468-508 | of all completions unread or newly come a wait handles a prefix, each once and in order, and leaves exactly the rest: none unless the events are full, or the wait was interrupted with an empty ring, when it handles none |
| UringArming.EventsAreOfStanding | phase1/http2/src/io_uring.c:262-296 | over every orderly run each event is for a descriptor that stands registered by the calls, from a poll of that registration |
| UringAge.ReportedIff | phase1/http2/src/io_uring.c:262-296 | a completion of any age is reported exactly when its age in registrations is a multiple of 2^30, and the event is current exactly when its age is zero |
| UringAge.UntimelyIsStale | phase1/http2/src/io_uring.c:183-201 | whenever a descriptor is registered with a request of its registration 2^30 before still in flight, some course of kernel steps and waits reports that request as the new registration's |
| UringReach.StaleEventReached | phase1/http2/src/io_uring.c:183-296 | an orderly run leads to such a registration, and on to a stale event |
| UringSafety.HarvestTracked | phase1/http2/src/io_uring.c:262-296 | handling completions in order keeps every request in flight accounted for |
| UringSafety.CancelPollKeeps | phase1/http2/src/io_uring.c:372-392 | an answered cancel, granted or refused, leaves in flight exactly what was |
| UringOrder.DrainKeepsOrder | phase1/http2/src/io_uring.c:336-370 | a drain that finds its cancel removes just that completion, the first for it on the ring, and keeps all others, saved, waiting or newly arrived, in order |
| UringOrder.CollectIsOneHarvest | phase1/http2/src/io_uring.c:494-508 | collecting saved completions and then the ring is one harvest of one queue |
| UringOrder.HarvestTakesPrefix | phase1/http2/src/io_uring.c:311-334 | a harvest handles a prefix of the queue in order and leaves exactly the rest, which is empty unless the events are full |
| UringOrder.DrainEnds | phase1/http2/src/io_uring.c:336-370 | the three outcomes of a drain by the place of the answer among all that was or came unread: within 256, just it is removed, and its result alone decides success; none came, and nothing is lost; beyond 256, the drain fails and exactly the completions saved in the last pass are both saved and on the ring |
| UringOrder.FullIff | phase1/http2/src/io_uring.c:346-368 | a pass runs out of room exactly when the saved completions and those before the answer exceed 256 |
| UringReach.NoRoomReached | phase1/http2/src/io_uring.c:336-370 | an orderly run leads to a removal that fails with 256 completions both saved and on the ring |
| UringSpec.PackUnpack | phase1/http2/src/io_uring.c:73-101 | descriptor and generation come back from user data, and the flags tell polls, cancels and timeouts apart |
| UringSpec.EventReadsMask | phase1/http2/src/io_uring.c:289-295 | an event reports exactly the conditions in the poll result, and a failed poll as closed |
| Urings.HeadAdvances | phase1/http2/src/io_uring.c:348-368 | taking the entry at the head leaves the rest of the queue on the ring, across the wrap of buffer and index |
| Urings.WriteTail | phase1/http2/src/io_uring.c:494-508 | the kernel's entry at the tail extends the queue and overwrites nothing unread |
| Urings.Uring.Set | phase1/http2/src/io_uring.c:183-201 | a new registration takes the next generation; a known one only changes its events |
| Urings.Uring.Submit | phase1/http2/src/io_uring.c:245-260 | the entry is appended to the submission queue, unless it is full |
| Urings.Uring.FinishCqe | phase1/http2/src/io_uring.c:262-296 | one completion updates its registration and reports at most one event |
| Urings.Uring.SaveCqe | phase1/http2/src/io_uring.c:298-309 | a completion is saved behind the others, up to 256 |
| Urings.Uring.FinishSavedCqes | phase1/http2/src/io_uring.c:311-334 | the loop finishes a prefix of the saved completions and slides the rest to the front in order |
| Urings.Uring.ScanForCancel | phase1/http2/src/io_uring.c:346-368 | one pass saves completions up to the cancel's and publishes the head only at its end |
| Urings.Uring.DrainUntilCancel | phase1/http2/src/io_uring.c:336-370 | the outer loop waits and scans until the cancel is answered |
| Urings.Uring.CancelActivePoll | phase1/http2/src/io_uring.c:372-392 | an active poll is cancelled by its own user data, as UringArming.CancelNamesItsPoll has it |
| Urings.Uring.RemoveFd | phase1/http2/src/io_uring.c:224-243 | a descriptor is unregistered once its poll is cancelled |
| Urings.Uring.ArmMissing | phase1/http2/src/io_uring.c:394-422 | every registration without a poll is armed in order, as long as the submission queue has room, with the polls of UringArming.KernelTakesAll |
| Urings.Uring.WaitForEvents | phase1/http2/src/io_uring.c:468-508 | arm, wait if the ring is empty, harvest up to the capacity |
| PollLoop.Poll | phase1/http2/src/server.c:300-345 | after any registrations, removals and waits the io_uring object is in the state of that run, and its last call reported that run's events |
| PollLoop.Turn | phase1/http2/src/io_uring.c:183-508 | each call on the object is that step of the run, with its events, and a removal that succeeds leaves no cancel under way |
| Crc32.UpdateCrc | phase1/doom/headless/i_video_headless.c:15-25 | the nested loops compute the CRC of the data from the given start, the one of CrcRemainder.CrcIsTheRemainder |
| CrcRemainder.CrcIsTheRemainder | phase1/doom/headless/i_video_headless.c:15-25 | the CRC is the one word that, complemented and read in reverse, is the remainder of the data (low bits first, times x^32, plus the complemented start ahead of it) modulo x^32+x^26+x^23+x^22+x^16+x^12+x^11+x^10+x^8+x^7+x^5+x^4+x^2+x+1, for every start and all data |
| CrcRemainder.AbsorbDivides | phase1/doom/headless/i_video_headless.c:18-23 | the register and a quotient satisfy the division, octet after octet |
| CrcRemainder.RemainderIsUnique | phase1/doom/headless/i_video_headless.c:15-25 | no dividend has two remainders of degree below 32 |
| CrcRemainder.PolynomialIsGenerator | phase1/doom/headless/i_video_headless.c:22 | the constant of the bit loop is that polynomial without its leading term, reversed |
| Crc32.Chaining | phase1/doom/headless/i_video_headless.c:15-25 | updating with one piece after another is updating with both at once |
| Crc32.FramesAreOneStream | phase1/doom/headless/i_video_headless.c:65-74 | the CRC chained over any number of frames is that of all screens taken as one stream |
| Crc32.Headless.FinishUpdate | phase1/doom/headless/i_video_headless.c:73-74 | after each frame the running CRC is that of everything shown |
| Crc32.AbsorbLinear | phase1/doom/headless/i_video_headless.c:15-25 | the register is linear over exclusive or, in start and data together |
| Crc32.AbsorbInjective | phase1/doom/headless/i_video_headless.c:15-25 | different registers stay different under the same data |
| Crc32.BurstDetected | phase1/doom/headless/i_video_headless.c:15-25 | two streams that differ only within four consecutive octets never have the same CRC |

## Left out

- Sockets, accept, read and write, process setup and the command line (`server.c`, `main.c`): only the fact that
  octets arrive cut anywhere and output is consumed in arbitrary amounts is kept.
- `io_epoll.c` and `io_kqueue.c`, and the mapping, setup and close parts of `io_uring.c`: thin wrappers around
  system calls.
- The kernel acts only where the program enters it or between operations; entering it to submit succeeds, and
  a wait inside a drain fails only when the given replies are used up.
- The timeout request of builds without extended arguments: completions with its flag are recognised and
  dropped, but none is made.
- Liveness of the wait: it may block while saved completions exist, so no prompt delivery is claimed.
- Runs in which a removal leaves its cancel unanswered: a late answer could mark a registration idle whose poll is
  still in flight, so the safety theorems exclude them.
- Guards against null pointers, and the wrap of absurd buffer lengths.
- The 61 rows of the static table are data: the theorems say which row an index takes its name and value from, and
  spell out only rows 4 and 8.
- The log lines, frame limit and process exit of the headless build.
- `phase1/c11-ref`, the other headless stubs and `phase2/zcc`: short code whose claims would be easy.
