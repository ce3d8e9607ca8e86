/** What a lawful log looks like as sequences of frames: responses, output, acknowledgements. */
module Traces {
  import opened Bytes
  import opened FrameCodec
  import opened HpackStatic
  import opened History

  /** The response frames of a stream, in order. */
  function Responses(log: Log, id: u32): seq<Frame> {
    if log == [] then []
    else if Answers(Last(log), id) then Responses(Past(log), id) + [Last(log).frame]
    else Responses(Past(log), id)
  }

  /** The whole response to a request for `path`. */
  function Expected(id: u32, path: seq<byte>): seq<Frame>
    requires |path| < VALUE_CAP
  {
    [HeadersOf(id, |BodyFor(path)|), DataOf(id, BodyFor(path))]
  }

  lemma {:induction false} LawfulPath(log: Log, id: u32)
    requires Lawful(log)
    ensures |PathOf(log, id)| < VALUE_CAP
  {
    if log != [] {
      LawfulPath(Past(log), id);
    }
  }

  /** A stream gets a prefix of HEADERS, DATA with END_STREAM: what its path calls for, in order, once. */
  lemma {:induction false} LawfulResponses(log: Log, id: u32)
    requires Lawful(log)
    ensures |PathOf(log, id)| < VALUE_CAP && |Responses(log, id)| == Answered(log, id)
    ensures Responses(log, id) <= Expected(id, PathOf(log, id))
  {
    LawfulPath(log, id);
    if log != [] {
      LawfulResponses(Past(log), id);
    }
  }

  // ------------------------------------------------------------------ output

  function Outs(log: Log): seq<Frame> {
    if log == [] then [] else if Last(log).Out? then Outs(Past(log)) + [Last(log).frame] else Outs(Past(log))
  }

  function Serialise(frames: seq<Frame>): seq<byte>
    requires forall i :: 0 <= i < |frames| ==> Encodable(frames[i])
  {
    if frames == [] then [] else Serialise(frames[..|frames| - 1]) + Wire(frames[|frames| - 1])
  }

  ghost predicate AllSendable(frames: seq<Frame>) {
    forall i :: 0 <= i < |frames| ==> Sendable(frames[i])
  }

  lemma SerialiseSnoc(frames: seq<Frame>, f: Frame)
    requires AllSendable(frames) && Sendable(f)
    ensures Serialise(frames + [f]) == Serialise(frames) + Wire(f)
  {
    assert (frames + [f])[..|frames|] == frames;
  }

  /** The octets queued are the exact serialisation of the frames sent, all of them valid. */
  lemma {:induction false} LawfulOutput(log: Log)
    requires Lawful(log)
    ensures AllSendable(Outs(log)) && Wires(log) == Serialise(Outs(log))
  {
    if log != [] {
      LawfulOutput(Past(log));
      if Last(log).Out? {
        SerialiseSnoc(Outs(Past(log)), Last(log).frame);
      }
    }
  }

  lemma {:induction false} FirstIsFirst(log: Log)
    ensures |Outs(log)| == OutCount(log)
    ensures FirstOut(log) == if |Outs(log)| == 0 then None else Some(Outs(log)[0])
  {
    if log != [] {
      FirstIsFirst(Past(log));
    }
  }

  function CountGoaway(frames: seq<Frame>): nat {
    if frames == [] then 0
    else CountGoaway(frames[..|frames| - 1]) + if frames[|frames| - 1].kind == GOAWAY then 1 else 0
  }

  lemma {:induction false} GoawaysCounted(log: Log)
    ensures CountGoaway(Outs(log)) == Goaways(log)
  {
    if log != [] {
      GoawaysCounted(Past(log));
      if Last(log).Out? {
        assert Outs(log)[..|Outs(log)| - 1] == Outs(Past(log));
      }
    }
  }

  // -------------------------------------------------------- acknowledgements

  /** The acknowledgements owed for the SETTINGS and PING frames received, in order. */
  function Owed(log: Log): seq<Frame> {
    if log == [] then []
    else if Indebts(Last(log)) then Owed(Past(log)) + [AckOf(Last(log).header, Last(log).payload)]
    else Owed(Past(log))
  }

  /** The acknowledgements sent, in order. */
  function Acks(log: Log): seq<Frame> {
    if log == [] then []
    else if Last(log).Out? && IsAck(Last(log).frame) then Acks(Past(log)) + [Last(log).frame]
    else Acks(Past(log))
  }

  function AsSeq(debt: Option<Frame>): seq<Frame> {
    match debt case None => [] case Some(f) => [f]
  }

  /** Settling one debt at a time is acknowledging one for one, in order. */
  lemma {:induction false} PunctualAcks(log: Log)
    requires Punctual(log)
    ensures Acks(log) + AsSeq(Debt(log)) == Owed(log)
  {
    if log != [] {
      PunctualAcks(Past(log));
    }
  }

  // ------------------------------------------------------------ opened streams

  lemma {:induction false} OpenedBelow(log: Log, i: nat)
    requires Lawful(log) && i < |log| && log[i].Opened?
    ensures log[i].id <= LastOpened(log) && log[i].id % 2 == 1
  {
    if i < |log| - 1 {
      OpenedBelow(Past(log), i);
    }
  }

  /** Streams open with ever higher odd ids. */
  lemma {:induction false} OpenedAscends(log: Log, i: nat, j: nat)
    requires Lawful(log) && i < j < |log| && log[i].Opened? && log[j].Opened?
    ensures log[i].id < log[j].id
  {
    if j < |log| - 1 {
      OpenedAscends(Past(log), i, j);
    } else {
      OpenedBelow(Past(log), i);
    }
  }

  // --------------------------------------------------------------------- grants

  lemma {:induction false} LawfulGrants(log: Log, i: nat)
    requires Lawful(log) && i < |log| && log[i].Out? && log[i].frame.kind == WINDOW_UPDATE
    ensures LargeGrant(log[i].frame)
    decreases |log|
  {
    if i < |log| - 1 {
      LawfulGrants(Past(log), i);
    }
  }
}
