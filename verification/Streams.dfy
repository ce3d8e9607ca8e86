/** One slot of the stream table (stream.c): its lifecycle and its two windows. */
module Streams {
  import opened Bytes
  import opened FrameCodec

  const DEFAULT_WINDOW := 65535
  const INT32_MIN := -0x8000_0000

  datatype State = Idle | Open | HalfClosedRemote | HalfClosedLocal | Closed

  /** The fields of an h2_stream; the path is its characters before the terminator. */
  datatype Slot = Slot(id: u32, state: State, sendWindow: int, recvWindow: int,
                       headersSent: bool, bodyDeferred: bool, responseSent: bool, path: seq<byte>)

  const BLANK := Slot(0, Idle, 0, 0, false, false, false, [])

  datatype SlotStep = SlotStep(slot: Slot, ret: Code)

  function Init(id: u32, initialWindow: int): Slot {
    Slot(id, Idle, initialWindow, DEFAULT_WINDOW, false, false, false, [])
  }

  function Close(s: Slot): Slot {
    Slot(s.id, Closed, 0, 0, false, false, false, [])
  }

  function ReceiveHeaders(s: Slot, endStream: bool): SlotStep {
    if s.state != Idle then SlotStep(s, ProtocolError)
    else SlotStep(s.(state := if endStream then HalfClosedRemote else Open), NoError)
  }

  function ReceiveData(s: Slot, length: nat, endStream: bool): SlotStep {
    if length > INT32_MAX then SlotStep(s, InternalError)
    else if s.state != Open && s.state != HalfClosedLocal then SlotStep(s, StreamClosed)
    else if s.recvWindow < length then SlotStep(s, FlowControlError)
    else
      var taken := s.(recvWindow := s.recvWindow - length);
      if !endStream then SlotStep(taken, NoError)
      else if s.state == HalfClosedLocal then SlotStep(Close(taken), NoError)
      else SlotStep(taken.(state := HalfClosedRemote), NoError)
  }

  function SendEndStream(s: Slot): SlotStep {
    if s.state == Open then SlotStep(s.(state := HalfClosedLocal), NoError)
    else if s.state == HalfClosedRemote then SlotStep(Close(s), NoError)
    else SlotStep(s, StreamClosed)
  }

  function AddSendWindow(s: Slot, increment: u32): SlotStep {
    if increment == 0 then SlotStep(s, ProtocolError)
    else if s.sendWindow + increment > INT32_MAX then SlotStep(s, FlowControlError)
    else SlotStep(s.(sendWindow := s.sendWindow + increment), NoError)
  }

  class Stream {
    var id: u32
    var state: State
    var sendWindow: int
    var recvWindow: int
    var headersSent: bool
    var bodyDeferred: bool
    var responseSent: bool
    var path: seq<byte>

    ghost function Val(): Slot
      reads this
    {
      Slot(id, state, sendWindow, recvWindow, headersSent, bodyDeferred, responseSent, path)
    }

    constructor ()
      ensures Val() == BLANK
    {
      id, state, sendWindow, recvWindow := 0, Idle, 0, 0;
      headersSent, bodyDeferred, responseSent, path := false, false, false, [];
    }

    method Reinit(streamId: u32, initialWindow: int)
      modifies this
      ensures Val() == Init(streamId, initialWindow)
    {
      id, state, sendWindow, recvWindow := streamId, Idle, initialWindow, DEFAULT_WINDOW;
      headersSent, bodyDeferred, responseSent, path := false, false, false, [];
    }

    method Shut()
      modifies this
      ensures Val() == Close(old(Val()))
    {
      sendWindow := 0;
      recvWindow := 0;
      headersSent := false;
      bodyDeferred := false;
      responseSent := false;
      path := [];
      state := Closed;
    }

    method OnHeaders(endStream: bool) returns (ret: Code)
      modifies this
      ensures SlotStep(Val(), ret) == ReceiveHeaders(old(Val()), endStream)
    {
      if state != Idle {
        return ProtocolError;
      }
      state := if endStream then HalfClosedRemote else Open;
      ret := NoError;
    }

    method OnData(length: nat, endStream: bool) returns (ret: Code)
      modifies this
      ensures SlotStep(Val(), ret) == ReceiveData(old(Val()), length, endStream)
    {
      if length > INT32_MAX {
        return InternalError;
      }
      if state != Open && state != HalfClosedLocal {
        return StreamClosed;
      }
      if recvWindow < length {
        return FlowControlError;
      }
      recvWindow := recvWindow - length;
      if endStream {
        if state == HalfClosedLocal {
          Shut();
        } else {
          state := HalfClosedRemote;
        }
      }
      ret := NoError;
    }

    method OnEndStreamSent() returns (ret: Code)
      modifies this
      ensures SlotStep(Val(), ret) == SendEndStream(old(Val()))
    {
      if state == Open {
        state := HalfClosedLocal;
        return NoError;
      }
      if state == HalfClosedRemote {
        Shut();
        return NoError;
      }
      ret := StreamClosed;
    }

    method Credit(increment: u32) returns (ret: Code)
      modifies this
      ensures SlotStep(Val(), ret) == AddSendWindow(old(Val()), increment)
    {
      if increment == 0 {
        return ProtocolError;
      }
      if sendWindow + increment > INT32_MAX {
        return FlowControlError;
      }
      sendWindow := sendWindow + increment;
      ret := NoError;
    }
  }
}
