/** The data channel element: it updates its fields in place, and each method is
    tied to the handler of the same name on Channel values. */
module DataChannelElement {
  import opened DataChannelOpen
  import opened Integers
  import opened Wrappers
  import opened DataChannel

  class DataChannelBin {
    var ordered: bool
    var maxPacketLifeTime: GInt
    var maxPacketRetransmits: GInt
    var priority: UInt32
    var protocol: seq<Byte>
    var negotiated: bool
    var id: UInt16
    var labelText: seq<Byte>
    var bytesSent: nat
    var bytesRecv: nat
    var messagesSent: nat
    var messagesRecv: nat
    var state: State
    var ctrlBytesSent: nat

    function Snapshot(): Channel
      reads this
    {
      Channel(id, Params(ordered, maxPacketLifeTime, maxPacketRetransmits, priority, labelText, protocol),
              negotiated, state, bytesSent, bytesRecv, messagesSent, messagesRecv, ctrlBytesSent)
    }

    constructor (id: UInt16, ordered: bool, maxLifeTime: GInt, maxRetransmits: GInt,
                 labelText: seq<Byte>, protocol: seq<Byte>)
      ensures Snapshot() == NewChannel(id, ordered, maxLifeTime, maxRetransmits, labelText, protocol)
    {
      this.id, this.ordered, this.priority := id, ordered, 0;
      this.maxPacketLifeTime, this.maxPacketRetransmits := maxLifeTime, maxRetransmits;
      this.labelText, this.protocol := labelText, protocol;
      this.negotiated, this.state := false, Closed;
      this.bytesSent, this.bytesRecv, this.messagesSent, this.messagesRecv := 0, 0, 0, 0;
      this.ctrlBytesSent := 0;
    }

    method RequestOpen(flow: Flow) returns (sent: seq<Packet>)
      modifies this
      ensures Outcome(Snapshot(), sent, false) == DataChannel.RequestOpen(old(Snapshot()), flow)
    {
      sent := [];
      if negotiated || state != Closed {
        return;
      }
      state := Connecting;
      var bytes := OpenMessage();
      if bytes.Some? && flow == FlowOk {
        sent := [ControlPacket(bytes.value)];
        ctrlBytesSent := ctrlBytesSent + |bytes.value|;
      }
    }

    /** The bytes of the OPEN, or None for a channel type that the protocol does not have. */
    method OpenMessage() returns (bytes: Option<seq<Byte>>)
      ensures bytes == Encode(Snapshot().params)
    {
      var channelType, reliability := OpenType();
      if channelType !in {0x00, 0x80, 0x01, 0x81, 0x02, 0x82} {
        return None;
      }
      var labelBytes, protocolBytes := CString(labelText), CString(protocol);
      var buf := CreateOpenRequest(channelType, reliability, priority % 0x1_0000,
                                   labelBytes, |labelBytes| % 0x1_0000,
                                   protocolBytes, |protocolBytes| % 0x1_0000);
      bytes := Some(buf[..]);
    }

    method OpenType() returns (channelType: Byte, reliability: UInt32)
      ensures channelType == ChannelType(Snapshot().params) && reliability == Reliability(Snapshot().params)
    {
      channelType := if ordered then CHANNEL_TYPE_RELIABLE else CHANNEL_TYPE_UNORDERED;
      if maxPacketLifeTime != UNSET {
        channelType := channelType + CHANNEL_TYPE_TIMED;
      }
      if maxPacketRetransmits != UNSET {
        channelType := channelType + CHANNEL_TYPE_REMIX;
      }
      match channelType
      case 0x01 | 0x81 => reliability := ToUInt32(maxPacketRetransmits);
      case 0x02 | 0x82 => reliability := ToUInt32(maxPacketLifeTime);
      case _ => reliability := 0;
    }

    method RequestClose() returns (reset: bool)
      modifies this`state
      ensures Outcome(Snapshot(), [], reset) == DataChannel.RequestClose(old(Snapshot()))
    {
      if state.Closing? || state.Closed? {
        return false;
      }
      state := Closing;
      reset := true;
    }

    method SendAck(flow: Flow) returns (sent: seq<Packet>, reset: bool)
      modifies this
      ensures Outcome(Snapshot(), sent, reset) == DataChannel.SendAck(old(Snapshot()), flow)
    {
      if flow != FlowOk {
        state := Closing;
        return [], true;
      }
      ctrlBytesSent := ctrlBytesSent + 1;
      state := Open;
      negotiated := true;
      return [ACK], false;
    }

    method HandleOpenRequest(data: seq<Byte>, flow: Flow) returns (sent: seq<Packet>, reset: bool)
      modifies this
      ensures Outcome(Snapshot(), sent, reset) == DataChannel.HandleOpenRequest(old(Snapshot()), data, flow)
    {
      var parsed := Parse(data);
      sent, reset := AcceptOpen(parsed, flow);
    }

    method AcceptOpen(parsed: Option<Params>, flow: Flow) returns (sent: seq<Packet>, reset: bool)
      modifies this
      ensures Outcome(Snapshot(), sent, reset) == DataChannel.AcceptOpen(old(Snapshot()), parsed, flow)
    {
      if parsed.None? {
        state := Closing;
        return [], true;
      }
      if state != Closed {
        return [], false;
      }
      StoreParams(parsed.value);
      ResetCounters();
      negotiated, state := false, Connecting;
      sent, reset := SendAck(flow);
    }

    method StoreParams(params: Params)
      modifies this`priority, this`ordered, this`maxPacketLifeTime, this`maxPacketRetransmits
      modifies this`labelText, this`protocol
      ensures Snapshot() == old(Snapshot()).(params := params)
    {
      priority, ordered := params.priority, params.ordered;
      maxPacketLifeTime, maxPacketRetransmits := params.maxLifeTime, params.maxRetransmits;
      labelText, protocol := params.labelText, params.protocol;
    }

    method ResetCounters()
      modifies this`messagesRecv, this`messagesSent, this`bytesRecv, this`bytesSent, this`ctrlBytesSent
      ensures Snapshot() == old(Snapshot()).(messagesRecv := 0, messagesSent := 0, bytesRecv := 0, bytesSent := 0,
                                             ctrlBytesSent := 0)
    {
      messagesRecv, messagesSent, bytesRecv, bytesSent, ctrlBytesSent := 0, 0, 0, 0, 0;
    }

    method HandleAck()
      modifies this
      ensures Outcome(Snapshot(), [], false) == DataChannel.HandleAck(old(Snapshot()))
    {
      negotiated := true;
      state := Open;
    }

    method HandleControlMessage(data: seq<Byte>, flow: Flow) returns (sent: seq<Packet>, reset: bool)
      modifies this
      ensures Outcome(Snapshot(), sent, reset) == DataChannel.HandleControlMessage(old(Snapshot()), data, flow)
    {
      if data == [] {
        state := Closing;
        return [], true;
      }
      if data[0] == MESSAGE_TYPE_OPEN_REQUEST {
        sent, reset := HandleOpenRequest(data, flow);
      } else if data[0] == MESSAGE_TYPE_ACK {
        HandleAck();
        sent, reset := [], false;
      } else {
        state := Closing;
        sent, reset := [], true;
      }
    }

    method NewData(p: Packet, flow: Flow, cb: Option<Flow>)
      returns (sent: seq<Packet>, reset: bool, notified: bool, ret: Flow)
      modifies this
      ensures Outcome(Snapshot(), sent, reset) == Receive(old(Snapshot()), p, flow)
      ensures (notified, ret) == Notify(p, cb)
    {
      sent, reset, ret := [], false, FlowOk;
      var notify, failed := false, false;
      var size := 0;
      match p.ppid {
        case 50 =>
          sent, reset := HandleControlMessage(p.payload, flow);
        case 51 | 53 | 56 | 57 =>
          if p.ppid == PPID_STRING || p.ppid == PPID_BINARY {
            size := |p.payload|;
          }
          bytesRecv := bytesRecv + size;
          messagesRecv := messagesRecv + 1;
          notify := true;
        case _ =>
          failed := true;
      }
      notified := notify && cb.Some?;
      if failed {
        state := Closing;
        reset := true;
        ret := FlowError;
      } else if notified {
        ret := cb.value;
      }
    }

    /** Whether a message may be sent now, and with which ordering and reliability. */
    method SendFlags() returns (linked: bool, sendOrdered: bool, pr: PartialReliability)
      ensures linked == (state.Connecting? || state.Open?)
      ensures sendOrdered == (state.Connecting? || ordered)
      ensures pr == ReliabilityOf(Snapshot().params)
    {
      linked, sendOrdered := true, ordered;
      match state {
        case Closing => linked := false;
        case Closed => linked := false;
        case Connecting => sendOrdered := true;
        case Open =>
      }
      if maxPacketLifeTime == UNSET && maxPacketRetransmits == UNSET {
        pr := Reliable;
      } else if maxPacketLifeTime != UNSET {
        pr := Ttl(maxPacketLifeTime);
      } else {
        pr := Rtx(maxPacketRetransmits);
      }
    }

    /** The buffer to send, with its PPID: an empty message travels as one zero byte. */
    method SendBuffer(payload: seq<Byte>, isBinary: bool) returns (linked: bool, packet: Packet)
      ensures linked == (state.Connecting? || state.Open?)
      ensures packet == UserPacket(Snapshot(), payload, isBinary)
    {
      var isEmpty := payload == [];
      var ppid: nat;
      if isBinary {
        ppid := if isEmpty then PPID_BINARY_EMPTY else PPID_BINARY;
      } else {
        ppid := if isEmpty then PPID_STRING_EMPTY else PPID_STRING;
      }
      var sendBuffer := if isEmpty then [0] else payload;
      var sendOrdered, pr;
      linked, sendOrdered, pr := SendFlags();
      packet := Packet(ppid, sendOrdered, pr, sendBuffer);
    }

    method PushBuffer(meta: Option<nat>, payload: seq<Byte>, isBinary: bool, flow: Flow)
      returns (sent: seq<Packet>, ret: Flow)
      modifies this`bytesSent, this`messagesSent
      ensures (Outcome(Snapshot(), sent, false), ret)
           == DataChannel.PushBuffer(old(Snapshot()), meta, payload, isBinary, flow)
    {
      sent := [];
      if meta.Some? && !ForwardablePpid(meta.value, payload == []) {
        return sent, FlowError;
      }
      var linked, packet := SendBuffer(payload, isBinary);
      if !linked {
        return sent, FlowNotLinked;
      }
      ret := flow;
      if ret == FlowOk {
        sent := [packet];
        if |payload| > 0 {
          bytesSent := bytesSent + |payload|;
        }
      }
      messagesSent := messagesSent + 1;
    }
  }
}
