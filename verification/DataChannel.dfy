/** One WebRTC data channel: the establishment state machine, the gate in front
    of pushed messages and the traffic counters, each handler as a function on
    Channel values. */
module DataChannel {
  import opened DataChannelOpen
  import opened Integers
  import opened Wrappers

  const PPID_CONTROL := 50
  const PPID_STRING := 51
  const PPID_BINARY_PARTIAL := 52
  const PPID_BINARY := 53
  const PPID_STRING_PARTIAL := 54
  const PPID_STRING_EMPTY := 56
  const PPID_BINARY_EMPTY := 57

  datatype State = Connecting | Open | Closing | Closed

  datatype PartialReliability = Reliable | Ttl(ms: GInt) | Rtx(count: GInt)

  /** A message handed to, or received from, the SCTP association. */
  datatype Packet = Packet(ppid: nat, ordered: bool, pr: PartialReliability, payload: seq<Byte>)

  /** What pushing a buffer into the pipeline, or a whole call, returns. */
  datatype Flow = FlowOk | FlowError | FlowNotLinked | FlowFlushing | FlowEos

  datatype Channel = Channel(
    id: UInt16, params: Params, negotiated: bool, state: State,
    bytesSent: nat, bytesRecv: nat, messagesSent: nat, messagesRecv: nat, ctrlBytesSent: nat)

  /** A handler's result: the channel afterwards, the packets that entered the
      association, and whether a stream reset was asked for. */
  datatype Outcome = Outcome(channel: Channel, sent: seq<Packet>, reset: bool)

  function NewChannel(id: UInt16, ordered: bool, maxLifeTime: GInt, maxRetransmits: GInt,
                      labelText: seq<Byte>, protocol: seq<Byte>): Channel {
    Channel(id, Params(ordered, maxLifeTime, maxRetransmits, 0, labelText, protocol),
            false, Closed, 0, 0, 0, 0, 0)
  }

  function ControlPacket(payload: seq<Byte>): Packet {
    Packet(PPID_CONTROL, true, Reliable, payload)
  }

  const ACK := ControlPacket([MESSAGE_TYPE_ACK])

  function RequestOpen(c: Channel, flow: Flow): Outcome {
    if c.negotiated || c.state != Closed then Outcome(c, [], false)
    else
      var connecting := c.(state := Connecting);
      match Encode(c.params)
      case None => Outcome(connecting, [], false)
      case Some(bytes) =>
        if flow != FlowOk then Outcome(connecting, [], false)
        else Outcome(connecting.(ctrlBytesSent := c.ctrlBytesSent + |bytes|), [ControlPacket(bytes)], false)
  }

  function RequestClose(c: Channel): Outcome {
    if c.state.Closing? || c.state.Closed? then Outcome(c, [], false)
    else Outcome(c.(state := Closing), [], true)
  }

  function SendAck(c: Channel, flow: Flow): Outcome {
    if flow != FlowOk then Outcome(c.(state := Closing), [], true)
    else Outcome(c.(ctrlBytesSent := c.ctrlBytesSent + 1, state := Open, negotiated := true), [ACK], false)
  }

  /** The locked half of handling an OPEN, given what was read from it. */
  function AcceptOpen(c: Channel, parsed: Option<Params>, flow: Flow): Outcome {
    match parsed
    case None => Outcome(c.(state := Closing), [], true)
    case Some(params) =>
      if c.state != Closed then Outcome(c, [], false)
      else SendAck(Channel(c.id, params, false, Connecting, 0, 0, 0, 0, 0), flow)
  }

  function HandleOpenRequest(c: Channel, data: seq<Byte>, flow: Flow): Outcome {
    AcceptOpen(c, Parse(data), flow)
  }

  function HandleAck(c: Channel): Outcome {
    Outcome(c.(negotiated := true, state := Open), [], false)
  }

  function HandleControlMessage(c: Channel, data: seq<Byte>, flow: Flow): Outcome {
    if data == [] then Outcome(c.(state := Closing), [], true)
    else if data[0] == MESSAGE_TYPE_OPEN_REQUEST then HandleOpenRequest(c, data, flow)
    else if data[0] == MESSAGE_TYPE_ACK then HandleAck(c)
    else Outcome(c.(state := Closing), [], true)
  }

  predicate IsUserPpid(ppid: nat) {
    ppid in {PPID_STRING, PPID_BINARY, PPID_STRING_EMPTY, PPID_BINARY_EMPTY}
  }

  /** The bytes a received user message counts for. */
  function UserSize(p: Packet): nat {
    if p.ppid in {PPID_STRING, PPID_BINARY} then |p.payload| else 0
  }

  function Receive(c: Channel, p: Packet, flow: Flow): Outcome {
    if p.ppid == PPID_CONTROL then HandleControlMessage(c, p.payload, flow)
    else if IsUserPpid(p.ppid) then
      Outcome(c.(bytesRecv := c.bytesRecv + UserSize(p), messagesRecv := c.messagesRecv + 1), [], false)
    else Outcome(c.(state := Closing), [], true)
  }

  /** Whether a received packet is handed to the application, and what the call returns; cb
      is what the application's callback returns, if there is one. */
  function Notify(p: Packet, cb: Option<Flow>): (bool, Flow) {
    if p.ppid == PPID_CONTROL then (false, FlowOk)
    else if !IsUserPpid(p.ppid) then (false, FlowError)
    else if cb.Some? then (true, cb.value)
    else (false, FlowOk)
  }

  /** Whether a buffer that carries a receive PPID may be forwarded. */
  predicate ForwardablePpid(ppid: nat, isEmpty: bool) {
    || (ppid in {PPID_STRING, PPID_BINARY} && !isEmpty)
    || (ppid == PPID_STRING_EMPTY && isEmpty)
    || ppid == PPID_BINARY_EMPTY
  }

  function ReliabilityOf(p: Params): PartialReliability {
    if p.maxLifeTime != UNSET then Ttl(p.maxLifeTime)
    else if p.maxRetransmits != UNSET then Rtx(p.maxRetransmits)
    else Reliable
  }

  function UserPacket(c: Channel, payload: seq<Byte>, isBinary: bool): Packet {
    var ordered := c.state.Connecting? || c.params.ordered;
    if payload == [] then
      Packet(if isBinary then PPID_BINARY_EMPTY else PPID_STRING_EMPTY, ordered, ReliabilityOf(c.params), [0])
    else
      Packet(if isBinary then PPID_BINARY else PPID_STRING, ordered, ReliabilityOf(c.params), payload)
  }

  /** Pushing one user message; meta is the PPID of a forwarded buffer. */
  function PushBuffer(c: Channel, meta: Option<nat>, payload: seq<Byte>, isBinary: bool, flow: Flow): (Outcome, Flow) {
    if meta.Some? && !ForwardablePpid(meta.value, payload == []) then (Outcome(c, [], false), FlowError)
    else if c.state.Closing? || c.state.Closed? then (Outcome(c, [], false), FlowNotLinked)
    else if flow != FlowOk then (Outcome(c.(messagesSent := c.messagesSent + 1), [], false), flow)
    else
      (Outcome(c.(messagesSent := c.messagesSent + 1, bytesSent := c.bytesSent + |payload|),
               [UserPacket(c, payload, isBinary)], false), FlowOk)
  }
}
