/** Two peers of opposite DTLS role talking on one SCTP stream. A owns the
    channel and opens it; B's channel is made when the first packet arrives. The
    association delivers ordered packets of a direction in order, unordered ones
    whenever it likes, and may lose packets that are not fully reliable. A stream
    reset empties both directions and removes both channels. */
module DataChannelNetwork {
  import opened DataChannelOpen
  import opened Integers
  import opened Wrappers
  import opened DataChannel

  datatype Tally = Tally(messages: nat, bytes: nat)

  /** openDelivered, early, silentOpens, the losses and the failed pushes record
      history: whether B has been handed A's OPEN since the last reset, how many
      user messages reached B without one, how many accepted open requests put
      no OPEN on the wire. */
  datatype System = System(
    id: UInt16, a: Option<Channel>, b: Option<Channel>, ab: seq<Packet>, ba: seq<Packet>,
    openDelivered: bool, early: nat, silentOpens: nat,
    lostToB: Tally, lostToA: Tally, failedA: nat, failedB: nat)

  datatype Event =
    | Create(ordered: bool, maxLifeTime: GInt, maxRetransmits: GInt, labelText: seq<Byte>, protocol: seq<Byte>)
    | OpenRequest(flow: Flow)
    | CloseA
    | CloseB
    | PushA(meta: Option<nat>, payload: seq<Byte>, isBinary: bool, flow: Flow)
    | PushB(meta: Option<nat>, payload: seq<Byte>, isBinary: bool, flow: Flow)
    | DeliverToB(i: nat, flow: Flow)
    | DeliverToA(i: nat, flow: Flow)
    | LoseToB(i: nat)
    | LoseToA(i: nat)
    | ResetStream

  function Init(id: UInt16): System {
    System(id, None, None, [], [], false, 0, 0, Tally(0, 0), Tally(0, 0), 0, 0)
  }

  predicate IsUser(p: Packet) { IsUserPpid(p.ppid) }

  predicate IsOpen(p: Packet) {
    p.ppid == PPID_CONTROL && p.payload != [] && p.payload[0] == MESSAGE_TYPE_OPEN_REQUEST
  }

  predicate CanDeliver(q: seq<Packet>, i: nat) {
    i < |q| && (q[i].ordered ==> forall j :: 0 <= j < i ==> !q[j].ordered)
  }

  predicate CanLose(q: seq<Packet>, i: nat) {
    i < |q| && q[i].pr != Reliable
  }

  function Remove(q: seq<Packet>, i: nat): seq<Packet>
    requires i < |q|
  {
    q[..i] + q[i + 1..]
  }

  function Lose(t: Tally, p: Packet): Tally {
    if IsUser(p) then Tally(t.messages + 1, t.bytes + UserSize(p)) else t
  }

  // ---- Steps ----

  function OpenStep(s: System, flow: Flow): System {
    match s.a
    case None => s
    case Some(c) =>
      var o := RequestOpen(c, flow);
      var silent := !c.negotiated && c.state.Closed? && o.sent == [];
      s.(a := Some(o.channel), ab := s.ab + o.sent, silentOpens := s.silentOpens + if silent then 1 else 0)
  }

  function PushAStep(s: System, meta: Option<nat>, payload: seq<Byte>, isBinary: bool, flow: Flow): System {
    match s.a
    case None => s
    case Some(c) =>
      var o := PushBuffer(c, meta, payload, isBinary, flow).0;
      var failed := o.sent == [] && o.channel.messagesSent > c.messagesSent;
      s.(a := Some(o.channel), ab := s.ab + o.sent, failedA := s.failedA + if failed then 1 else 0)
  }

  function PushBStep(s: System, meta: Option<nat>, payload: seq<Byte>, isBinary: bool, flow: Flow): System {
    match s.b
    case None => s
    case Some(c) =>
      var o := PushBuffer(c, meta, payload, isBinary, flow).0;
      var failed := o.sent == [] && o.channel.messagesSent > c.messagesSent;
      s.(b := Some(o.channel), ba := s.ba + o.sent, failedB := s.failedB + if failed then 1 else 0)
  }

  /** B's channel, made on the arrival of the first packet of the stream. */
  function Accepting(s: System): Channel {
    if s.b.Some? then s.b.value else NewChannel(s.id, true, UNSET, UNSET, [], [])
  }

  function DeliverToBStep(s: System, i: nat, flow: Flow): System {
    if !CanDeliver(s.ab, i) then s
    else
      var p := s.ab[i];
      var o := Receive(Accepting(s), p, flow);
      s.(b := Some(o.channel), ab := Remove(s.ab, i), ba := s.ba + o.sent,
         openDelivered := s.openDelivered || IsOpen(p),
         early := s.early + if IsUser(p) && !s.openDelivered then 1 else 0)
  }

  function DeliverToAStep(s: System, i: nat, flow: Flow): System {
    if !CanDeliver(s.ba, i) || s.a.None? then s
    else
      var o := Receive(s.a.value, s.ba[i], flow);
      s.(a := Some(o.channel), ba := Remove(s.ba, i), ab := s.ab + o.sent)
  }

  function Step(s: System, e: Event): System {
    match e
    case Create(ordered, life, rtx, labelText, protocol) =>
      if s.a.Some? then s else s.(a := Some(NewChannel(s.id, ordered, life, rtx, labelText, protocol)))
    case OpenRequest(flow) => OpenStep(s, flow)
    case CloseA => if s.a.None? then s else s.(a := Some(RequestClose(s.a.value).channel))
    case CloseB => if s.b.None? then s else s.(b := Some(RequestClose(s.b.value).channel))
    case PushA(meta, payload, isBinary, flow) => PushAStep(s, meta, payload, isBinary, flow)
    case PushB(meta, payload, isBinary, flow) => PushBStep(s, meta, payload, isBinary, flow)
    case DeliverToB(i, flow) => DeliverToBStep(s, i, flow)
    case DeliverToA(i, flow) => DeliverToAStep(s, i, flow)
    case LoseToB(i) =>
      if CanLose(s.ab, i) then s.(ab := Remove(s.ab, i), lostToB := Lose(s.lostToB, s.ab[i])) else s
    case LoseToA(i) =>
      if CanLose(s.ba, i) then s.(ba := Remove(s.ba, i), lostToA := Lose(s.lostToA, s.ba[i])) else s
    case ResetStream =>
      Init(s.id).(early := s.early, silentOpens := s.silentOpens)
  }

  function Run(s: System, es: seq<Event>): System
    decreases |es|
  {
    if es == [] then s else Run(Step(s, es[0]), es[1..])
  }

  // ---- The four phases of a stream ----

  predicate AllUser(q: seq<Packet>) { forall p :: p in q ==> IsUser(p) }

  predicate AllOrdered(q: seq<Packet>) { forall p :: p in q ==> p.ordered }

  predicate Sent(c: Channel) {
    !c.negotiated && (c.state.Connecting? || c.state.Closing?) && c.params.priority in PRIORITIES
  }

  /** Nothing has been said on the stream. */
  predicate Idle(s: System) {
    && (s.a.Some? ==> s.a.value.state.Closed? && !s.a.value.negotiated && s.a.value.params.priority in PRIORITIES)
    && s.b.None? && s.ab == [] && s.ba == [] && !s.openDelivered
  }

  /** A's OPEN is in flight, in front of ordered user messages only. */
  predicate OpenSent(s: System) {
    && s.a.Some? && Sent(s.a.value) && Encode(s.a.value.params).Some?
    && s.ab != [] && s.ab[0] == ControlPacket(Encode(s.a.value.params).value)
    && AllUser(s.ab[1..]) && AllOrdered(s.ab[1..])
    && s.b.None? && s.ba == [] && !s.openDelivered
  }

  /** What B keeps of A's parameters: strings cut to the 16 bits of their length. */
  function Received(p: Params): Params {
    p.(labelText := Cut(p.labelText), protocol := Cut(p.protocol))
  }

  /** B has taken A's OPEN. */
  predicate Opened(s: System) {
    && s.openDelivered && s.a.Some? && s.b.Some?
    && !s.a.value.state.Closed? && (s.a.value.state.Open? ==> s.a.value.negotiated)
    && (s.b.value.state.Open? || s.b.value.state.Closing?) && (s.b.value.state.Open? ==> s.b.value.negotiated)
    && s.b.value.params == Received(s.a.value.params)
    && AllUser(s.ab)
    && (forall p :: p in s.ba ==> IsUser(p) || p == ACK)
    && (s.a.value.negotiated || ACK in s.ba ==> s.b.value.negotiated)
  }

  /** A thinks it sent an OPEN, but none went out. */
  predicate Stuck(s: System) {
    && s.a.Some? && Sent(s.a.value)
    && AllUser(s.ab) && AllOrdered(s.ab)
    && (s.b.Some? ==> s.b.value.state.Closed? && !s.b.value.negotiated)
    && s.ba == [] && !s.openDelivered && s.silentOpens > 0
  }

  predicate Ids(s: System) {
    (s.a.Some? ==> s.a.value.id == s.id) && (s.b.Some? ==> s.b.value.id == s.id)
  }

  predicate Phase(s: System) {
    Ids(s) && (Idle(s) || OpenSent(s) || Opened(s) || Stuck(s))
  }

  // ---- Steps keep the phases ----

  predicate Talking(s: System) { Idle(s) || OpenSent(s) || Opened(s) }

  /** A step that changes no phase and touches no history of early messages. */
  predicate Same(s: System, s': System) {
    && Ids(s')
    && (Idle(s) ==> Idle(s')) && (OpenSent(s) ==> OpenSent(s'))
    && (Opened(s) ==> Opened(s')) && (Stuck(s) ==> Stuck(s'))
    && s'.early == s.early && s'.silentOpens == s.silentOpens
  }

  lemma OpenPhase(s: System, flow: Flow)
    requires Phase(s)
    ensures Phase(OpenStep(s, flow))
    ensures Idle(s) && OpenStep(s, flow).silentOpens == s.silentOpens ==>
              Idle(OpenStep(s, flow)) || OpenSent(OpenStep(s, flow))
    ensures OpenSent(s) || Opened(s) ==> OpenStep(s, flow) == s
  {
    var s' := OpenStep(s, flow);
    if Idle(s) && s.a.Some? {
      if Encode(s.a.value.params).Some? && flow == FlowOk {
        assert OpenSent(s');
      } else {
        assert Stuck(s');
      }
    } else {
      assert s'.ab == s.ab;
    }
  }

  /** A push changes counters only, and sends a user message only while connecting
      (then ordered) or open. */
  lemma PushEffect(c: Channel, meta: Option<nat>, payload: seq<Byte>, isBinary: bool, flow: Flow)
    ensures var o := PushBuffer(c, meta, payload, isBinary, flow).0;
            && o.channel == c.(messagesSent := o.channel.messagesSent, bytesSent := o.channel.bytesSent)
            && AllUser(o.sent)
            && (o.sent != [] ==> c.state.Connecting? || c.state.Open?)
            && (c.state.Connecting? ==> AllOrdered(o.sent))
  {
  }

  /** Appending what a push sends. */
  lemma GrowKeeps(s: System, c: Channel, sent: seq<Packet>, failedA: nat)
    requires Phase(s) && s.a.Some?
    requires c == s.a.value.(messagesSent := c.messagesSent, bytesSent := c.bytesSent)
    requires AllUser(sent)
    requires sent != [] ==> c.state.Connecting? || c.state.Open?
    requires c.state.Connecting? ==> AllOrdered(sent)
    ensures Same(s, s.(a := Some(c), ab := s.ab + sent, failedA := failedA))
  {
    if OpenSent(s) {
      assert (s.ab + sent)[1..] == s.ab[1..] + sent;
    }
  }

  lemma PushAPhase(s: System, meta: Option<nat>, payload: seq<Byte>, isBinary: bool, flow: Flow)
    requires Phase(s)
    ensures Same(s, PushAStep(s, meta, payload, isBinary, flow))
  {
    if s.a.Some? {
      var o := PushBuffer(s.a.value, meta, payload, isBinary, flow).0;
      PushEffect(s.a.value, meta, payload, isBinary, flow);
      GrowKeeps(s, o.channel, o.sent, PushAStep(s, meta, payload, isBinary, flow).failedA);
    }
  }

  lemma PushBPhase(s: System, meta: Option<nat>, payload: seq<Byte>, isBinary: bool, flow: Flow)
    requires Phase(s)
    ensures Same(s, PushBStep(s, meta, payload, isBinary, flow))
  {
    if s.b.Some? {
      PushEffect(s.b.value, meta, payload, isBinary, flow);
    }
  }

  /** Receiving A's OPEN on a fresh channel stores A's parameters and answers. */
  lemma ReceiveOpen(c: Channel, p: Params, flow: Flow)
    requires c.state.Closed? && p.priority in PRIORITIES && Encode(p).Some?
    ensures IsOpen(ControlPacket(Encode(p).value))
    ensures Receive(c, ControlPacket(Encode(p).value), flow) == AcceptOpen(c, Some(Received(p)), flow)
  {
    ParseEncoded(p);
  }

  /** Ordered messages wait behind the OPEN, so it is what B is handed first. */
  lemma DeliverOpenPhase(s: System, i: nat, flow: Flow)
    requires Ids(s) && OpenSent(s) && CanDeliver(s.ab, i)
    ensures i == 0
    ensures var s' := DeliverToBStep(s, i, flow);
            Ids(s') && Opened(s') && s'.early == s.early && s'.silentOpens == s.silentOpens
  {
    assert i == 0;
    ReceiveOpen(Accepting(s), s.a.value.params, flow);
    DeliverOpen(s, flow);
  }

  lemma DeliverOpen(s: System, flow: Flow)
    requires OpenSent(s) && Ids(s) && CanDeliver(s.ab, 0)
    requires IsOpen(s.ab[0])
    requires Receive(Accepting(s), s.ab[0], flow)
          == AcceptOpen(Accepting(s), Some(Received(s.a.value.params)), flow)
    ensures Ids(DeliverToBStep(s, 0, flow)) && Opened(DeliverToBStep(s, 0, flow))
    ensures DeliverToBStep(s, 0, flow).early == s.early
  {
    assert Remove(s.ab, 0) == s.ab[1..];
  }

  lemma DeliverUserPhase(s: System, i: nat, flow: Flow)
    requires Ids(s) && (Opened(s) || Stuck(s)) && CanDeliver(s.ab, i)
    ensures var s' := DeliverToBStep(s, i, flow);
            && Ids(s') && (Opened(s) ==> Opened(s')) && (Stuck(s) ==> Stuck(s'))
            && s'.silentOpens == s.silentOpens && (Opened(s) ==> s'.early == s.early)
  {
    assert s.ab[i] in s.ab;
    assert forall x :: x in Remove(s.ab, i) ==> x in s.ab;
    assert s.ba + [] == s.ba;
  }

  lemma DeliverToBPhase(s: System, i: nat, flow: Flow)
    requires Phase(s)
    ensures var s' := DeliverToBStep(s, i, flow);
            && Phase(s') && (Talking(s) ==> Talking(s') && s'.early == s.early)
            && s'.silentOpens == s.silentOpens
  {
    if CanDeliver(s.ab, i) {
      if OpenSent(s) {
        DeliverOpenPhase(s, i, flow);
      } else {
        DeliverUserPhase(s, i, flow);
      }
    }
  }

  lemma DeliverToAPhase(s: System, i: nat, flow: Flow)
    requires Phase(s)
    ensures Same(s, DeliverToAStep(s, i, flow))
  {
    if CanDeliver(s.ba, i) && s.a.Some? {
      assert Opened(s);
      var p := s.ba[i];
      var rest := Remove(s.ba, i);
      assert forall x :: x in rest ==> x in s.ba;
      assert p in s.ba;
    }
  }

  lemma LoseToBPhase(s: System, i: nat)
    requires Phase(s) && CanLose(s.ab, i)
    ensures Same(s, Step(s, LoseToB(i)))
  {
    var rest := Remove(s.ab, i);
    assert forall x :: x in rest ==> x in s.ab;
    if OpenSent(s) {
      assert i > 0;
      assert rest[1..] == Remove(s.ab[1..], i - 1);
    }
  }

  lemma LoseToAPhase(s: System, i: nat)
    requires Phase(s) && CanLose(s.ba, i)
    ensures Same(s, Step(s, LoseToA(i)))
  {
    assert forall x :: x in Remove(s.ba, i) ==> x in s.ba;
  }

  /** What a step may do to the phases and the history of early messages. */
  predicate Progress(s: System, s': System) {
    && Phase(s')
    && s'.silentOpens >= s.silentOpens
    && (Talking(s) && s'.silentOpens == s.silentOpens ==> Talking(s') && s'.early == s.early)
    && (s'.early > s.early ==> Stuck(s))
  }

  lemma SameIsProgress(s: System, s': System)
    requires Phase(s) && Same(s, s')
    ensures Progress(s, s')
  {
  }

  lemma OpenProgress(s: System, flow: Flow)
    requires Phase(s)
    ensures Progress(s, OpenStep(s, flow))
  {
    OpenPhase(s, flow);
    assert OpenStep(s, flow).early == s.early;
  }

  lemma DeliverProgress(s: System, i: nat, flow: Flow)
    requires Phase(s)
    ensures Progress(s, DeliverToBStep(s, i, flow)) && DeliverToBStep(s, i, flow).silentOpens == s.silentOpens
  {
    DeliverToBPhase(s, i, flow);
  }

  lemma LocalPhase(s: System, e: Event)
    requires Phase(s) && (e.Create? || e.CloseA? || e.CloseB?)
    ensures Same(s, Step(s, e))
  {
  }

  lemma ResetPhase(s: System)
    ensures Idle(Step(s, ResetStream)) && Ids(Step(s, ResetStream))
    ensures Step(s, ResetStream).early == s.early && Step(s, ResetStream).silentOpens == s.silentOpens
  {
  }

  /** A step other than an open request, a delivery to B or a reset changes no phase. */
  lemma QuietPhase(s: System, e: Event)
    requires Phase(s) && !e.OpenRequest? && !e.DeliverToB? && !e.ResetStream?
    ensures Same(s, Step(s, e))
  {
    match e {
      case Create(_, _, _, _, _) => LocalPhase(s, e);
      case CloseA => LocalPhase(s, e);
      case CloseB => LocalPhase(s, e);
      case PushA(meta, payload, isBinary, flow) => PushAPhase(s, meta, payload, isBinary, flow);
      case PushB(meta, payload, isBinary, flow) => PushBPhase(s, meta, payload, isBinary, flow);
      case DeliverToA(i, flow) => DeliverToAPhase(s, i, flow);
      case LoseToB(i) => if CanLose(s.ab, i) { LoseToBPhase(s, i); }
      case LoseToA(i) => if CanLose(s.ba, i) { LoseToAPhase(s, i); }
    }
  }

  /** Every step keeps the stream in one of its phases; unless an open request goes
      unsent, a stream that is not stuck stays so and hands B nothing early. */
  lemma StepPhase(s: System, e: Event)
    requires Phase(s)
    ensures Progress(s, Step(s, e))
    ensures !e.OpenRequest? ==> Step(s, e).silentOpens == s.silentOpens
  {
    match e {
      case OpenRequest(flow) => OpenProgress(s, flow);
      case DeliverToB(i, flow) => DeliverProgress(s, i, flow);
      case ResetStream => ResetPhase(s);
      case _ =>
        QuietPhase(s, e);
        SameIsProgress(s, Step(s, e));
    }
  }

  // ---- Traffic is conserved ----

  function UserMessages(q: seq<Packet>): nat {
    if q == [] then 0 else (if IsUser(q[0]) then 1 else 0) + UserMessages(q[1..])
  }

  function UserBytes(q: seq<Packet>): nat {
    if q == [] then 0 else UserSize(q[0]) + UserBytes(q[1..])
  }

  function MessagesSent(c: Option<Channel>): nat { if c.Some? then c.value.messagesSent else 0 }
  function MessagesRecv(c: Option<Channel>): nat { if c.Some? then c.value.messagesRecv else 0 }
  function BytesSent(c: Option<Channel>): nat { if c.Some? then c.value.bytesSent else 0 }
  function BytesRecv(c: Option<Channel>): nat { if c.Some? then c.value.bytesRecv else 0 }

  /** One direction's books: sent is received, in flight, lost, or failed to go out. */
  predicate Balanced(from: Option<Channel>, to: Option<Channel>, q: seq<Packet>, lost: Tally, failed: nat) {
    && MessagesSent(from) == MessagesRecv(to) + UserMessages(q) + lost.messages + failed
    && BytesSent(from) == BytesRecv(to) + UserBytes(q) + lost.bytes
  }

  predicate Conserved(s: System) {
    && Balanced(s.a, s.b, s.ab, s.lostToB, s.failedA)
    && Balanced(s.b, s.a, s.ba, s.lostToA, s.failedB)
  }

  lemma {:induction false} TallyConcat(q: seq<Packet>, r: seq<Packet>)
    ensures UserMessages(q + r) == UserMessages(q) + UserMessages(r)
    ensures UserBytes(q + r) == UserBytes(q) + UserBytes(r)
  {
    if q == [] {
      assert q + r == r;
    } else {
      TallyConcat(q[1..], r);
      assert (q + r)[1..] == q[1..] + r;
    }
  }

  lemma TallyRemove(q: seq<Packet>, i: nat)
    requires i < |q|
    ensures UserMessages(q) == UserMessages(Remove(q, i)) + (if IsUser(q[i]) then 1 else 0)
    ensures UserBytes(q) == UserBytes(Remove(q, i)) + UserSize(q[i])
  {
    assert q == q[..i] + q[i..];
    TallyConcat(q[..i], q[i..]);
    TallyConcat(q[..i], q[i + 1..]);
  }

  lemma PushBalance(c: Channel, meta: Option<nat>, payload: seq<Byte>, isBinary: bool, flow: Flow)
    ensures var o := PushBuffer(c, meta, payload, isBinary, flow).0;
            && o.channel.bytesSent == c.bytesSent + UserBytes(o.sent)
            && o.channel.messagesSent == c.messagesSent + UserMessages(o.sent)
               + (if o.sent == [] && o.channel.messagesSent > c.messagesSent then 1 else 0)
  {
    var o := PushBuffer(c, meta, payload, isBinary, flow).0;
    if o.sent != [] {
      assert o.sent[1..] == [];
    }
  }

  lemma PushAConserved(s: System, meta: Option<nat>, payload: seq<Byte>, isBinary: bool, flow: Flow)
    requires Conserved(s)
    ensures Conserved(PushAStep(s, meta, payload, isBinary, flow))
  {
    if s.a.Some? {
      var o := PushBuffer(s.a.value, meta, payload, isBinary, flow).0;
      PushBalance(s.a.value, meta, payload, isBinary, flow);
      PushEffect(s.a.value, meta, payload, isBinary, flow);
      TallyConcat(s.ab, o.sent);
    }
  }

  lemma PushBConserved(s: System, meta: Option<nat>, payload: seq<Byte>, isBinary: bool, flow: Flow)
    requires Conserved(s)
    ensures Conserved(PushBStep(s, meta, payload, isBinary, flow))
  {
    if s.b.Some? {
      var o := PushBuffer(s.b.value, meta, payload, isBinary, flow).0;
      PushBalance(s.b.value, meta, payload, isBinary, flow);
      PushEffect(s.b.value, meta, payload, isBinary, flow);
      TallyConcat(s.ba, o.sent);
    }
  }

  lemma OpenConserved(s: System, flow: Flow)
    requires Conserved(s)
    ensures Conserved(OpenStep(s, flow))
  {
    if s.a.Some? {
      var o := RequestOpen(s.a.value, flow);
      RequestOpenBalance(s.a.value, flow);
      TallyConcat(s.ab, o.sent);
    }
  }

  lemma RequestOpenBalance(c: Channel, flow: Flow)
    ensures var o := RequestOpen(c, flow);
            && UserMessages(o.sent) == UserBytes(o.sent) == 0
            && o.channel == c.(state := o.channel.state, ctrlBytesSent := o.channel.ctrlBytesSent)
  {
    var o := RequestOpen(c, flow);
    if o.sent != [] {
      assert o.sent[1..] == [];
    }
  }

  lemma OpenTakenConserved(s: System, flow: Flow)
    requires OpenSent(s) && Conserved(s) && CanDeliver(s.ab, 0)
    ensures Conserved(DeliverToBStep(s, 0, flow))
  {
    TallyRemove(s.ab, 0);
    ReceiveOpen(Accepting(s), s.a.value.params, flow);
    AcceptBalance(Accepting(s), Received(s.a.value.params), flow);
  }

  lemma UserTakenConserved(s: System, i: nat, flow: Flow)
    requires Conserved(s) && CanDeliver(s.ab, i) && IsUser(s.ab[i])
    ensures Conserved(DeliverToBStep(s, i, flow))
  {
    TallyRemove(s.ab, i);
    assert s.ba + [] == s.ba;
  }

  /** B zeroes its counters on an OPEN, which loses nothing: they are zero by then. */
  lemma DeliverToBConserved(s: System, i: nat, flow: Flow)
    requires Phase(s) && Conserved(s)
    ensures Conserved(DeliverToBStep(s, i, flow))
  {
    if CanDeliver(s.ab, i) {
      if OpenSent(s) {
        assert i == 0;
        OpenTakenConserved(s, flow);
      } else {
        assert s.ab[i] in s.ab;
        UserTakenConserved(s, i, flow);
      }
    }
  }

  lemma AcceptBalance(c: Channel, p: Params, flow: Flow)
    requires c.state.Closed?
    ensures var o := AcceptOpen(c, Some(p), flow);
            && o.channel.messagesRecv == o.channel.messagesSent == o.channel.bytesRecv == o.channel.bytesSent == 0
            && UserMessages(o.sent) == UserBytes(o.sent) == 0
            && (forall q: seq<Packet> :: UserMessages(q + o.sent) == UserMessages(q)
                                         && UserBytes(q + o.sent) == UserBytes(q))
  {
    var o := AcceptOpen(c, Some(p), flow);
    if o.sent != [] {
      assert o.sent[1..] == [];
    }
    forall q: seq<Packet>
      ensures UserMessages(q + o.sent) == UserMessages(q) && UserBytes(q + o.sent) == UserBytes(q)
    {
      TallyConcat(q, o.sent);
    }
  }

  lemma DeliverToAConserved(s: System, i: nat, flow: Flow)
    requires Phase(s) && Conserved(s)
    ensures Conserved(DeliverToAStep(s, i, flow))
  {
    if CanDeliver(s.ba, i) && s.a.Some? {
      TallyRemove(s.ba, i);
      assert s.ba[i] in s.ba;
      assert s.ab + [] == s.ab;
    }
  }

  lemma LoseConserved(s: System, i: nat)
    requires Conserved(s)
    ensures CanLose(s.ab, i) ==> Conserved(Step(s, LoseToB(i)))
    ensures CanLose(s.ba, i) ==> Conserved(Step(s, LoseToA(i)))
  {
    if CanLose(s.ab, i) {
      TallyRemove(s.ab, i);
    }
    if CanLose(s.ba, i) {
      TallyRemove(s.ba, i);
    }
  }

  lemma LocalConserved(s: System, e: Event)
    requires Conserved(s) && (e.Create? || e.CloseA? || e.CloseB? || e.ResetStream?)
    ensures Conserved(Step(s, e))
  {
  }

  lemma StepConserved(s: System, e: Event)
    requires Phase(s) && Conserved(s)
    ensures Conserved(Step(s, e))
  {
    match e {
      case Create(_, _, _, _, _) => LocalConserved(s, e);
      case OpenRequest(flow) => OpenConserved(s, flow);
      case CloseA => LocalConserved(s, e);
      case CloseB => LocalConserved(s, e);
      case PushA(meta, payload, isBinary, flow) => PushAConserved(s, meta, payload, isBinary, flow);
      case PushB(meta, payload, isBinary, flow) => PushBConserved(s, meta, payload, isBinary, flow);
      case DeliverToB(i, flow) => DeliverToBConserved(s, i, flow);
      case DeliverToA(i, flow) => DeliverToAConserved(s, i, flow);
      case LoseToB(i) => LoseConserved(s, i);
      case LoseToA(i) => LoseConserved(s, i);
      case ResetStream => LocalConserved(s, e);
    }
  }

  // ---- Whole runs ----

  lemma {:induction false} RunInvariant(s: System, es: seq<Event>)
    requires Phase(s) && Conserved(s)
    ensures Phase(Run(s, es)) && Conserved(Run(s, es))
    ensures Run(s, es).silentOpens >= s.silentOpens
    ensures Talking(s) && Run(s, es).silentOpens == s.silentOpens ==>
              Talking(Run(s, es)) && Run(s, es).early == s.early
    decreases |es|
  {
    if es != [] {
      StepPhase(s, es[0]);
      StepConserved(s, es[0]);
      RunInvariant(Step(s, es[0]), es[1..]);
    }
  }

  lemma AnyRun(id: UInt16, es: seq<Event>)
    ensures var s := Run(Init(id), es);
            && Phase(s) && Conserved(s) && s.id == id
            && (s.silentOpens == 0 ==> s.early == 0)
  {
    RunInvariant(Init(id), es);
    IdKept(Init(id), es);
  }

  lemma {:induction false} IdKept(s: System, es: seq<Event>)
    ensures Run(s, es).id == s.id
    decreases |es|
  {
    if es != [] {
      IdKept(Step(s, es[0]), es[1..]);
    }
  }

  /** On every run in which each accepted open request put its OPEN on the wire, no
      user message of A reaches B before the OPEN of its stream. */
  lemma NoMessageBeforeOpen(id: UInt16, es: seq<Event>)
    requires Run(Init(id), es).silentOpens == 0
    ensures Run(Init(id), es).early == 0
  {
    AnyRun(id, es);
  }

  /** The rest of a channel's life: anything but opening, closing down or starting anew. */
  predicate LifeEvent(e: Event) {
    !e.Create? && !e.OpenRequest? && !e.ResetStream?
  }

  lemma {:induction false} LifeIsNotSilent(s: System, es: seq<Event>)
    requires Phase(s) && forall e :: e in es ==> LifeEvent(e)
    ensures Run(s, es).silentOpens == s.silentOpens
    decreases |es|
  {
    if es != [] {
      assert es[0] in es && forall e :: e in es[1..] ==> e in es;
      StepPhase(s, es[0]);
      LifeIsNotSilent(Step(s, es[0]), es[1..]);
    }
  }

  /** For one channel the condition is exact: whatever happens after its open request,
      B is handed nothing early, if and only if the OPEN could be encoded and pushed. */
  lemma SafeExactlyWhenOpenSent(s: System, flow: Flow)
    requires Phase(s) && Conserved(s) && Idle(s) && s.a.Some?
    ensures (forall es: seq<Event> | (forall e :: e in es ==> LifeEvent(e)) ::
               Run(OpenStep(s, flow), es).early == s.early)
       <==> Encode(s.a.value.params).Some? && flow == FlowOk
  {
    if Encode(s.a.value.params).Some? && flow == FlowOk {
      forall es: seq<Event> | forall e :: e in es ==> LifeEvent(e)
        ensures Run(OpenStep(s, flow), es).early == s.early
      {
        SentOpenIsSafe(s, es);
      }
    } else {
      var push, deliver := PushA(None, [1], true, FlowOk), DeliverToB(0, FlowOk);
      UnsentOpenExposes(s, flow);
      RunTwo(OpenStep(s, flow), push, deliver);
      assert forall e :: e in [push, deliver] ==> LifeEvent(e);
    }
  }

  lemma RunTwo(s: System, e: Event, f: Event)
    ensures Run(s, [e, f]) == Step(Step(s, e), f)
  {
    assert [e, f][1..] == [f] && [f][1..] == [];
    assert Run(Step(s, e), [f]) == Run(Step(Step(s, e), f), []);
  }

  lemma SentOpenIsSafe(s: System, es: seq<Event>)
    requires Phase(s) && Conserved(s) && Idle(s) && s.a.Some?
    requires Encode(s.a.value.params).Some? && forall e :: e in es ==> LifeEvent(e)
    ensures Run(OpenStep(s, FlowOk), es).early == s.early
  {
    var s' := OpenStep(s, FlowOk);
    OpenPhase(s, FlowOk);
    OpenConserved(s, FlowOk);
    LifeIsNotSilent(s', es);
    RunInvariant(s', es);
  }

  lemma UnsentOpenExposes(s: System, flow: Flow)
    requires Idle(s) && s.a.Some?
    requires Encode(s.a.value.params).None? || flow != FlowOk
    ensures Step(Step(OpenStep(s, flow), PushA(None, [1], true, FlowOk)), DeliverToB(0, FlowOk)).early == s.early + 1
  {
    var s' := OpenStep(s, flow);
    var s'' := PushAStep(s', None, [1], true, FlowOk);
    assert s'.a.value.state == Connecting && s'.ab == [];
    assert s''.ab == [UserPacket(s'.a.value, [1], true)];
  }

  predicate StringsFit(p: Params) {
    0 !in p.labelText && |p.labelText| < 0x1_0000 && 0 !in p.protocol && |p.protocol| < 0x1_0000
  }

  lemma ReceivedIsSent(p: Params)
    ensures Received(p) == p <==> StringsFit(p)
  {
    CutFixed(p.labelText);
    CutFixed(p.protocol);
  }

  /** B has taken A's OPEN on this stream, and keeps its parameters; strings too long for
      their 16-bit length are the one exception. */
  predicate Agreed(s: System, id: UInt16) {
    && s.openDelivered && s.a.Some? && s.b.Some? && !s.a.value.state.Closed?
    && s.b.value.id == s.a.value.id == id
    && s.b.value.params == Received(s.a.value.params)
    && (s.b.value.params == s.a.value.params <==> StringsFit(s.a.value.params))
  }

  lemma OpenedIsAgreed(s: System)
    requires Ids(s) && Opened(s)
    ensures Agreed(s, s.id)
  {
    ReceivedIsSent(s.a.value.params);
  }

  lemma OpenerIsOpened(s: System)
    requires Phase(s) && s.a.Some? && s.a.value.state == Open
    ensures Opened(s) && s.b.value.negotiated
  {
  }

  lemma PeerIsOpened(s: System)
    requires Phase(s) && s.b.Some? && s.b.value.state == Open
    ensures Opened(s)
  {
  }

  lemma OpenerAgrees(s: System)
    requires Phase(s) && s.a.Some? && s.a.value.state == Open
    ensures Agreed(s, s.id) && s.b.value.negotiated
  {
    OpenerIsOpened(s);
    OpenedIsAgreed(s);
  }

  lemma PeerAgrees(s: System)
    requires Phase(s) && s.b.Some? && s.b.value.state == Open
    ensures Agreed(s, s.id)
  {
    PeerIsOpened(s);
    OpenedIsAgreed(s);
  }

  /** Whenever the opener's channel is open, so that it may send unordered and partially
      reliable messages, the peer has accepted an OPEN on the same stream and keeps the
      same parameters. */
  lemma OpenAgreement(id: UInt16, es: seq<Event>)
    requires Run(Init(id), es).a.Some? && Run(Init(id), es).a.value.state == Open
    ensures Agreed(Run(Init(id), es), id) && Run(Init(id), es).b.value.negotiated
  {
    AnyRun(id, es);
    OpenerAgrees(Run(Init(id), es));
  }

  /** The same seen from the accepting peer, which is open from the moment it answers. */
  lemma AcceptedAgreement(id: UInt16, es: seq<Event>)
    requires Run(Init(id), es).b.Some? && Run(Init(id), es).b.value.state == Open
    ensures Agreed(Run(Init(id), es), id)
  {
    AnyRun(id, es);
    PeerAgrees(Run(Init(id), es));
  }

  /** On every run, without condition: what a peer counted as sent is what the other
      counted as received, plus what is in flight, was lost, or could not be pushed. */
  lemma TrafficConserved(id: UInt16, es: seq<Event>)
    ensures Conserved(Run(Init(id), es))
  {
    AnyRun(id, es);
  }

  /** The stream just after an open request went out. */
  predicate JustSent(s: System) {
    Ids(s) && OpenSent(s) && |s.ab| == 1 && s.a.value.state == Connecting
  }

  lemma DefaultOpenIsSent(id: UInt16)
    ensures JustSent(Run(Init(id), [Create(true, UNSET, UNSET, [], []), OpenRequest(FlowOk)]))
  {
    var create := Create(true, UNSET, UNSET, [], []);
    RunTwo(Init(id), create, OpenRequest(FlowOk));
    var s := Step(Init(id), create);
    ParseEncoded(s.a.value.params);
    OpenPhase(s, FlowOk);
  }

  lemma OpenIsAnswered(s: System)
    requires JustSent(s)
    ensures var s' := Step(s, DeliverToB(0, FlowOk));
            s'.ba == [ACK] && s'.a == s.a
  {
    ReceiveOpen(Accepting(s), s.a.value.params, FlowOk);
  }

  /** A late ACK reopens a channel the opener has already asked to close. */
  lemma LateAckReopens(id: UInt16)
    ensures var sent := Run(Init(id), [Create(true, UNSET, UNSET, [], []), OpenRequest(FlowOk)]);
            var closing := Run(sent, [DeliverToB(0, FlowOk), CloseA]);
            var reopened := Step(closing, DeliverToA(0, FlowOk));
            && closing.a.Some? && closing.a.value.state == Closing
            && reopened.a.Some? && reopened.a.value.state == Open
  {
    var sent := Run(Init(id), [Create(true, UNSET, UNSET, [], []), OpenRequest(FlowOk)]);
    DefaultOpenIsSent(id);
    OpenIsAnswered(sent);
    RunTwo(sent, DeliverToB(0, FlowOk), CloseA);
    AckReopens(Run(sent, [DeliverToB(0, FlowOk), CloseA]));
  }

  lemma AckReopens(s: System)
    requires s.a.Some? && s.ba == [ACK]
    ensures Step(s, DeliverToA(0, FlowOk)).a == Some(s.a.value.(negotiated := true, state := Open))
  {
  }
}
