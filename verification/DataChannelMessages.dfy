/** What a channel does with each message, in the numbers of RFC 8831, section 8, and what that
    makes of a run: the peer is handed the messages that were pushed. */
module DataChannelMessages {
  import opened DataChannelNetwork
  import opened DataChannelOpen
  import opened DataChannelWire
  import opened DataChannel
  import opened Integers
  import opened Wrappers

  /** A message as the application sees it. */
  datatype Message = Message(isBinary: bool, bytes: seq<Byte>)

  /** Packets that carry one: text 51 and binary 53, empty text 56 and empty binary 57. */
  predicate Carries(p: Packet) { p.ppid == 51 || p.ppid == 53 || p.ppid == 56 || p.ppid == 57 }

  function MessageOf(p: Packet): Message
    requires Carries(p)
  {
    Message(p.ppid == 53 || p.ppid == 57, if p.ppid == 56 || p.ppid == 57 then [] else p.payload)
  }

  // ---- One message ----

  /** A forwarded buffer with an identifier that does not fit its size, or of no message. */
  predicate Refused(meta: Option<nat>, payload: seq<Byte>) {
    && meta.Some?
    && !(meta.value == 51 && payload != []) && !(meta.value == 53 && payload != [])
    && !(meta.value == 56 && payload == []) && meta.value != 57
  }

  predicate MaySend(c: Channel) { c.state == Connecting || c.state == Open }

  /** A push that is let through sends one packet, of the kind and with the bytes pushed, an
      empty message as one zero byte; it is ordered until the channel is open, then as the
      channel says, and as reliable as the channel says. */
  lemma PushSends(c: Channel, meta: Option<nat>, payload: seq<Byte>, isBinary: bool, flow: Flow)
    ensures var o := PushBuffer(c, meta, payload, isBinary, flow).0;
            && |o.sent| <= 1 && !o.reset
            && (o.sent != [] <==> !Refused(meta, payload) && MaySend(c) && flow == FlowOk)
            && (o.sent != [] ==>
                  var p := o.sent[0];
                  && p.ppid == (if payload == [] then (if isBinary then 57 else 56) else if isBinary then 53 else 51)
                  && p.payload == (if payload == [] then [0] else payload)
                  && (p.ordered <==> c.state == Connecting || c.params.ordered)
                  && (c.params.maxLifeTime != -1 ==> p.pr == Ttl(c.params.maxLifeTime))
                  && (c.params.maxLifeTime == -1 && c.params.maxRetransmits != -1 ==>
                        p.pr == Rtx(c.params.maxRetransmits))
                  && (c.params.maxLifeTime == -1 && c.params.maxRetransmits == -1 ==> p.pr == Reliable)
                  && Carries(p) && MessageOf(p) == Message(isBinary, payload))
  {
  }

  /** What a push returns and counts: a message is counted even if it cannot go out, its bytes
      are not. */
  lemma PushCounts(c: Channel, meta: Option<nat>, payload: seq<Byte>, isBinary: bool, flow: Flow)
    ensures var r := PushBuffer(c, meta, payload, isBinary, flow);
            var c' := r.0.channel;
            if Refused(meta, payload) then r.1 == FlowError && c' == c
            else if !MaySend(c) then r.1 == FlowNotLinked && c' == c
            else
              && r.1 == flow
              && c' == c.(messagesSent := c.messagesSent + 1, bytesSent := c'.bytesSent)
              && c'.bytesSent == (if flow == FlowOk then c.bytesSent + |payload| else c.bytesSent)
  {
  }

  /** A packet that carries a message is counted with its bytes and goes to the application,
      whose result is returned; one that carries neither a message nor a control message
      resets the channel. */
  lemma ReceiveCounts(c: Channel, p: Packet, flow: Flow, cb: Option<Flow>)
    ensures var o, n := Receive(c, p, flow), Notify(p, cb);
            && (n.0 <==> Carries(p) && cb.Some?)
            && (Carries(p) ==>
                  && o == Outcome(c.(messagesRecv := c.messagesRecv + 1,
                                     bytesRecv := c.bytesRecv + |MessageOf(p).bytes|), [], false)
                  && n.1 == (if cb.Some? then cb.value else FlowOk))
            && (!Carries(p) && p.ppid != 50 ==> o == Outcome(c.(state := Closing), [], true) && n.1 == FlowError)
            && (p.ppid == 50 ==> n.1 == FlowOk)
  {
  }

  // ---- Control messages ----

  /** A control message is an OPEN, an ACK, or resets the channel. An ACK opens it in any state. */
  lemma ControlExactly(c: Channel, data: seq<Byte>, flow: Flow)
    ensures var o := Receive(c, Packet(50, true, Reliable, data), flow);
            && (data == [] || (data[0] != 2 && data[0] != 3) ==> o == Outcome(c.(state := Closing), [], true))
            && (data != [] && data[0] == 2 ==> o == Outcome(c.(negotiated := true, state := Open), [], false))
  {
  }

  /** An OPEN that cannot be read resets the channel, one that comes to a channel in use is
      ignored; a fresh channel takes what was read, starts its counters anew and answers with
      one ordered, reliable ACK, after which it is open, or, if that fails, is reset. */
  lemma OpenExactly(c: Channel, data: seq<Byte>, flow: Flow)
    requires data != [] && data[0] == 3
    ensures var o := Receive(c, Packet(50, true, Reliable, data), flow);
            && (Parse(data).None? ==> o == Outcome(c.(state := Closing), [], true))
            && (Parse(data).Some? && c.state != Closed ==> o == Outcome(c, [], false))
            && (Parse(data).Some? && c.state == Closed ==>
                  && o.channel.id == c.id && o.channel.params == Parse(data).value
                  && o.channel.messagesRecv == o.channel.messagesSent == o.channel.bytesRecv == o.channel.bytesSent == 0
                  && (flow == FlowOk ==>
                        && o.sent == [Packet(50, true, Reliable, [2])] && !o.reset
                        && o.channel.state == Open && o.channel.negotiated && o.channel.ctrlBytesSent == 1)
                  && (flow != FlowOk ==>
                        && o.sent == [] && o.reset
                        && o.channel.state == Closing && !o.channel.negotiated && o.channel.ctrlBytesSent == 0))
  {
  }

  /** Only a fresh channel opens: with one ordered, reliable OPEN if it can be built and pushed,
      and in any case it is connecting from then on. */
  lemma RequestOpenExactly(c: Channel, flow: Flow)
    ensures var o := RequestOpen(c, flow);
            && !o.reset
            && (c.negotiated || c.state != Closed ==> o.channel == c && o.sent == [])
            && (!c.negotiated && c.state == Closed ==>
                  && o.channel == c.(state := Connecting, ctrlBytesSent := o.channel.ctrlBytesSent)
                  && (Encode(c.params).Some? && flow == FlowOk ==>
                        && o.sent == [Packet(50, true, Reliable, Encode(c.params).value)]
                        && o.channel.ctrlBytesSent == c.ctrlBytesSent + |Encode(c.params).value|)
                  && (Encode(c.params).None? || flow != FlowOk ==>
                        o.sent == [] && o.channel.ctrlBytesSent == c.ctrlBytesSent))
  {
  }

  /** A close asks for a reset exactly if the channel was connecting or open; so, however often
      it is closed, it asks once. */
  lemma ClosesOnce(c: Channel)
    ensures var o := RequestClose(c);
            && o.sent == [] && (o.reset <==> MaySend(c))
            && (o.reset ==> o.channel == c.(state := Closing)) && (!o.reset ==> o.channel == c)
            && !RequestClose(o.channel).reset
  {
  }

  lemma ClosedSendsNothing(c: Channel, meta: Option<nat>, payload: seq<Byte>, isBinary: bool, flow: Flow)
    requires !MaySend(c)
    ensures PushBuffer(c, meta, payload, isBinary, flow).0 == Outcome(c, [], false)
  {
  }

  /** After a close of one side its pushes put nothing on the wire, until an ACK reopens it. */
  lemma CloseStopsA(s: System, meta: Option<nat>, payload: seq<Byte>, isBinary: bool, flow: Flow)
    ensures var s' := Step(s, CloseA);
            && (s.a.Some? && MaySend(s.a.value) ==> s' == s.(a := Some(s.a.value.(state := Closing))))
            && Step(s', PushA(meta, payload, isBinary, flow)).ab == s.ab
  {
    if s.a.Some? {
      ClosesOnce(s.a.value);
      ClosedSendsNothing(RequestClose(s.a.value).channel, meta, payload, isBinary, flow);
    }
  }

  lemma CloseStopsB(s: System, meta: Option<nat>, payload: seq<Byte>, isBinary: bool, flow: Flow)
    ensures var s' := Step(s, CloseB);
            && (s.b.Some? && MaySend(s.b.value) ==> s' == s.(b := Some(s.b.value.(state := Closing))))
            && Step(s', PushB(meta, payload, isBinary, flow)).ba == s.ba
  {
    if s.b.Some? {
      ClosesOnce(s.b.value);
      ClosedSendsNothing(RequestClose(s.b.value).channel, meta, payload, isBinary, flow);
    }
  }

  /** A new channel is closed and has counted nothing. */
  lemma NewIsFresh(id: UInt16, ordered: bool, life: GInt, rtx: GInt, labelText: seq<Byte>, protocol: seq<Byte>)
    ensures var c := NewChannel(id, ordered, life, rtx, labelText, protocol);
            && c.id == id && c.params == Params(ordered, life, rtx, 0, labelText, protocol)
            && !c.negotiated && c.state == Closed
            && c.messagesRecv == c.messagesSent == c.bytesRecv == c.bytesSent == c.ctrlBytesSent == 0
  {
  }

  // ---- Whole runs ----

  /** The messages in a queue. */
  function Messages(q: seq<Packet>): multiset<Message> {
    if q == [] then multiset{}
    else (if Carries(q[0]) then multiset{MessageOf(q[0])} else multiset{}) + Messages(q[1..])
  }

  function Single(p: Packet): multiset<Message> {
    if Carries(p) then multiset{MessageOf(p)} else multiset{}
  }

  /** One direction of the stream. */
  function Queue(s: System, toB: bool): seq<Packet> { if toB then s.ab else s.ba }

  /** The message an event pushes into a direction: one that the application gave and that made
      the queue longer. */
  function PushedBy(s: System, e: Event, toB: bool): multiset<Message> {
    match e
    case PushA(_, payload, isBinary, _) =>
      if toB && |Step(s, e).ab| > |s.ab| then multiset{Message(isBinary, payload)} else multiset{}
    case PushB(_, payload, isBinary, _) =>
      if !toB && |Step(s, e).ba| > |s.ba| then multiset{Message(isBinary, payload)} else multiset{}
    case _ => multiset{}
  }

  /** The message an event hands to the peer's application. */
  function HandedBy(s: System, e: Event, toB: bool): multiset<Message> {
    match e
    case DeliverToB(i, _) => if toB && CanDeliver(s.ab, i) then Single(s.ab[i]) else multiset{}
    case DeliverToA(i, _) => if !toB && CanDeliver(s.ba, i) && s.a.Some? then Single(s.ba[i]) else multiset{}
    case _ => multiset{}
  }

  /** The messages the network loses or a reset discards. */
  function DroppedBy(s: System, e: Event, toB: bool): multiset<Message> {
    match e
    case LoseToB(i) => if toB && CanLose(s.ab, i) then Single(s.ab[i]) else multiset{}
    case LoseToA(i) => if !toB && CanLose(s.ba, i) then Single(s.ba[i]) else multiset{}
    case ResetStream => Messages(Queue(s, toB))
    case _ => multiset{}
  }

  function Pushed(s: System, es: seq<Event>, toB: bool): multiset<Message>
    decreases |es|
  {
    if es == [] then multiset{} else PushedBy(s, es[0], toB) + Pushed(Step(s, es[0]), es[1..], toB)
  }

  function Handed(s: System, es: seq<Event>, toB: bool): multiset<Message>
    decreases |es|
  {
    if es == [] then multiset{} else HandedBy(s, es[0], toB) + Handed(Step(s, es[0]), es[1..], toB)
  }

  function Dropped(s: System, es: seq<Event>, toB: bool): multiset<Message>
    decreases |es|
  {
    if es == [] then multiset{} else DroppedBy(s, es[0], toB) + Dropped(Step(s, es[0]), es[1..], toB)
  }

  lemma {:induction false} MessagesConcat(q: seq<Packet>, r: seq<Packet>)
    ensures Messages(q + r) == Messages(q) + Messages(r)
    decreases |q|
  {
    if q == [] {
      assert q + r == r;
    } else {
      MessagesConcat(q[1..], r);
      assert (q + r)[1..] == q[1..] + r && (q + r)[0] == q[0];
    }
  }

  lemma MessagesRemove(q: seq<Packet>, i: nat)
    requires i < |q|
    ensures Messages(q) == Messages(Remove(q, i)) + Single(q[i])
  {
    assert q == q[..i] + q[i..];
    MessagesConcat(q[..i], q[i..]);
    MessagesConcat(q[..i], q[i + 1..]);
    assert q[i..][1..] == q[i + 1..];
  }

  lemma MessagesOne(p: Packet)
    ensures Messages([p]) == Single(p)
  {
    assert [p][1..] == [];
  }

  /** Appending what a handler sends: control messages carry nothing. */
  lemma Appends(q: seq<Packet>, sent: seq<Packet>)
    requires |sent| <= 1
    ensures Messages(q + sent) == Messages(q) + (if sent == [] then multiset{} else Single(sent[0]))
  {
    MessagesConcat(q, sent);
    if sent != [] {
      assert sent == [sent[0]];
      MessagesOne(sent[0]);
    }
  }

  lemma AnswersCarryNothing(c: Channel, p: Packet, flow: Flow)
    ensures var sent := Receive(c, p, flow).sent;
            |sent| <= 1 && (sent != [] ==> !Carries(sent[0]))
  {
  }

  /** The books of one direction over one step. */
  predicate Accounts(s: System, e: Event, toB: bool) {
    Messages(Queue(Step(s, e), toB)) + HandedBy(s, e, toB) + DroppedBy(s, e, toB)
    == Messages(Queue(s, toB)) + PushedBy(s, e, toB)
  }

  lemma PushAAccounts(s: System, e: Event, toB: bool)
    requires e.PushA?
    ensures Accounts(s, e, toB)
  {
    if s.a.Some? {
      PushSends(s.a.value, e.meta, e.payload, e.isBinary, e.flow);
      Appends(s.ab, PushBuffer(s.a.value, e.meta, e.payload, e.isBinary, e.flow).0.sent);
    }
  }

  lemma PushBAccounts(s: System, e: Event, toB: bool)
    requires e.PushB?
    ensures Accounts(s, e, toB)
  {
    if s.b.Some? {
      PushSends(s.b.value, e.meta, e.payload, e.isBinary, e.flow);
      Appends(s.ba, PushBuffer(s.b.value, e.meta, e.payload, e.isBinary, e.flow).0.sent);
    }
  }

  lemma OpenAccounts(s: System, e: Event, toB: bool)
    requires e.OpenRequest?
    ensures Accounts(s, e, toB)
  {
    if s.a.Some? {
      RequestOpenExactly(s.a.value, e.flow);
      Appends(s.ab, RequestOpen(s.a.value, e.flow).sent);
    }
  }

  lemma DeliverToBAccounts(s: System, i: nat, flow: Flow, toB: bool)
    ensures Accounts(s, DeliverToB(i, flow), toB)
  {
    if CanDeliver(s.ab, i) {
      if toB {
        MessagesRemove(s.ab, i);
      } else {
        AnswersCarryNothing(Accepting(s), s.ab[i], flow);
        Appends(s.ba, Receive(Accepting(s), s.ab[i], flow).sent);
      }
    }
  }

  lemma DeliverToAAccounts(s: System, i: nat, flow: Flow, toB: bool)
    ensures Accounts(s, DeliverToA(i, flow), toB)
  {
    if CanDeliver(s.ba, i) && s.a.Some? {
      if toB {
        AnswersCarryNothing(s.a.value, s.ba[i], flow);
        Appends(s.ab, Receive(s.a.value, s.ba[i], flow).sent);
      } else {
        MessagesRemove(s.ba, i);
      }
    }
  }

  lemma LoseToBAccounts(s: System, i: nat, toB: bool)
    ensures Accounts(s, LoseToB(i), toB)
  {
    if CanLose(s.ab, i) {
      MessagesRemove(s.ab, i);
    }
  }

  lemma LoseToAAccounts(s: System, i: nat, toB: bool)
    ensures Accounts(s, LoseToA(i), toB)
  {
    if CanLose(s.ba, i) {
      MessagesRemove(s.ba, i);
    }
  }

  lemma LocalAccounts(s: System, e: Event, toB: bool)
    requires e.Create? || e.CloseA? || e.CloseB?
    ensures Accounts(s, e, toB)
  {
    assert Queue(Step(s, e), toB) == Queue(s, toB);
  }

  lemma ResetAccounts(s: System, toB: bool)
    ensures Accounts(s, ResetStream, toB)
  {
    assert Queue(Step(s, ResetStream), toB) == [];
  }

  lemma StepAccounts(s: System, e: Event, toB: bool)
    ensures Accounts(s, e, toB)
  {
    match e {
      case PushA(_, _, _, _) => PushAAccounts(s, e, toB);
      case PushB(_, _, _, _) => PushBAccounts(s, e, toB);
      case OpenRequest(_) => OpenAccounts(s, e, toB);
      case DeliverToB(i, flow) => DeliverToBAccounts(s, i, flow, toB);
      case DeliverToA(i, flow) => DeliverToAAccounts(s, i, flow, toB);
      case LoseToB(i) => LoseToBAccounts(s, i, toB);
      case LoseToA(i) => LoseToAAccounts(s, i, toB);
      case ResetStream => ResetAccounts(s, toB);
      case _ => LocalAccounts(s, e, toB);
    }
  }

  lemma TwoSteps(q0: multiset<Message>, q1: multiset<Message>, q2: multiset<Message>,
                 pushed1: multiset<Message>, handed1: multiset<Message>, dropped1: multiset<Message>,
                 pushed2: multiset<Message>, handed2: multiset<Message>, dropped2: multiset<Message>)
    requires q1 + handed1 + dropped1 == q0 + pushed1 && q2 + handed2 + dropped2 == q1 + pushed2
    ensures q2 + (handed1 + handed2) + (dropped1 + dropped2) == q0 + (pushed1 + pushed2)
  {
    assert q2 + (handed1 + handed2) + (dropped1 + dropped2) == (q2 + handed2 + dropped2) + (handed1 + dropped1);
    assert (q1 + pushed2) + (handed1 + dropped1) == (q1 + handed1 + dropped1) + pushed2;
    assert (q0 + pushed1) + pushed2 == q0 + (pushed1 + pushed2);
  }

  lemma {:induction false} RunAccounts(s: System, es: seq<Event>, toB: bool)
    ensures Messages(Queue(Run(s, es), toB)) + Handed(s, es, toB) + Dropped(s, es, toB)
         == Messages(Queue(s, toB)) + Pushed(s, es, toB)
    decreases |es|
  {
    if es != [] {
      StepAccounts(s, es[0], toB);
      RunAccounts(Step(s, es[0]), es[1..], toB);
      TwoSteps(Messages(Queue(s, toB)), Messages(Queue(Step(s, es[0]), toB)), Messages(Queue(Run(s, es), toB)),
               PushedBy(s, es[0], toB), HandedBy(s, es[0], toB), DroppedBy(s, es[0], toB),
               Pushed(Step(s, es[0]), es[1..], toB), Handed(Step(s, es[0]), es[1..], toB),
               Dropped(Step(s, es[0]), es[1..], toB));
    }
  }

  lemma NothingWaitsAtFirst(id: UInt16, toB: bool)
    ensures Messages(Queue(Init(id), toB)) == multiset{}
  {
  }

  lemma FromEmpty(q0: multiset<Message>, q: multiset<Message>,
                  pushed: multiset<Message>, handed: multiset<Message>, dropped: multiset<Message>)
    requires q + handed + dropped == q0 + pushed && q0 == multiset{}
    ensures pushed == handed + q + dropped
  {
    assert q + handed == handed + q;
  }

  /** On every run and in both directions, the messages pushed, text or binary and byte for
      byte, are those handed to the peer's application, those in flight and those dropped: no
      message changes its kind or contents, none is made up and none is handed over twice. */
  lemma MessagesKept(id: UInt16, es: seq<Event>, toB: bool)
    ensures Pushed(Init(id), es, toB)
         == Handed(Init(id), es, toB) + Messages(Queue(Run(Init(id), es), toB)) + Dropped(Init(id), es, toB)
  {
    var s := Init(id);
    RunAccounts(s, es, toB);
    NothingWaitsAtFirst(id, toB);
    FromEmpty(Messages(Queue(s, toB)), Messages(Queue(Run(s, es), toB)),
              Pushed(s, es, toB), Handed(s, es, toB), Dropped(s, es, toB));
  }

  // ---- The OPEN comes first ----

  /** Every open request that a fresh channel of the run takes up is one whose OPEN can be built
      and pushed: at most one limit is set, and the push succeeds. */
  predicate OpensSent(s: System, es: seq<Event>)
    decreases |es|
  {
    es != [] ==>
      && (es[0].OpenRequest? && s.a.Some? && s.a.value.state == Closed && !s.a.value.negotiated ==>
            && es[0].flow == FlowOk
            && (s.a.value.params.maxLifeTime == -1 || s.a.value.params.maxRetransmits == -1))
      && OpensSent(Step(s, es[0]), es[1..])
  }

  lemma StepSent(s: System, e: Event)
    ensures Step(s, e).silentOpens >= s.silentOpens
    ensures Step(s, e).silentOpens == s.silentOpens <==>
            !(&& e.OpenRequest? && s.a.Some? && s.a.value.state == Closed && !s.a.value.negotiated
              && (e.flow != FlowOk
                  || (s.a.value.params.maxLifeTime != -1 && s.a.value.params.maxRetransmits != -1)))
  {
    if e.OpenRequest? && s.a.Some? {
      EncodedOnWire(s.a.value.params);
      RequestOpenExactly(s.a.value, e.flow);
    } else {
      SilentKept(s, e);
    }
  }

  lemma SilentKept(s: System, e: Event)
    requires !e.OpenRequest? || s.a.None?
    ensures Step(s, e).silentOpens == s.silentOpens
  {
  }

  lemma {:induction false} RunSent(s: System, es: seq<Event>)
    ensures Run(s, es).silentOpens >= s.silentOpens
    ensures Run(s, es).silentOpens == s.silentOpens <==> OpensSent(s, es)
    decreases |es|
  {
    if es != [] {
      StepSent(s, es[0]);
      RunSent(Step(s, es[0]), es[1..]);
    }
  }

  lemma {:induction false} RunThen(s: System, es: seq<Event>, e: Event)
    ensures Run(s, es + [e]) == Step(Run(s, es), e)
    decreases |es|
  {
    if es == [] {
      assert es + [e] == [e] && [e][1..] == [];
    } else {
      assert (es + [e])[1..] == es[1..] + [e];
      RunThen(Step(s, es[0]), es[1..], e);
    }
  }

  /** On every run in which that holds, when a user message reaches the peer its OPEN has been
      handled: the peer has the channel, on the same stream. */
  lemma OpenComesFirst(id: UInt16, es: seq<Event>, i: nat, flow: Flow)
    requires OpensSent(Init(id), es)
    requires CanDeliver(Run(Init(id), es).ab, i) && Carries(Run(Init(id), es).ab[i])
    ensures var s := Run(Init(id), es); s.openDelivered && s.b.Some? && s.b.value.id == id
  {
    var s := Run(Init(id), es);
    RunSent(Init(id), es);
    AnyRun(id, es);
    RunThen(Init(id), es, DeliverToB(i, flow));
    SilentKept(s, DeliverToB(i, flow));
    AnyRun(id, es + [DeliverToB(i, flow)]);
  }
}
