/** What a data session keeps of a run: what is in its tables, what waits and what it has counted
    follow from the events alone. */
module DataSessionRules {
  import opened DataSession
  import opened Integers

  // ---- Channels of the peer ----

  /** A number that the peer opens is filed exactly if it is free, is not 65535 and has the peer's
      parity: odd for a client, even for a server. */
  lemma PadExactly(s: Session, id: UInt16)
    ensures var s' := Step(s, PadAdded(id));
            if id !in s.dataChannels && id != 65535 && id % 2 == (if s.client then 1 else 0) then
              s' == s.(dataChannels := s.dataChannels[id := Remote])
            else s' == s
  {
  }

  // ---- Channels of our own ----

  /** A client numbers its first channel 0, a server 1. */
  lemma FirstNumber(client: bool)
    ensures var s := Step(Step(Init(client), Association(true, [])), Create(true));
            s.dataChannels == map[(if client then 0 else 1) := Local]
  {
    PickAgain({}, if client then 0 else 1);
  }

  /** The channel that a run asks for waits while there is no association, in front of the
      others; with one it is filed if it could be linked. Filed or not, its number is the least
      unused one of the role's parity from the cursor on, and the cursor stays there. */
  lemma CreateExactly(client: bool, es: seq<Event>, linked: bool, other: UInt32)
    requires RunFits(Init(client), es)
    ensures var s, s' := Run(Init(client), es), Step(Run(Init(client), es), Create(linked));
            var id := if client then s'.evenId else s'.oddId;
            && id !in s.dataChannels && id % 2 == (if client then 0 else 1)
            && id >= (if client then s.evenId else s.oddId)
            && ((if client then s.evenId else s.oddId) <= other < id && other % 2 == id % 2 ==>
                  other in s.dataChannels)
            && (if client then s'.oddId == s.oddId else s'.evenId == s.evenId)
            && s'.pending == (if s.established then s.pending else [id] + s.pending)
            && s'.dataChannels == (if s.established && linked then s.dataChannels[id := Local] else s.dataChannels)
            && s'.established == s.established && s'.channels == s.channels
            && s'.openedCount == s.openedCount && s'.closedCount == s.closedCount
  {
    RunKeeps(Init(client), es);
    PickIsLeast(Run(Init(client), es), linked, other);
  }

  lemma {:induction false} FlushExactly(table: map<UInt32, Origin>, pending: seq<UInt32>, links: seq<bool>, id: UInt32)
    requires forall x :: x in pending ==> x == id
    ensures Flush(table, pending, links)
         == if exists k :: 0 <= k < |pending| && k < |links| && links[k] then table[id := Local] else table
    decreases |pending|
  {
    if pending != [] {
      var linked := links != [] && links[0];
      var links' := if links == [] then [] else links[1..];
      assert pending[0] in pending && forall x :: x in pending[1..] ==> x in pending;
      FlushExactly(if linked then table[pending[0] := Local] else table, pending[1..], links', id);
      if k :| 0 <= k < |pending[1..]| && k < |links'| && links'[k] {
        assert links[k + 1];
      }
    }
  }

  /** When the association comes up, the waiting channels leave the list, and the number they
      share is filed if any of them could be linked; when it goes down, they wait on. */
  lemma AssociationExactly(client: bool, es: seq<Event>, connected: bool, links: seq<bool>)
    requires RunFits(Init(client), es)
    ensures var s := Run(Init(client), es);
            var s' := Step(s, Association(connected, links));
            var filed := connected && exists k :: 0 <= k < |s.pending| && k < |links| && links[k];
            && s'.established == connected && s'.pending == (if connected then [] else s.pending)
            && s'.dataChannels == (if filed then s.dataChannels[if client then s.evenId else s.oddId := Local]
                                   else s.dataChannels)
            && s'.evenId == s.evenId && s'.oddId == s.oddId && s'.channels == s.channels
            && s'.openedCount == s.openedCount && s'.closedCount == s.closedCount
  {
    RunKeeps(Init(client), es);
    var s := Run(Init(client), es);
    FlushExactly(s.dataChannels, s.pending, links, Cursor(s));
  }

  // ---- What follows from the events ----

  /** The association is up: the last report says so. */
  predicate Up(es: seq<Event>) {
    es != [] &&
    match es[|es| - 1]
    case Association(connected, _) => connected
    case _ => Up(es[..|es| - 1])
  }

  /** Channels asked for since the last time the association came up, while it was down. */
  function Waiting(es: seq<Event>): nat {
    if es == [] then 0
    else
      var before := es[..|es| - 1];
      match es[|es| - 1]
      case Association(connected, _) => if connected then 0 else Waiting(before)
      case Create(_) => Waiting(before) + (if Up(before) then 0 else 1)
      case _ => Waiting(before)
  }

  /** The channel is open: negotiated, and not removed since. */
  predicate OpenNow(es: seq<Event>, id: UInt32) {
    es != [] &&
    match es[|es| - 1]
    case Negotiated(n) => n == id || OpenNow(es[..|es| - 1], id)
    case PadRemoved(n) => n != id && OpenNow(es[..|es| - 1], id)
    case _ => OpenNow(es[..|es| - 1], id)
  }

  function Negotiations(es: seq<Event>): nat {
    if es == [] then 0
    else Negotiations(es[..|es| - 1]) + (if es[|es| - 1].Negotiated? then 1 else 0)
  }

  lemma {:induction false} RunLast(s: Session, es: seq<Event>)
    requires es != []
    ensures Run(s, es) == Step(Run(s, es[..|es| - 1]), es[|es| - 1])
    decreases |es|
  {
    if |es| > 1 {
      RunLast(Step(s, es[0]), es[1..]);
      assert es[1..][..|es| - 2] == es[..|es| - 1][1..];
    } else {
      assert es[..0] == [] && es[1..] == [];
    }
  }

  predicate Follows(s: Session, es: seq<Event>, id: UInt32) {
    && (s.established <==> Up(es)) && |s.pending| == Waiting(es)
    && (id in s.channels <==> OpenNow(es, id)) && s.openedCount == Negotiations(es)
  }

  lemma StepFollows(s: Session, before: seq<Event>, e: Event, id: UInt32)
    requires Follows(s, before, id)
    ensures Follows(Step(s, e), before + [e], id)
  {
    assert (before + [e])[..|before|] == before;
  }

  /** On every run the flag, the length of the waiting list, the set of open channels and their
      count are what the events say. */
  lemma {:induction false} FollowsEvents(client: bool, es: seq<Event>, id: UInt32)
    ensures Follows(Run(Init(client), es), es, id)
    decreases |es|
  {
    if es != [] {
      var last := |es| - 1;
      RunLast(Init(client), es);
      FollowsEvents(client, es[..last], id);
      StepFollows(Run(Init(client), es[..last]), es[..last], es[last], id);
      assert es[..last] + [es[last]] == es;
    }
  }

  // ---- The table and the closed channels ----

  /** By how much an event that closes nothing makes the table grow. */
  function Filed(s: Session, e: Event): int {
    if e.PadRemoved? then 0 else |Step(s, e).dataChannels| - |s.dataChannels|
  }

  function AllFiled(s: Session, es: seq<Event>): int
    decreases |es|
  {
    if es == [] then 0 else Filed(s, es[0]) + AllFiled(Step(s, es[0]), es[1..])
  }

  lemma ClosesOne(s: Session, id: UInt16)
    ensures var s' := Step(s, PadRemoved(id));
            |s'.dataChannels| + s'.closedCount == |s.dataChannels| + s.closedCount
  {
    var table := s.dataChannels - {id};
    assert table.Keys == s.dataChannels.Keys - {id};
    if id in s.dataChannels {
      assert |table.Keys| == |s.dataChannels.Keys| - 1;
    } else {
      assert table == s.dataChannels;
    }
  }

  /** The channels of the table and those counted as closed. */
  function KnownCount(s: Session): nat { |s.dataChannels| + s.closedCount }

  lemma StepBalance(s: Session, e: Event)
    ensures KnownCount(Step(s, e)) == KnownCount(s) + Filed(s, e)
  {
    if e.PadRemoved? {
      ClosesOne(s, e.id);
    } else {
      assert Step(s, e).closedCount == s.closedCount;
    }
  }

  lemma {:induction false} RunBalance(s: Session, es: seq<Event>)
    ensures KnownCount(Run(s, es)) == KnownCount(s) + AllFiled(s, es)
    decreases |es|
  {
    if es != [] {
      StepBalance(s, es[0]);
      RunBalance(Step(s, es[0]), es[1..]);
    }
  }

  /** No channel is lost track of: on every run those filed so far are in the table or counted as
      closed. */
  lemma TableBalance(client: bool, es: seq<Event>)
    ensures var s := Run(Init(client), es); |s.dataChannels| + s.closedCount == AllFiled(Init(client), es)
  {
    RunBalance(Init(client), es);
  }

  /** The table never shrinks otherwise: a channel leaves it when its pad is removed and only
      then, and keeps what is known of who made it. */
  lemma {:induction false} LeavesExactly(s: Session, e: Event, id: UInt32)
    requires Invariant(s) && Fits(s) && id in s.dataChannels
    ensures id !in Step(s, e).dataChannels <==> e.PadRemoved? && e.id == id
    ensures id in Step(s, e).dataChannels ==> Step(s, e).dataChannels[id] == s.dataChannels[id]
  {
    match e {
      case Create(linked) => PickIsNear(s);
      case Association(connected, links) => FlushKeepsKnown(s.dataChannels, s.pending, links, id);
      case _ =>
    }
  }

  lemma {:induction false} FlushKeepsKnown(table: map<UInt32, Origin>, pending: seq<UInt32>, links: seq<bool>,
                                           id: UInt32)
    requires id in table && id !in pending
    ensures id in Flush(table, pending, links) && Flush(table, pending, links)[id] == table[id]
    decreases |pending|
  {
    if pending != [] {
      var linked := links != [] && links[0];
      assert id !in pending[1..];
      FlushKeepsKnown(if linked then table[pending[0] := Local] else table, pending[1..],
                      if links == [] then [] else links[1..], id);
    }
  }
}
