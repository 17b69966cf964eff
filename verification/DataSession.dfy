/** Stream numbers of a WebRTC data session: the DTLS client numbers its channels
    with even ids and the server with odd ones, each from its own cursor; channels
    asked for before the association is up wait in a list. */
module DataSession {
  import opened Integers

  const UINT_RANGE := 0x1_0000_0000
  const PARITY_RANGE := 0x8000_0000
  const RESERVED_ID := 65535

  /** Who made a channel of the table. */
  datatype Origin = Local | Remote

  datatype Session = Session(
    client: bool, established: bool, dataChannels: map<UInt32, Origin>, channels: set<UInt32>,
    evenId: UInt32, oddId: UInt32, pending: seq<UInt32>, openedCount: nat, closedCount: nat)

  datatype Event =
    | Create(linked: bool)
    | Association(connected: bool, links: seq<bool>)
    | PadAdded(id: UInt16)
    | PadRemoved(id: UInt16)
    | Negotiated(id: UInt16)

  function Init(client: bool): Session {
    Session(client, false, map[], {}, 0, 1, [], 0, 0)
  }

  // ---- Picking an id ----

  /** The k-th id after from in steps of two, in 32-bit arithmetic. */
  function Nth(from: UInt32, k: nat): UInt32
    requires k <= PARITY_RANGE
  {
    if from + 2 * k < UINT_RANGE then from + 2 * k else from + 2 * k - UINT_RANGE
  }

  function Next(id: UInt32): UInt32 { (id + 2) % UINT_RANGE }

  /** Some id of from's parity is not in use. */
  predicate HasFree(used: set<UInt32>, from: UInt32) {
    exists k | 0 <= k < PARITY_RANGE :: Nth(from, k) !in used
  }

  /** How many ids the search skips. */
  function FreeIndex(used: set<UInt32>, from: UInt32, k: nat): (r: nat)
    requires k <= PARITY_RANGE
    ensures k <= r <= PARITY_RANGE
    ensures forall j :: k <= j < r ==> Nth(from, j) in used
    ensures r < PARITY_RANGE ==> Nth(from, r) !in used
    decreases PARITY_RANGE - k
  {
    if k == PARITY_RANGE || Nth(from, k) !in used then k else FreeIndex(used, from, k + 1)
  }

  function FirstFree(used: set<UInt32>, from: UInt32): UInt32 {
    Nth(from, FreeIndex(used, from, 0))
  }

  lemma FirstFreeIsFree(used: set<UInt32>, from: UInt32)
    requires HasFree(used, from)
    ensures FirstFree(used, from) !in used && FreeIndex(used, from, 0) < PARITY_RANGE
  {
    var k :| 0 <= k < PARITY_RANGE && Nth(from, k) !in used;
  }

  /** The search has come to id, left steps short of the first unused one. */
  predicate Searching(used: set<UInt32>, from: UInt32, left: int, id: UInt32) {
    var n := FreeIndex(used, from, 0);
    HasFree(used, from) && 0 <= left <= n && id == Nth(from, n - left)
  }

  lemma SearchBegins(used: set<UInt32>, from: UInt32)
    requires HasFree(used, from)
    ensures Searching(used, from, FreeIndex(used, from, 0), from)
  {
  }

  lemma SearchStep(used: set<UInt32>, from: UInt32, left: int, id: UInt32)
    requires Searching(used, from, left, id) && id in used
    ensures left > 0 && Searching(used, from, left - 1, Next(id))
  {
    FirstFreeIsFree(used, from);
    NthNext(from, FreeIndex(used, from, 0) - left);
  }

  lemma SearchEnd(used: set<UInt32>, from: UInt32, left: int, id: UInt32)
    requires Searching(used, from, left, id) && id !in used
    ensures id == FirstFree(used, from)
  {
  }

  lemma NthNext(from: UInt32, k: nat)
    requires k < PARITY_RANGE
    ensures Nth(from, k + 1) == Next(Nth(from, k))
  {
  }

  /** Without running past 2^32 the pick is the least unused id of its parity from the
      cursor on, and the cursor does not move back. */
  lemma FirstFreeIsLeast(used: set<UInt32>, from: UInt32, id: UInt32)
    requires HasFree(used, from) && from + 2 * FreeIndex(used, from, 0) < UINT_RANGE
    ensures from <= FirstFree(used, from)
    ensures from <= id < FirstFree(used, from) && id % 2 == from % 2 ==> id in used
  {
    if from <= id < FirstFree(used, from) && id % 2 == from % 2 {
      var k := (id - from) / 2;
      assert id == from + 2 * k;
      assert Nth(from, k) in used;
    }
  }

  lemma {:induction false} Pigeonhole(used: set<UInt32>, from: UInt32, k: nat)
    requires k <= PARITY_RANGE && forall j :: 0 <= j < k ==> Nth(from, j) in used
    ensures k <= |used|
  {
    if k > 0 {
      var last := Nth(from, k - 1);
      forall j | 0 <= j < k - 1
        ensures Nth(from, j) in used - {last}
      {
        NthDistinct(from, j, k - 1);
      }
      Pigeonhole(used - {last}, from, k - 1);
    }
  }

  lemma NthDistinct(from: UInt32, i: nat, j: nat)
    requires i < j < PARITY_RANGE
    ensures Nth(from, i) != Nth(from, j)
  {
  }

  /** A table of fewer than 2^31 channels always leaves an id free, found after at most
      as many steps as there are channels. */
  lemma SmallTableHasFree(used: set<UInt32>, from: UInt32)
    requires |used| < PARITY_RANGE
    ensures HasFree(used, from) && FreeIndex(used, from, 0) <= |used|
  {
    var k := FreeIndex(used, from, 0);
    Pigeonhole(used, from, k);
    assert Nth(from, k) !in used;
  }

  // ---- The handlers ----

  function Cursor(s: Session): UInt32 { if s.client then s.evenId else s.oddId }

  function Picked(s: Session): UInt32 { FirstFree(s.dataChannels.Keys, Cursor(s)) }

  function WithCursor(s: Session, id: UInt32): Session {
    if s.client then s.(evenId := id) else s.(oddId := id)
  }

  function CreateChannel(s: Session, linked: bool): Session {
    var picked := WithCursor(s, Picked(s));
    if !s.established then picked.(pending := [Picked(s)] + s.pending)
    else if !linked then picked
    else picked.(dataChannels := s.dataChannels[Picked(s) := Local])
  }

  /** Opening the waiting channels; links says which of them could be linked. */
  function Flush(table: map<UInt32, Origin>, pending: seq<UInt32>, links: seq<bool>): map<UInt32, Origin>
    decreases |pending|
  {
    if pending == [] then table
    else
      var linked := links != [] && links[0];
      Flush(if linked then table[pending[0] := Local] else table, pending[1..],
            if links == [] then [] else links[1..])
  }

  function AssociationChanged(s: Session, connected: bool, links: seq<bool>): Session {
    if !connected then s.(established := false)
    else s.(established := true, dataChannels := Flush(s.dataChannels, s.pending, links), pending := [])
  }

  predicate IsValidRemoteId(client: bool, id: UInt16) {
    id != RESERVED_ID && (if client then id % 2 == 1 else id % 2 == 0)
  }

  function AddPad(s: Session, id: UInt16): Session {
    if id in s.dataChannels || !IsValidRemoteId(s.client, id) then s
    else s.(dataChannels := s.dataChannels[id := Remote])
  }

  function RemovePad(s: Session, id: UInt16): Session {
    s.(dataChannels := s.dataChannels - {id}, channels := s.channels - {id},
       closedCount := s.closedCount + if id in s.dataChannels then 1 else 0)
  }

  function NegotiatedChannel(s: Session, id: UInt16): Session {
    s.(channels := s.channels + {id}, openedCount := s.openedCount + 1)
  }

  function Step(s: Session, e: Event): Session {
    match e
    case Create(linked) => CreateChannel(s, linked)
    case Association(connected, links) => AssociationChanged(s, connected, links)
    case PadAdded(id) => AddPad(s, id)
    case PadRemoved(id) => RemovePad(s, id)
    case Negotiated(id) => NegotiatedChannel(s, id)
  }

  function Run(s: Session, es: seq<Event>): Session
    decreases |es|
  {
    if es == [] then s else Run(Step(s, es[0]), es[1..])
  }

  // ---- What every run keeps ----

  predicate OwnParity(client: bool, id: UInt32) { id % 2 == if client then 0 else 1 }

  predicate Invariant(s: Session) {
    && s.evenId % 2 == 0 && s.oddId % 2 == 1
    && (forall id :: id in s.dataChannels ==>
          if s.dataChannels[id].Local? then OwnParity(s.client, id) && id <= Cursor(s)
          else !OwnParity(s.client, id) && id < RESERVED_ID)
    && (forall id :: id in s.pending ==> id == Cursor(s))
    && (s.pending != [] ==> !s.established && Cursor(s) !in s.dataChannels)
  }

  lemma {:induction false} FlushKeys(table: map<UInt32, Origin>, pending: seq<UInt32>, links: seq<bool>)
    ensures forall id :: id in Flush(table, pending, links) ==>
              (id in table && Flush(table, pending, links)[id] == table[id])
              || (id in pending && Flush(table, pending, links)[id] == Local)
    decreases |pending|
  {
    if pending != [] {
      var table' := if links != [] && links[0] then table[pending[0] := Local] else table;
      FlushKeys(table', pending[1..], if links == [] then [] else links[1..]);
    }
  }

  /** Picking twice without linking in between gives the same id. */
  lemma PickAgain(used: set<UInt32>, from: UInt32)
    requires from !in used
    ensures FirstFree(used, from) == from
  {
  }

  /** The cursor fits a stream number, which has 16 bits. */
  predicate Fits(s: Session) { Cursor(s) <= 0xFFFF }

  /** A session never numbers past the id after its cursor: the search ends after at most one
      step, on the least unused id of its parity from the cursor on. */
  lemma PickIsNear(s: Session)
    requires Invariant(s) && Fits(s)
    ensures HasFree(s.dataChannels.Keys, Cursor(s)) && Picked(s) !in s.dataChannels
    ensures Picked(s) == if Cursor(s) in s.dataChannels then Cursor(s) + 2 else Cursor(s)
  {
    var used, from := s.dataChannels.Keys, Cursor(s);
    assert Nth(from, 0) == from && Nth(from, 1) == from + 2;
    assert from + 2 !in used;
    if from !in used {
      PickAgain(used, from);
    } else {
      assert FreeIndex(used, from, 0) == FreeIndex(used, from, 1) == 1;
    }
  }

  lemma CreateKeeps(s: Session, linked: bool)
    requires Invariant(s) && Fits(s)
    ensures Invariant(CreateChannel(s, linked)) && Cursor(CreateChannel(s, linked)) == Picked(s)
    ensures OwnParity(s.client, Picked(s)) && Picked(s) !in s.dataChannels
  {
    PickIsNear(s);
  }

  lemma AssociationKeeps(s: Session, connected: bool, links: seq<bool>)
    requires Invariant(s)
    ensures Invariant(AssociationChanged(s, connected, links))
  {
    FlushKeys(s.dataChannels, s.pending, links);
  }

  /** Every event keeps the table split between own and foreign ids, with no own id past the
      cursor; only a creation moves the cursor, up by at most two. */
  lemma StepKeeps(s: Session, e: Event)
    requires Invariant(s) && Fits(s)
    ensures Invariant(Step(s, e)) && Step(s, e).client == s.client
    ensures Cursor(s) <= Cursor(Step(s, e)) <= Cursor(s) + (if e.Create? then 2 else 0)
  {
    match e {
      case Create(linked) => PickIsNear(s); CreateKeeps(s, linked);
      case Association(connected, links) => AssociationKeeps(s, connected, links);
      case PadAdded(_) =>
      case PadRemoved(_) =>
      case Negotiated(_) =>
    }
  }

  /** The cursor fits a stream number at every point of the run. */
  predicate RunFits(s: Session, es: seq<Event>)
    decreases |es|
  {
    Fits(s) && (es != [] ==> RunFits(Step(s, es[0]), es[1..]))
  }

  function Creations(es: seq<Event>): nat {
    if es == [] then 0 else (if es[0].Create? then 1 else 0) + Creations(es[1..])
  }

  /** It does so, however long the run, up to half of the 65536 stream numbers. */
  lemma {:induction false} CreationsFit(s: Session, es: seq<Event>)
    requires Invariant(s) && Cursor(s) + 2 * Creations(es) <= 0xFFFF
    ensures RunFits(s, es)
    decreases |es|
  {
    if es != [] {
      StepKeeps(s, es[0]);
      CreationsFit(Step(s, es[0]), es[1..]);
    }
  }

  lemma {:induction false} RunKeeps(s: Session, es: seq<Event>)
    requires Invariant(s) && RunFits(s, es)
    ensures Invariant(Run(s, es)) && Fits(Run(s, es)) && Run(s, es).client == s.client
    ensures Cursor(s) <= Cursor(Run(s, es))
    decreases |es|
  {
    if es != [] {
      StepKeeps(s, es[0]);
      RunKeeps(Step(s, es[0]), es[1..]);
    }
  }

  lemma {:induction false} RunSplits(s: Session, es: seq<Event>, fs: seq<Event>)
    requires RunFits(s, es + fs)
    ensures RunFits(s, es) && RunFits(Run(s, es), fs) && Run(s, es + fs) == Run(Run(s, es), fs)
    decreases |es|
  {
    if es == [] {
      assert es + fs == fs;
    } else {
      assert (es + fs)[1..] == es[1..] + fs;
      RunSplits(Step(s, es[0]), es[1..], fs);
    }
  }

  /** The pick is the least unused id of the role's parity from the cursor on, and the cursor
      stays there. */
  predicate PicksLeast(s: Session, linked: bool, id: UInt32) {
    && HasFree(s.dataChannels.Keys, Cursor(s))
    && OwnParity(s.client, Picked(s)) && Picked(s) !in s.dataChannels && Picked(s) >= Cursor(s)
    && (Cursor(s) <= id < Picked(s) && OwnParity(s.client, id) ==> id in s.dataChannels)
    && Cursor(CreateChannel(s, linked)) == Picked(s)
  }

  lemma PickIsLeast(s: Session, linked: bool, id: UInt32)
    requires Invariant(s) && Fits(s)
    ensures PicksLeast(s, linked, id)
  {
    PickIsNear(s);
    CreateKeeps(s, linked);
  }

  /** At any point of a run the search for an id ends, and gives the least unused id from the
      cursor on; whatever happens afterwards, the cursor never moves back. */
  lemma PicksOnRuns(client: bool, es: seq<Event>, fs: seq<Event>, linked: bool, id: UInt32)
    requires RunFits(Init(client), es + fs)
    ensures PicksLeast(Run(Init(client), es), linked, id) && Run(Init(client), es).client == client
    ensures Cursor(Run(Init(client), es)) <= Cursor(Run(Init(client), es + fs))
  {
    RunSplits(Init(client), es, fs);
    RunKeeps(Init(client), es);
    RunKeeps(Run(Init(client), es), fs);
    PickIsLeast(Run(Init(client), es), linked, id);
  }

  function LocalIds(s: Session): set<UInt32> {
    set id | id in s.dataChannels && s.dataChannels[id].Local?
  }

  function RemoteIds(s: Session): set<UInt32> {
    set id | id in s.dataChannels && s.dataChannels[id].Remote?
  }

  /** Two sessions of opposite roles never number two channels alike: what each made
      itself differs from what the other made and from what it accepted. */
  lemma NumberingIsSplit(es: seq<Event>, fs: seq<Event>)
    requires RunFits(Init(true), es) && RunFits(Init(false), fs)
    ensures var client, server := Run(Init(true), es), Run(Init(false), fs);
            LocalIds(client) !! LocalIds(server)
            && LocalIds(client) !! RemoteIds(client) && LocalIds(server) !! RemoteIds(server)
  {
    RunKeeps(Init(true), es);
    RunKeeps(Init(false), fs);
  }

  /** With the association up, the id handed out is in no use at all, on either side of
      the table, and the peer accepts a stream of that number if and only if it is one
      SCTP can carry. */
  lemma PickedIsAccepted(client: bool, es: seq<Event>)
    requires RunFits(Init(client), es + [Create(true)])
    requires Run(Init(client), es).established
    ensures var s := Run(Init(client), es);
            && Picked(s) !in s.dataChannels
            && Step(s, Create(true)).dataChannels == s.dataChannels[Picked(s) := Local]
            && Picked(s) < 0x1_0000 && (IsValidRemoteId(!client, Picked(s)) <==> Picked(s) != RESERVED_ID)
  {
    RunSplits(Init(client), es, [Create(true)]);
    RunKeeps(Init(client), es);
    CreateKeeps(Run(Init(client), es), true);
    assert [Create(true)][1..] == [];
  }

  lemma {:induction false} FlushSame(table: map<UInt32, Origin>, pending: seq<UInt32>, links: seq<bool>, id: UInt32)
    requires (forall x :: x in pending ==> x == id) && |links| == |pending| && (forall b :: b in links ==> b)
    ensures Flush(table, pending, links) == if pending == [] then table else table[id := Local]
    decreases |pending|
  {
    if pending != [] {
      assert links[0] in links && pending[0] in pending;
      assert forall x :: x in pending[1..] ==> x in pending;
      assert forall b :: b in links[1..] ==> b in links;
      FlushSame(table[id := Local], pending[1..], links[1..], id);
    }
  }

  /** Channels asked for before the association share one id, so that all of them together
      get one place in the table: each gets its own if and only if at most one waits. */
  lemma WaitingChannelsShareAnId(client: bool, es: seq<Event>, links: seq<bool>)
    requires RunFits(Init(client), es)
    requires |links| == |Run(Init(client), es).pending| && forall b :: b in links ==> b
    ensures var s := Run(Init(client), es);
            var filed := AssociationChanged(s, true, links).dataChannels;
            && (forall i, j :: 0 <= i < |s.pending| && 0 <= j < |s.pending| ==> s.pending[i] == s.pending[j])
            && |filed| == |s.dataChannels| + (if s.pending == [] then 0 else 1)
            && (|filed| == |s.dataChannels| + |s.pending| <==> |s.pending| <= 1)
  {
    RunKeeps(Init(client), es);
    var s := Run(Init(client), es);
    forall i | 0 <= i < |s.pending|
      ensures s.pending[i] == Cursor(s)
    {
      assert s.pending[i] in s.pending;
    }
    FlushSame(s.dataChannels, s.pending, links, Cursor(s));
  }
}
