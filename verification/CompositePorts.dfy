/** The composite mixer: its table of ports, the count behind the grid, and how a port that
    carried video is taken down. */
module CompositePorts {
  import opened CompositeGrid

  /** A port. eos is the flag on its capsfilter, inTransit an EOS past the capsfilter that has
      not reached the mixer pad, linked whether it still can; probed whether the mixer pad is
      watched, and scheduled how often its removal from the pipeline has been asked for. */
  datatype Port = Port(
    input: bool, removing: bool, eosManaged: bool, probed: bool,
    eos: bool, inTransit: bool, linked: bool, scheduled: nat)

  function NewPort(): Port {
    Port(false, false, false, false, false, false, true, 0)
  }

  // ---- One port and its EOS ----

  /** The callback on the mixer pad. */
  function EosReceived(p: Port): Port {
    if !p.probed then p
    else if !p.removing then p.(eosManaged := true)
    else p.(probed := false, scheduled := p.scheduled + 1)
  }

  /** EOS from upstream; a capsfilter that has seen one takes no other. */
  function UpstreamEos(p: Port): Port {
    if p.eos then p else p.(eos := true, inTransit := true)
  }

  /** The EOS arrives at the mixer pad, or nowhere if the link is gone. */
  function EosCrosses(p: Port): Port {
    if !p.inTransit then p
    else if p.linked then EosReceived(p.(inTransit := false))
    else p.(inTransit := false)
  }

  /** The part of a removal under the mixer's lock: a port without EOS is sent one, a port
      whose EOS the mixer pad has seen is taken down directly. */
  function Destroy(p: Port): Port {
    var p1 := p.(removing := true);
    if !p.input then p1.(probed := false)
    else if !p.eos then EosReceived(p1.(eos := true))
    else if p.eosManaged then p1.(scheduled := p.scheduled + 1)
    else p1
  }

  /** The end of a removal: capsfilter and tee are unlinked. */
  function Unlink(p: Port): Port {
    if p.removing then p.(linked := false) else p
  }

  datatype PortEvent = Upstream | Crosses | Removed | Unlinked

  function PortStep(p: Port, e: PortEvent): Port {
    match e
    case Upstream => UpstreamEos(p)
    case Crosses => EosCrosses(p)
    case Removed => if p.removing then p else Destroy(p)
    case Unlinked => Unlink(p)
  }

  function PortRun(p: Port, es: seq<PortEvent>): Port
    decreases |es|
  {
    if es == [] then p else PortRun(PortStep(p, es[0]), es[1..])
  }

  /** The removal unlinks a port whose EOS is between capsfilter and mixer pad. */
  predicate CutsEos(p: Port, e: PortEvent) {
    e.Unlinked? && p.removing && p.linked && p.inTransit
  }

  predicate NeverCut(p: Port, es: seq<PortEvent>)
    decreases |es|
  {
    es != [] ==> !CutsEos(p, es[0]) && NeverCut(PortStep(p, es[0]), es[1..])
  }

  /** A port that has just been linked to the mixer. */
  function Started(): Port {
    NewPort().(input := true, probed := true)
  }

  /** A port on its way, no EOS of its own cut off. */
  predicate OnItsWay(p: Port) {
    && p.input && (p.inTransit ==> p.eos)
    && (!p.removing ==> p.scheduled == 0 && p.probed && p.linked && (p.eosManaged <==> p.eos && !p.inTransit))
    && (p.removing ==>
          && p.eos
          && (p.inTransit ==> p.scheduled == 0 && p.probed && p.linked)
          && (!p.inTransit ==> p.scheduled == 1))
  }

  /** A port whose EOS is lost. */
  predicate CutOff(p: Port) {
    p.removing && p.eos && !p.linked && p.scheduled == 0
  }

  lemma PortStepKeeps(p: Port, e: PortEvent)
    ensures OnItsWay(p) && !CutsEos(p, e) ==> OnItsWay(PortStep(p, e))
    ensures OnItsWay(p) && CutsEos(p, e) ==> CutOff(PortStep(p, e))
    ensures CutOff(p) ==> CutOff(PortStep(p, e))
  {
  }

  lemma {:induction false} PortRunKeeps(p: Port, es: seq<PortEvent>)
    ensures OnItsWay(p) && NeverCut(p, es) ==> OnItsWay(PortRun(p, es))
    ensures OnItsWay(p) && !NeverCut(p, es) ==> CutOff(PortRun(p, es))
    ensures CutOff(p) ==> CutOff(PortRun(p, es))
    decreases |es|
  {
    if es != [] {
      PortStepKeeps(p, es[0]);
      PortRunKeeps(PortStep(p, es[0]), es[1..]);
    }
  }

  /** However an EOS from upstream and the removal of a port interleave, the port is scheduled
      for removal from the pipeline at most once, not before it is removed, and, with nothing
      left in transit, exactly once if and only if the removal did not cut an EOS off between
      the capsfilter and the mixer pad. */
  lemma TornDownExactly(es: seq<PortEvent>)
    ensures var p := PortRun(Started(), es);
            && p.scheduled <= (if p.removing then 1 else 0)
            && (p.removing && !p.inTransit ==> (p.scheduled == 1 <==> NeverCut(Started(), es)))
  {
    PortRunKeeps(Started(), es);
  }

  /** An EOS that is past the capsfilter when the port is removed, and not at the mixer pad
      when it is unlinked: the port is never taken down. */
  lemma LeftInThePipeline()
    ensures var p := PortRun(Started(), [Upstream, Removed, Unlinked, Crosses]);
            p.removing && !p.inTransit && p.scheduled == 0
  {
    var p0 := Started();
    var p1, p2 := UpstreamEos(p0), Destroy(UpstreamEos(p0));
    assert PortRun(p2, [Unlinked, Crosses]) == PortRun(Unlink(p2), [Crosses]);
    assert PortRun(p0, [Upstream, Removed, Unlinked, Crosses]) == PortRun(p1, [Removed, Unlinked, Crosses]);
    assert PortRun(p1, [Removed, Unlinked, Crosses]) == PortRun(p2, [Unlinked, Crosses]);
  }

  // ---- The table ----

  /** tiles are the places the mixer pads were last given. */
  datatype Mixer = Mixer(
    ports: map<nat, Port>, tiles: map<nat, Rect>, nElems: int, width: nat, height: nat)

  function NewMixer(width: nat, height: nat): Mixer {
    Mixer(map[], map[], 0, width, height)
  }

  function Inputs(ports: map<nat, Port>): set<nat> {
    set id | id in ports && ports[id].input
  }

  /** The input ports with a smaller id. */
  function Below(ports: map<nat, Port>, id: nat): set<nat> {
    set j | j in ports && ports[j].input && j < id
  }

  function Rank(ports: map<nat, Port>, id: nat): nat {
    |Below(ports, id)|
  }

  /** The tiles once these ports have got the tile of their rank. */
  function Laid(m: Mixer, ids: set<nat>): map<nat, Rect>
    requires m.nElems > 0
  {
    m.tiles + map id | id in ids :: Tile(m.nElems, m.width, m.height, Rank(m.ports, id))
  }

  /** Every input port gets its tile. */
  function Layout(m: Mixer): Mixer {
    if m.nElems <= 0 then m else m.(tiles := Laid(m, Inputs(m.ports)))
  }

  /** LateStart is the stream of a port that is already out of the table. */
  datatype Event =
    | HandlePort(id: nat)
    | StreamStart(id: nat)
    | PortEos(id: nat, e: PortEvent)
    | UnhandlePort(id: nat)
    | LateStart

  function LinkToMixer(p: Port): Port {
    p.(input := true, probed := true)
  }

  /** One input port less in the count, if it was counted. */
  function Uncounted(m: Mixer, counted: bool): Mixer {
    if counted && m.nElems > 0 then Layout(m.(nElems := m.nElems - 1)) else m
  }

  function Unhandle(m: Mixer, id: nat): Mixer
    requires id in m.ports
  {
    Uncounted(m.(ports := m.ports - {id}), m.ports[id].input && !m.ports[id].eos)
  }

  function Handle(m: Mixer, id: nat): Mixer {
    if id in m.ports then m else m.(ports := m.ports[id := NewPort()])
  }

  function Joined(m: Mixer, id: nat): Mixer
    requires id in m.ports
  {
    m.(ports := m.ports[id := LinkToMixer(m.ports[id])], nElems := m.nElems + 1)
  }

  function Start(m: Mixer, id: nat): Mixer {
    if id !in m.ports || m.ports[id].input then m else Layout(Joined(m, id))
  }

  function MoveEos(m: Mixer, id: nat, e: PortEvent): Mixer {
    if id !in m.ports || !(e.Upstream? || e.Crosses?) then m
    else m.(ports := m.ports[id := PortStep(m.ports[id], e)])
  }

  function Late(m: Mixer): Mixer {
    m.(nElems := m.nElems + 1)
  }

  function Step(m: Mixer, e: Event): Mixer {
    match e
    case HandlePort(id) => Handle(m, id)
    case StreamStart(id) => Start(m, id)
    case PortEos(id, e) => MoveEos(m, id, e)
    case UnhandlePort(id) => if id in m.ports then Unhandle(m, id) else m
    case LateStart => Layout(Late(m))
  }

  function Run(m: Mixer, es: seq<Event>): Mixer
    decreases |es|
  {
    if es == [] then m else Run(Step(m, es[0]), es[1..])
  }

  // ---- The count ----

  /** A step after which the count stays ahead of the table: an input port is removed after
      its EOS, or a stream starts on a port that is already out. */
  predicate Leaks(m: Mixer, e: Event) {
    e.LateStart? || (e.UnhandlePort? && e.id in m.ports && m.ports[e.id].input && m.ports[e.id].eos)
  }

  function LeakCount(m: Mixer, es: seq<Event>): nat
    decreases |es|
  {
    if es == [] then 0
    else (if Leaks(m, es[0]) then 1 else 0) + LeakCount(Step(m, es[0]), es[1..])
  }

  lemma HandleCounts(m: Mixer, id: nat)
    ensures Inputs(Handle(m, id).ports) == Inputs(m.ports)
  {
  }

  lemma EosCounts(m: Mixer, id: nat, e: PortEvent)
    ensures Inputs(MoveEos(m, id, e).ports) == Inputs(m.ports)
  {
  }

  lemma JoinedCounts(m: Mixer, id: nat)
    requires id in m.ports && !m.ports[id].input
    ensures |Inputs(Joined(m, id).ports)| == |Inputs(m.ports)| + 1
  {
    assert Inputs(Joined(m, id).ports) == Inputs(m.ports) + {id};
  }

  lemma UnhandleCounts(m: Mixer, id: nat)
    requires id in m.ports && m.nElems >= |Inputs(m.ports)|
    ensures |Inputs(Unhandle(m, id).ports)| == if m.ports[id].input then |Inputs(m.ports)| - 1 else |Inputs(m.ports)|
    ensures Unhandle(m, id).nElems == if m.ports[id].input && !m.ports[id].eos then m.nElems - 1 else m.nElems
  {
    var rest := m.(ports := m.ports - {id});
    assert Inputs(rest.ports) == Inputs(m.ports) - {id};
    if m.ports[id].input {
      assert id in Inputs(m.ports);
    } else {
      assert Inputs(rest.ports) == Inputs(m.ports);
    }
  }

  lemma StepCounts(m: Mixer, e: Event)
    requires m.nElems >= |Inputs(m.ports)|
    ensures Step(m, e).nElems - |Inputs(Step(m, e).ports)|
         == m.nElems - |Inputs(m.ports)| + (if Leaks(m, e) then 1 else 0)
  {
    match e
    case HandlePort(id) => HandleCounts(m, id);
    case StreamStart(id) =>
      if id in m.ports && !m.ports[id].input {
        JoinedCounts(m, id);
      }
    case PortEos(id, e) => EosCounts(m, id, e);
    case UnhandlePort(id) => if id in m.ports { UnhandleCounts(m, id); }
    case LateStart =>
  }

  lemma {:induction false} RunCounts(m: Mixer, es: seq<Event>)
    requires m.nElems >= |Inputs(m.ports)|
    ensures Run(m, es).nElems == |Inputs(Run(m, es).ports)| + m.nElems - |Inputs(m.ports)| + LeakCount(m, es)
    decreases |es|
  {
    if es != [] {
      StepCounts(m, es[0]);
      RunCounts(Step(m, es[0]), es[1..]);
    }
  }

  /** On every run the count is the number of input ports plus the leaks: the input ports
      never outnumber it, and it is exact if and only if nothing leaked. */
  lemma CountedExactly(width: nat, height: nat, es: seq<Event>)
    ensures var m := Run(NewMixer(width, height), es);
            && |Inputs(m.ports)| <= m.nElems
            && m.nElems - |Inputs(m.ports)| == LeakCount(NewMixer(width, height), es)
  {
    assert Inputs(NewMixer(width, height).ports) == {};
    RunCounts(NewMixer(width, height), es);
  }

  // ---- The layout ----

  /** A rank is below the number of input ports, and grows with the id. */
  lemma RankGrows(ports: map<nat, Port>, id: nat)
    requires id in Inputs(ports)
    ensures Rank(ports, id) < |Inputs(ports)|
    ensures forall j :: j in Inputs(ports) && j < id ==> Rank(ports, j) < Rank(ports, id)
  {
    Smaller(Below(ports, id) + {id}, Inputs(ports));
    forall j | j in Inputs(ports) && j < id
      ensures Rank(ports, j) < Rank(ports, id)
    {
      Smaller(Below(ports, j) + {j}, Below(ports, id));
    }
  }

  lemma {:induction false} Smaller(a: set<nat>, b: set<nat>)
    requires a <= b
    ensures |a| <= |b|
    decreases b
  {
    if a != {} {
      var x :| x in a;
      Smaller(a - {x}, b - {x});
    }
  }

  predicate Ascending(ids: seq<nat>) {
    forall i, j :: 0 <= i < j < |ids| ==> ids[i] < ids[j]
  }

  /** The input ports among the first k of a list. */
  function Before(ports: map<nat, Port>, ids: seq<nat>, k: nat): set<nat>
    requires k <= |ids|
  {
    set j | j in ids[..k] && j in ports && ports[j].input
  }

  /** Walking any list of ports in the order of their ids, with all input ports in it, a port
      has the number of input ports before it as its rank: the order in which the table lists
      its ports does not matter. */
  lemma RankIsPosition(ports: map<nat, Port>, ids: seq<nat>, k: nat)
    requires k < |ids| && Ascending(ids) && forall id :: id in Inputs(ports) ==> id in ids
    ensures Rank(ports, ids[k]) == |Before(ports, ids, k)|
  {
    forall j
      ensures j in Before(ports, ids, k) <==> j in Below(ports, ids[k])
    {
      if j in Below(ports, ids[k]) {
        assert j in Inputs(ports);
        var i :| 0 <= i < |ids| && ids[i] == j;
        assert ids[..k][i] == j;
      }
    }
    assert Before(ports, ids, k) == Below(ports, ids[k]);
  }

  /** The input ports are shown side by side, inside the output. */
  predicate SideBySide(m: Mixer) {
    Tiled(Inputs(m.ports), m.tiles, m.width, m.height)
  }

  predicate Tiled(ids: set<nat>, tiles: map<nat, Rect>, width: nat, height: nat) {
    && ids <= tiles.Keys
    && (forall id :: id in ids ==> Inside(tiles[id], width, height))
    && (forall i, j :: i in ids && j in ids && i != j ==> Apart(tiles[i], tiles[j]))
  }

  lemma LayoutIsSideBySide(m: Mixer)
    requires |Inputs(m.ports)| <= m.nElems
    ensures SideBySide(Layout(m))
  {
    if m.nElems <= 0 {
      assert Inputs(m.ports) == {};
      return;
    }
    forall id | id in Inputs(m.ports)
      ensures Inside(Layout(m).tiles[id], m.width, m.height)
    {
      RankGrows(m.ports, id);
      TileInside(m.nElems, m.width, m.height, Rank(m.ports, id));
    }
    forall i, j | i in Inputs(m.ports) && j in Inputs(m.ports) && i != j
      ensures Apart(Layout(m).tiles[i], Layout(m).tiles[j])
    {
      RankGrows(m.ports, i);
      RankGrows(m.ports, j);
      TilesApart(m.nElems, m.width, m.height, Rank(m.ports, i), Rank(m.ports, j));
    }
  }

  lemma HandleStaysSideBySide(m: Mixer, id: nat)
    requires SideBySide(m)
    ensures SideBySide(Handle(m, id))
  {
    HandleCounts(m, id);
  }

  lemma EosStaysSideBySide(m: Mixer, id: nat, e: PortEvent)
    requires SideBySide(m)
    ensures SideBySide(MoveEos(m, id, e))
  {
    EosCounts(m, id, e);
  }

  lemma StartStaysSideBySide(m: Mixer, id: nat)
    requires |Inputs(m.ports)| <= m.nElems && SideBySide(m)
    ensures SideBySide(Start(m, id))
  {
    if id in m.ports && !m.ports[id].input {
      JoinedCounts(m, id);
      LayoutIsSideBySide(Joined(m, id));
    }
  }

  lemma RemovalStaysSideBySide(m: Mixer, id: nat)
    requires SideBySide(m) && id in m.ports
    ensures SideBySide(m.(ports := m.ports - {id}))
    ensures Inputs(m.ports - {id}) == Inputs(m.ports) - {id}
  {
    assert Inputs(m.ports - {id}) == Inputs(m.ports) - {id};
  }

  lemma UncountedStaysSideBySide(m: Mixer, counted: bool)
    requires SideBySide(m) && |Inputs(m.ports)| <= m.nElems - (if counted then 1 else 0)
    ensures SideBySide(Uncounted(m, counted))
  {
    if counted {
      LayoutIsSideBySide(m.(nElems := m.nElems - 1));
      assert Uncounted(m, counted) == Layout(m.(nElems := m.nElems - 1));
    } else {
      assert Uncounted(m, counted) == m;
    }
  }

  lemma UnhandleStaysSideBySide(m: Mixer, id: nat)
    requires |Inputs(m.ports)| <= m.nElems && SideBySide(m) && id in m.ports
    ensures SideBySide(Unhandle(m, id))
  {
    RemovalStaysSideBySide(m, id);
    if m.ports[id].input {
      assert id in Inputs(m.ports);
    }
    UncountedStaysSideBySide(m.(ports := m.ports - {id}), m.ports[id].input && !m.ports[id].eos);
  }

  lemma StepStaysSideBySide(m: Mixer, e: Event)
    requires |Inputs(m.ports)| <= m.nElems && SideBySide(m)
    ensures SideBySide(Step(m, e))
  {
    match e
    case HandlePort(id) => HandleStaysSideBySide(m, id);
    case StreamStart(id) => StartStaysSideBySide(m, id);
    case PortEos(id, e) => EosStaysSideBySide(m, id, e);
    case UnhandlePort(id) => if id in m.ports { UnhandleStaysSideBySide(m, id); }
    case LateStart => LayoutIsSideBySide(Late(m));
  }

  /** On every run, whatever has started, ended and gone, the input ports are shown inside
      the output and without overlap. */
  lemma AlwaysSideBySide(width: nat, height: nat, es: seq<Event>)
    ensures SideBySide(Run(NewMixer(width, height), es))
  {
    assert Inputs(NewMixer(width, height).ports) == {};
    RunStaysSideBySide(NewMixer(width, height), es);
  }

  lemma {:induction false} RunStaysSideBySide(m: Mixer, es: seq<Event>)
    requires |Inputs(m.ports)| <= m.nElems && SideBySide(m)
    ensures SideBySide(Run(m, es))
    decreases |es|
  {
    if es != [] {
      StepCounts(m, es[0]);
      StepStaysSideBySide(m, es[0]);
      RunStaysSideBySide(Step(m, es[0]), es[1..]);
    }
  }
}
