/** What the composite grid looks like: tiles in reading order, as large as they can be, and on
    every run each input port in the tile of its place among the others. */
module CompositeRules {
  import opened CompositeGrid
  import opened CompositePorts

  // ---- Tiles ----

  lemma LargestShare(size: nat, count: nat)
    requires count > 0
    ensures (size / count) * count <= size < (size / count + 1) * count
  {
    Quotient(size, count);
    assert (size / count + 1) * count == (size / count) * count + count;
  }

  /** Tiles are as wide and as high as columns and rows of equal size can be. */
  lemma TilesAreLargest(n: nat, width: nat, height: nat, k: nat)
    requires n > 0
    ensures var t := Tile(n, width, height, k);
            && t.width * Columns(n) <= width < (t.width + 1) * Columns(n)
            && t.height * Rows(n) <= height < (t.height + 1) * Rows(n)
  {
    LargestShare(width, Columns(n));
    LargestShare(height, Rows(n));
  }

  lemma NextCell(k: nat, c: nat)
    requires c > 0
    ensures 0 <= k % c && 0 <= k / c
    ensures if (k + 1) % c == 0 then k % c == c - 1 && (k + 1) / c == k / c + 1
            else (k + 1) % c == k % c + 1 && (k + 1) / c == k / c
  {
    Quotient(k, c);
    Quotient(k + 1, c);
    var q, r := k / c, k % c;
    if r + 1 < c {
      SameQuotient(k + 1, c, q, r + 1);
    } else {
      assert (q + 1) * c == q * c + c;
      SameQuotient(k + 1, c, q + 1, 0);
    }
  }

  lemma SameQuotient(x: nat, d: nat, q: nat, r: nat)
    requires d > 0 && x == q * d + r && r < d
    ensures x / d == q && x % d == r
  {
    Quotient(x, d);
    var p := x / d;
    assert (p + 1) * d == p * d + d && (q + 1) * d == q * d + d;
    FactorBelow(p, q + 1, d);
    FactorBelow(q, p + 1, d);
  }

  lemma NextShare(i: nat, count: nat, size: nat)
    requires count > 0
    ensures Share(i + 1, count, size) == Share(i, count, size) + size / count
    ensures Share(0, count, size) == 0
  {
    assert (i + 1) * (size / count) == i * (size / count) + size / count;
  }

  /** The first tile is in the corner; the next one is directly to the right, or, after a row of
      as many tiles as there are columns, at the left edge directly below. */
  lemma ReadingOrder(n: nat, width: nat, height: nat, k: nat)
    requires n > 0
    ensures var t := Tile(n, width, height, 0); t.left == 0 && t.top == 0
    ensures var t, next := Tile(n, width, height, k), Tile(n, width, height, k + 1);
            if (k + 1) % Columns(n) != 0 then next.left == t.left + t.width && next.top == t.top
            else next.left == 0 && next.top == t.top + t.height
  {
    var c, r := Columns(n), Rows(n);
    NextCell(k, c);
    NextShare(k % c, c, width);
    NextShare(k / c, r, height);
    SameQuotient(0, c, 0, 0);
    NextShare(0, r, height);
  }

  // ---- Layout ----

  /** Every input port is in the tile of its place among the input ports, of a grid for as many
      as there are. */
  predicate Arranged(m: Mixer) {
    && m.nElems == |Inputs(m.ports)|
    && forall id :: id in Inputs(m.ports) ==>
         id in m.tiles && m.tiles[id] == Tile(m.nElems, m.width, m.height, Rank(m.ports, id))
  }

  lemma LayoutArranges(m: Mixer)
    requires m.nElems == |Inputs(m.ports)|
    ensures Arranged(Layout(m))
  {
    if m.nElems == 0 {
      assert Inputs(m.ports) == {};
    }
  }

  /** Ports that are not shown do not matter. */
  lemma SameRanks(ports: map<nat, Port>, ports': map<nat, Port>)
    requires Inputs(ports) == Inputs(ports')
    ensures forall id: nat :: Rank(ports, id) == Rank(ports', id)
  {
    forall id: nat
      ensures Rank(ports, id) == Rank(ports', id)
    {
      forall j
        ensures j in Below(ports, id) <==> j in Below(ports', id)
      {
        assert j in Inputs(ports) <==> j in Inputs(ports');
      }
      assert Below(ports, id) == Below(ports', id);
    }
  }

  lemma StaysArranged(m: Mixer, m': Mixer)
    requires Arranged(m) && Inputs(m.ports) == Inputs(m'.ports)
    requires m'.nElems == m.nElems && m'.tiles == m.tiles && m'.width == m.width && m'.height == m.height
    ensures Arranged(m')
  {
    SameRanks(m.ports, m'.ports);
  }

  lemma StartArranges(m: Mixer, id: nat)
    requires Arranged(m)
    ensures Arranged(Start(m, id))
  {
    if id in m.ports && !m.ports[id].input {
      JoinedCounts(m, id);
      LayoutArranges(Joined(m, id));
    }
  }

  lemma UnhandleArranges(m: Mixer, id: nat)
    requires Arranged(m) && id in m.ports && !(m.ports[id].input && m.ports[id].eos)
    ensures Arranged(Unhandle(m, id))
  {
    UnhandleCounts(m, id);
    var rest := m.(ports := m.ports - {id});
    if m.ports[id].input {
      assert id in Inputs(m.ports);
      assert Inputs(rest.ports) == Inputs(m.ports) - {id};
      LayoutArranges(rest.(nElems := m.nElems - 1));
    } else {
      assert Inputs(rest.ports) == Inputs(m.ports);
      StaysArranged(m, rest);
    }
  }

  lemma StepArranges(m: Mixer, e: Event)
    requires Arranged(m) && !Leaks(m, e)
    ensures Arranged(Step(m, e))
  {
    match e
    case HandlePort(id) => HandleCounts(m, id); StaysArranged(m, Handle(m, id));
    case StreamStart(id) => StartArranges(m, id);
    case PortEos(id, e) => EosCounts(m, id, e); StaysArranged(m, MoveEos(m, id, e));
    case UnhandlePort(id) => if id in m.ports { UnhandleArranges(m, id); }
    case LateStart =>
  }

  lemma {:induction false} RunArranges(m: Mixer, es: seq<Event>)
    requires Arranged(m) && LeakCount(m, es) == 0
    ensures Arranged(Run(m, es))
    ensures Run(m, es).width == m.width && Run(m, es).height == m.height
    decreases |es|
  {
    if es != [] {
      StepArranges(m, es[0]);
      RunArranges(Step(m, es[0]), es[1..]);
    }
  }

  /** On every run on which nothing leaks, the grid is that of the input ports there are, and
      each of them has the tile of its place among them in the order of their ids. */
  lemma AlwaysArranged(width: nat, height: nat, es: seq<Event>)
    requires LeakCount(NewMixer(width, height), es) == 0
    ensures var m := Run(NewMixer(width, height), es);
            forall id :: id in Inputs(m.ports) ==>
              id in m.tiles && m.tiles[id] == Tile(|Inputs(m.ports)|, width, height, Rank(m.ports, id))
  {
    assert Inputs(NewMixer(width, height).ports) == {};
    RunArranges(NewMixer(width, height), es);
  }

  // ---- Ports of the table ----

  /** A port of the table is linked, not on its way out, and watched exactly once it carries
      video. */
  predicate AtHome(p: Port) {
    p.linked && !p.removing && p.scheduled == 0 && (p.probed <==> p.input) && (p.inTransit ==> p.eos)
  }

  predicate AllAtHome(m: Mixer) { forall id :: id in m.ports ==> AtHome(m.ports[id]) }

  lemma LayoutKeepsPorts(m: Mixer, counted: bool)
    ensures Layout(m).ports == m.ports && Uncounted(m, counted).ports == m.ports
  {
  }

  lemma StepAtHome(m: Mixer, e: Event)
    requires AllAtHome(m)
    ensures AllAtHome(Step(m, e))
  {
    if e.UnhandlePort? && e.id in m.ports {
      LayoutKeepsPorts(m.(ports := m.ports - {e.id}), m.ports[e.id].input && !m.ports[e.id].eos);
    }
  }

  lemma {:induction false} RunAtHome(m: Mixer, es: seq<Event>)
    requires AllAtHome(m)
    ensures AllAtHome(Run(m, es))
    decreases |es|
  {
    if es != [] {
      StepAtHome(m, es[0]);
      RunAtHome(Step(m, es[0]), es[1..]);
    }
  }

  /** On every run no port of the table is on its way out, and exactly those with video are
      watched. */
  lemma TablePortsAtHome(width: nat, height: nat, es: seq<Event>, id: nat)
    requires id in Run(NewMixer(width, height), es).ports
    ensures AtHome(Run(NewMixer(width, height), es).ports[id])
  {
    RunAtHome(NewMixer(width, height), es);
  }

  /** The port has been handled and not taken out since. */
  predicate InTable(es: seq<Event>, id: nat) {
    es != [] &&
    match es[|es| - 1]
    case HandlePort(n) => n == id || InTable(es[..|es| - 1], id)
    case UnhandlePort(n) => n != id && InTable(es[..|es| - 1], id)
    case _ => InTable(es[..|es| - 1], id)
  }

  lemma {:induction false} RunLast(m: Mixer, es: seq<Event>)
    requires es != []
    ensures Run(m, es) == Step(Run(m, es[..|es| - 1]), es[|es| - 1])
    decreases |es|
  {
    if |es| > 1 {
      RunLast(Step(m, es[0]), es[1..]);
      assert es[1..][..|es| - 2] == es[..|es| - 1][1..];
    } else {
      assert es[..0] == [] && es[1..] == [];
    }
  }

  lemma StepTable(m: Mixer, e: Event, id: nat)
    ensures id in Step(m, e).ports <==>
            (e.HandlePort? && e.id == id) || (id in m.ports && !(e.UnhandlePort? && e.id == id))
  {
    if e.UnhandlePort? && e.id in m.ports {
      LayoutKeepsPorts(m.(ports := m.ports - {e.id}), m.ports[e.id].input && !m.ports[e.id].eos);
    }
  }

  /** On every run the table holds just the ports that were handled and not taken out since. */
  lemma {:induction false} TableExactly(width: nat, height: nat, es: seq<Event>, id: nat)
    ensures id in Run(NewMixer(width, height), es).ports <==> InTable(es, id)
    decreases |es|
  {
    if es != [] {
      RunLast(NewMixer(width, height), es);
      TableExactly(width, height, es[..|es| - 1], id);
      StepTable(Run(NewMixer(width, height), es[..|es| - 1]), es[|es| - 1], id);
    }
  }

  /** The EOS events of one port. */
  function EosOf(es: seq<Event>, id: nat): seq<PortEvent> {
    if es == [] then []
    else
      (if es[0].PortEos? && es[0].id == id && (es[0].e.Upstream? || es[0].e.Crosses?) then [es[0].e] else [])
      + EosOf(es[1..], id)
  }

  lemma StepPort(m: Mixer, e: Event, id: nat)
    requires id in m.ports && m.ports[id].input && !(e.UnhandlePort? && e.id == id)
    ensures id in Step(m, e).ports
    ensures Step(m, e).ports[id]
         == if EosOf([e], id) == [] then m.ports[id] else PortStep(m.ports[id], EosOf([e], id)[0])
  {
    assert EosOf([e][1..], id) == [];
    if e.UnhandlePort? && e.id in m.ports {
      LayoutKeepsPorts(m.(ports := m.ports - {e.id}), m.ports[e.id].input && !m.ports[e.id].eos);
    }
  }

  lemma EosOfFirst(es: seq<Event>, id: nat)
    requires es != []
    ensures EosOf(es, id) == EosOf([es[0]], id) + EosOf(es[1..], id) && |EosOf([es[0]], id)| <= 1
  {
    assert EosOf([es[0]][1..], id) == [];
  }

  lemma StartedLinks(m: Mixer, id: nat)
    requires id !in m.ports
    ensures var m' := Step(Step(m, HandlePort(id)), StreamStart(id)); id in m'.ports && m'.ports[id] == Started()
  {
    LayoutKeepsPorts(Joined(Handle(m, id), id), false);
  }

  lemma {:induction false} PortRuns(m: Mixer, es: seq<Event>, id: nat)
    requires id in m.ports && m.ports[id].input && forall e :: e in es ==> !(e.UnhandlePort? && e.id == id)
    ensures id in Run(m, es).ports && Run(m, es).ports[id] == PortRun(m.ports[id], EosOf(es, id))
    decreases |es|
  {
    if es != [] {
      assert es[0] in es && forall e :: e in es[1..] ==> e in es;
      StepPort(m, es[0], id);
      EosOfFirst(es, id);
      PortOfOne(m.ports[id], EosOf([es[0]], id), EosOf(es[1..], id));
      StaysInput(m.ports[id], EosOf([es[0]], id));
      PortRuns(Step(m, es[0]), es[1..], id);
    }
  }

  lemma StaysInput(p: Port, first: seq<PortEvent>)
    requires p.input && |first| <= 1
    ensures first != [] ==> PortStep(p, first[0]).input
  {
  }

  lemma PortOfOne(p: Port, first: seq<PortEvent>, rest: seq<PortEvent>)
    requires |first| <= 1
    ensures PortRun(p, first + rest) == if first == [] then PortRun(p, rest) else PortRun(PortStep(p, first[0]), rest)
  {
    if first == [] {
      assert first + rest == rest;
    } else {
      assert (first + rest)[1..] == rest;
    }
  }

  /** A port of the table is the machine that its teardown is proved about: from the start of its
      stream until it is taken out, whatever happens to the other ports, it is where its own EOS
      events have brought it. */
  lemma TablePortRuns(m: Mixer, es: seq<Event>, id: nat)
    requires id !in m.ports && forall e :: e in es ==> !(e.UnhandlePort? && e.id == id)
    ensures var m' := Run(Step(Step(m, HandlePort(id)), StreamStart(id)), es);
            id in m'.ports && m'.ports[id] == PortRun(Started(), EosOf(es, id))
  {
    StartedLinks(m, id);
    PortRuns(Step(Step(m, HandlePort(id)), StreamStart(id)), es, id);
  }

  /** However many EOS reach the mixer pad of a port that is removed, it is scheduled once. */
  lemma ScheduledOnce(p: Port)
    requires p.removing
    ensures EosReceived(EosReceived(p)) == EosReceived(p)
    ensures EosReceived(p).scheduled == p.scheduled + (if p.probed then 1 else 0)
  {
  }

  lemma {:induction false} UnwatchedStays(p: Port, es: seq<PortEvent>)
    requires p.removing && !p.probed
    ensures PortRun(p, es).scheduled == p.scheduled
    decreases |es|
  {
    if es != [] {
      UnwatchedStays(PortStep(p, es[0]), es[1..]);
    }
  }

  /** A port that never carried video is not scheduled at all, whatever EOS comes. */
  lemma WithoutVideo(p: Port, es: seq<PortEvent>)
    requires !p.input && !p.removing
    ensures PortRun(Destroy(p), es).scheduled == p.scheduled
  {
    UnwatchedStays(Destroy(p), es);
  }
}
