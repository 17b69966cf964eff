/** The style mixer's views in plain terms: who may be shown, who takes a view nobody named, and
    how the strips divide the output. */
module StyleRules {
  import opened CompositeGrid
  import opened StyleViews
  import opened Wrappers

  // ---- Who is shown ----

  /** View i is the one a port names: the first with the id it gives. */
  predicate Names(views: Views, p: Port, i: nat) {
    i < 4 && views[i].id == p.viewId && forall j :: 0 <= j < i ==> views[j].id != p.viewId
  }

  /** An input port may be shown unless the view it names is disabled. */
  lemma EligibleExactly(views: Views, p: Port)
    ensures Eligible(views, p) <==> p.input && forall i: nat :: Names(views, p, i) ==> views[i].enabled
    ensures forall i: nat :: Names(views, p, i) <==> i < 4 && ViewOf(views, p) == i
  {
    var v := ViewOf(views, p);
    if v < 4 {
      assert Names(views, p, v);
    }
  }

  /** Port p is an input port that names view i, which is enabled. */
  predicate Claims(views: Views, ports: seq<Port>, p: nat, i: nat) {
    p < |ports| && i < 4 && ports[p].input && Names(views, ports[p], i) && views[i].enabled
  }

  lemma ClaimsExactly(views: Views, ports: seq<Port>, p: nat, i: nat)
    requires p < |ports| && i < 4
    ensures Claims(views, ports, p, i) <==> Eligible(views, ports[p]) && ViewOf(views, ports[p]) == i
  {
    EligibleExactly(views, ports[p]);
  }

  /** A view that is claimed shows the first port that claims it. */
  lemma {:induction false} ClaimedExactly(views: Views, ports: seq<Port>, i: nat)
    requires i < 4
    ensures var named := NamedBy(views, ports, i);
            && (named.Some? <==> exists p: nat :: Claims(views, ports, p, i))
            && (named.Some? ==>
                  && Assigned(views, ports)[i] == named && Claims(views, ports, named.value, i)
                  && forall q: nat :: Claims(views, ports, q, i) ==> named.value <= q)
  {
    forall p: nat | p < |ports|
      ensures Claims(views, ports, p, i) <==> Eligible(views, ports[p]) && ViewOf(views, ports[p]) == i
    {
      ClaimsExactly(views, ports, p, i);
    }
    FillAt(Mapped(views, ports), Kept(views, ports), i);
    MappedAt(views, ports, i);
  }

  /** A spare port may be shown and has no view of its own: it names none, or one that an earlier
      port has claimed. */
  ghost predicate IsSpare(views: Views, ports: seq<Port>, p: nat) {
    && p < |ports| && ports[p].input
    && (forall i: nat :: Names(views, ports[p], i) ==> views[i].enabled)
    && (forall i: nat :: Names(views, ports[p], i) ==> exists q: nat :: q < p && Claims(views, ports, q, i))
  }

  lemma {:induction false} EarlierClaim(views: Views, ports: seq<Port>, p: nat, i: nat)
    requires p < |ports| && i < 4
    ensures NamedBy(views, ports[..p], i).Some? <==> exists q: nat :: q < p && Claims(views, ports, q, i)
  {
    ClaimedExactly(views, ports[..p], i);
    if q: nat :| q < p && Claims(views, ports, q, i) {
      assert Claims(views, ports[..p], q, i);
    } else if NamedBy(views, ports[..p], i).Some? {
      assert Claims(views, ports, NamedBy(views, ports[..p], i).value, i);
    }
  }

  lemma {:induction false} LateExactly(views: Views, ports: seq<Port>, p: nat)
    requires p < |ports|
    ensures Late(views, ports, p) <==> IsSpare(views, ports, p)
  {
    EligibleExactly(views, ports[p]);
    var v := ViewOf(views, ports[p]);
    if v < 4 {
      EarlierClaim(views, ports, p, v);
      assert Names(views, ports[p], v);
    }
  }

  lemma JoinsSpare(before: seq<nat>, after: seq<nat>, last: nat, joins: bool, p: nat)
    requires after == if joins then before + [last] else before
    ensures p in after <==> p in before || (joins && p == last)
  {
  }

  /** Port p is among the spare ports of the first n. */
  predicate SetAside(views: Views, ports: seq<Port>, n: nat, p: nat)
    requires n <= |ports|
  {
    p in Spare(views, ports[..n])
  }

  lemma {:induction false} SetAsideNext(views: Views, ports: seq<Port>, n: nat, p: nat)
    requires n < |ports|
    ensures SetAside(views, ports, n + 1, p) <==> SetAside(views, ports, n, p) || (Late(views, ports, n) && p == n)
  {
    SpareNext(views, ports, n);
    JoinsSpare(Spare(views, ports[..n]), Spare(views, ports[..n + 1]), n, Late(views, ports, n), p);
  }

  lemma {:induction false} SpareComplete(views: Views, ports: seq<Port>, n: nat, p: nat)
    requires p < n <= |ports| && Late(views, ports, p)
    ensures SetAside(views, ports, n, p)
    decreases n
  {
    SetAsideNext(views, ports, n - 1, p);
    if p < n - 1 {
      SpareComplete(views, ports, n - 1, p);
    }
  }

  /** The list of spare ports is just those, in order. */
  lemma {:induction false} SpareExactly(views: Views, ports: seq<Port>, p: nat)
    ensures p in Spare(views, ports) <==> IsSpare(views, ports, p)
    ensures forall j, k :: 0 <= j < k < |Spare(views, ports)| ==> Spare(views, ports)[j] < Spare(views, ports)[k]
  {
    if p < |ports| {
      LateExactly(views, ports, p);
      if Late(views, ports, p) {
        SpareComplete(views, ports, |ports|, p);
        assert ports[..|ports|] == ports;
      }
    }
  }

  /** How many of the views before i nobody claims. */
  function Unclaimed(views: Views, ports: seq<Port>, i: nat): nat
    requires i <= 4
  {
    if i == 0 then 0
    else Unclaimed(views, ports, i - 1) + (if NamedBy(views, ports, i - 1).None? then 1 else 0)
  }

  lemma {:induction false} UnclaimedIsEmpty(views: Views, ports: seq<Port>, i: nat)
    requires i <= 4
    ensures Unclaimed(views, ports, i) == i - Count(Mapped(views, ports)[..i])
    decreases i
  {
    if i > 0 {
      UnclaimedIsEmpty(views, ports, i - 1);
      MappedAt(views, ports, i - 1);
      var slots := Mapped(views, ports)[..i];
      assert slots[..i - 1] == Mapped(views, ports)[..i - 1];
    }
  }

  /** The port at this place from the end of the first ten. */
  function FromTheTenth(spare: seq<nat>, place: int): Option<nat> {
    var k := (if |spare| < 10 then |spare| else 10) - 1 - place;
    if 0 <= k < |spare| then Some(spare[k]) else None
  }

  /** Slot i is empty, with this many empty ones before it. */
  predicate EmptyAt(slots: seq<Option<nat>>, i: nat, before: nat) {
    i < |slots| && slots[i].None? && before == i - Count(slots[..i])
  }

  lemma {:induction false} UnclaimedAt(views: Views, ports: seq<Port>, i: nat)
    requires i < 4 && NamedBy(views, ports, i).None?
    ensures EmptyAt(Mapped(views, ports), i, Unclaimed(views, ports, i))
  {
    MappedAt(views, ports, i);
    UnclaimedIsEmpty(views, ports, i);
  }

  lemma {:induction false} FillsFromTheTenth(slots: seq<Option<nat>>, spare: seq<nat>, i: nat, before: nat,
                                             filled: seq<Option<nat>>)
    requires EmptyAt(slots, i, before) && filled == Fill(slots, Take(spare, 10))
    ensures filled[i] == FromTheTenth(spare, before)
  {
    FillAt(slots, Take(spare, 10), i);
  }

  /** The views nobody claims are filled, in order, with the first ten spare ports, the last of
      these first; none is left empty while there is one. */
  lemma {:induction false} FillerExactly(views: Views, ports: seq<Port>, i: nat)
    requires i < 4 && NamedBy(views, ports, i).None?
    ensures Assigned(views, ports)[i] == FromTheTenth(Spare(views, ports), Unclaimed(views, ports, i))
  {
    UnclaimedAt(views, ports, i);
    FillsFromTheTenth(Mapped(views, ports), Spare(views, ports), i, Unclaimed(views, ports, i), Assigned(views, ports));
  }

  // ---- Strips ----

  /** A single view has the whole screen. */
  lemma OneFillsTheScreen(s: Style)
    ensures Strip(s, 1, 0) == Rect(0, 0, s.width, s.height)
  {
  }

  lemma TowardsZero(a: int, b: nat)
    requires b > 0
    ensures a >= 0 ==> Div(a, b) * b <= a < (Div(a, b) + 1) * b
    ensures a < 0 ==> (Div(a, b) - 1) * b < a <= Div(a, b) * b
  {
    var q := (if a >= 0 then a else -a) / b;
    Quotient(if a >= 0 then a else -a, b);
    assert (q + 1) * b == q * b + b && (-q) * b == -(q * b) && (-q - 1) * b == -(q * b) - b;
  }

  /** Several views share the width that is left beside the pad and one line: each strip has as
      much as it can have if all have the same and a line follows each. */
  lemma StripsAreWidest(s: Style, columns: nat, column: nat)
    requires columns > 1 && s.width - s.padX - s.lineWeight >= 0
    ensures var w := Strip(s, columns, column).width;
            (w + s.lineWeight) * columns <= s.width - s.padX - s.lineWeight < (w + s.lineWeight + 1) * columns
  {
    TowardsZero(s.width - s.padX - s.lineWeight, columns);
  }

  /** The strips as a whole, each with a line before it and the last with one after it, are in
      the middle of the screen: the margins on both sides differ by a pixel at most, and so do
      those above and below, which together are the pad. */
  lemma StripsAreCentred(s: Style, columns: nat)
    requires Sensible(s) && Roomy(s, columns) && columns > 1
    ensures var first, last := Strip(s, columns, 0), Strip(s, columns, columns - 1);
            var left, right := first.left - s.lineWeight, s.width - (last.left + last.width);
            0 <= right - left <= 1
    ensures s.padY >= 0 ==>
              var r := Strip(s, columns, 0);
              var above, below := r.top - s.lineWeight, s.height - (r.top + r.height + s.lineWeight);
              above + below == s.padY && 0 <= below - above <= 1
  {
    var pitch := StripPitch(s, columns);
    PitchFits(s, columns);
    assert pitch * (columns - 1) + pitch == pitch * columns;
    assert pitch * 0 == 0;
  }
}
