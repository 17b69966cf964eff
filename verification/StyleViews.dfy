/** The style composite mixer: which port is shown in which view, and where. */
module StyleViews {
  import opened CompositeGrid
  import opened Wrappers

  const MAX_VIEW_COUNT := 4
  const MAX_UNMAPPED := 10

  datatype View = View(id: int, enabled: bool)

  /** A port names a view by that view's id. */
  datatype Port = Port(input: bool, viewId: int)

  type Views = views: seq<View> | |views| == MAX_VIEW_COUNT
    witness [View(-1, true), View(-1, true), View(-1, true), View(-1, true)]

  // ---- Which port in which view ----

  /** The first view from i on with this id, or MAX_VIEW_COUNT. */
  function ViewFrom(views: Views, viewId: int, i: nat): (r: nat)
    requires i <= MAX_VIEW_COUNT
    ensures i <= r <= MAX_VIEW_COUNT
    ensures r < MAX_VIEW_COUNT ==> views[r].id == viewId
    ensures forall j :: i <= j < r ==> views[j].id != viewId
    decreases MAX_VIEW_COUNT - i
  {
    if i == MAX_VIEW_COUNT || views[i].id == viewId then i else ViewFrom(views, viewId, i + 1)
  }

  function ViewOf(views: Views, p: Port): nat {
    ViewFrom(views, p.viewId, 0)
  }

  /** An input port that may be shown: the view it names, if any, is enabled. */
  predicate Eligible(views: Views, p: Port) {
    p.input && (ViewOf(views, p) < MAX_VIEW_COUNT ==> views[ViewOf(views, p)].enabled)
  }

  function EligibleCount(views: Views, ports: seq<Port>): nat {
    if ports == [] then 0
    else EligibleCount(views, ports[..|ports| - 1]) + (if Eligible(views, ports[|ports| - 1]) then 1 else 0)
  }

  /** The first eligible port that names view i. */
  function NamedBy(views: Views, ports: seq<Port>, i: nat): (r: Option<nat>)
    ensures r.Some? ==> r.value < |ports| && Eligible(views, ports[r.value]) && ViewOf(views, ports[r.value]) == i
    ensures r.Some? ==> forall p :: 0 <= p < r.value ==> !(Eligible(views, ports[p]) && ViewOf(views, ports[p]) == i)
    ensures r.None? ==> forall p :: 0 <= p < |ports| ==> !(Eligible(views, ports[p]) && ViewOf(views, ports[p]) == i)
  {
    if ports == [] then None
    else
      var last := |ports| - 1;
      var before := NamedBy(views, ports[..last], i);
      if before.Some? then before
      else if Eligible(views, ports[last]) && ViewOf(views, ports[last]) == i then Some(last)
      else None
  }

  /** The ports each view's name finds. */
  function Mapped(views: Views, ports: seq<Port>): (slots: seq<Option<nat>>)
    ensures |slots| == MAX_VIEW_COUNT
  {
    [NamedBy(views, ports, 0), NamedBy(views, ports, 1), NamedBy(views, ports, 2), NamedBy(views, ports, 3)]
  }

  /** An eligible port that comes too late for the view it names, or names none. */
  predicate Late(views: Views, ports: seq<Port>, p: nat)
    requires p < |ports|
  {
    && Eligible(views, ports[p])
    && (ViewOf(views, ports[p]) < MAX_VIEW_COUNT ==> NamedBy(views, ports[..p], ViewOf(views, ports[p])).Some?)
  }

  /** Those ports, in order. */
  function Spare(views: Views, ports: seq<Port>): (spare: seq<nat>)
    ensures forall k :: 0 <= k < |spare| ==> spare[k] < |ports| && Late(views, ports, spare[k])
    ensures forall j, k :: 0 <= j < k < |spare| ==> spare[j] < spare[k]
  {
    if ports == [] then []
    else
      var last := |ports| - 1;
      var before := Spare(views, ports[..last]);
      assert forall k :: 0 <= k < |before| ==> ports[..last][..before[k]] == ports[..before[k]];
      if Late(views, ports, last) then before + [last] else before
  }

  function Take(s: seq<nat>, n: nat): seq<nat> {
    if |s| <= n then s else s[..n]
  }

  /** Empty slots take the spare ports, the last one first. */
  function Fill(slots: seq<Option<nat>>, spare: seq<nat>): (r: seq<Option<nat>>)
    ensures |r| == |slots|
  {
    if slots == [] then []
    else if slots[0].Some? || spare == [] then [slots[0]] + Fill(slots[1..], spare)
    else [Some(spare[|spare| - 1])] + Fill(slots[1..], spare[..|spare| - 1])
  }

  /** The first of them, as many as there is room for. */
  function Kept(views: Views, ports: seq<Port>): seq<nat> {
    Take(Spare(views, ports), MAX_UNMAPPED)
  }

  /** The port each view shows. */
  function Assigned(views: Views, ports: seq<Port>): (slots: seq<Option<nat>>)
    ensures |slots| == MAX_VIEW_COUNT
  {
    Fill(Mapped(views, ports), Kept(views, ports))
  }

  /** How many slots hold a port. */
  function Count(slots: seq<Option<nat>>): (n: nat)
    ensures n <= |slots|
  {
    if slots == [] then 0 else Count(slots[..|slots| - 1]) + (if slots[|slots| - 1].Some? then 1 else 0)
  }

  lemma {:induction false} CountFront(slots: seq<Option<nat>>)
    requires slots != []
    ensures Count(slots) == (if slots[0].Some? then 1 else 0) + Count(slots[1..])
    decreases |slots|
  {
    var last := |slots| - 1;
    if last > 0 {
      CountFront(slots[..last]);
      assert slots[..last][1..] == slots[1..][..last - 1];
    } else {
      assert slots[..last] == [] && slots[1..] == [];
    }
  }

  // ---- What filling does ----

  /** Slot by slot: what was there stays; the empty slots take the spare ports from the end,
      in order, as long as there are any. */
  lemma {:induction false} FillAt(slots: seq<Option<nat>>, spare: seq<nat>, i: nat)
    requires i < |slots|
    ensures Fill(slots, spare)[i]
         == if slots[i].Some? then slots[i]
            else
              var empty := i - Count(slots[..i]);
              if empty < |spare| then Some(spare[|spare| - 1 - empty]) else None
    decreases |slots|
  {
    if i == 0 {
      assert slots[..0] == [];
    } else {
      CountFront(slots[..i]);
      assert slots[..i][1..] == slots[1..][..i - 1];
      if slots[0].Some? || spare == [] {
        FillAt(slots[1..], spare, i - 1);
      } else {
        FillAt(slots[1..], spare[..|spare| - 1], i - 1);
      }
    }
  }

  lemma {:induction false} FillCount(slots: seq<Option<nat>>, spare: seq<nat>)
    ensures var n := Count(slots) + |spare|;
            Count(Fill(slots, spare)) == if n <= |slots| then n else |slots|
    decreases |slots|
  {
    if slots != [] {
      CountFront(slots);
      CountFront(Fill(slots, spare));
      if slots[0].Some? || spare == [] {
        FillCount(slots[1..], spare);
      } else {
        FillCount(slots[1..], spare[..|spare| - 1]);
      }
    }
  }

  // ---- The assignment ----

  lemma {:induction false} NamedByIsStable(views: Views, ports: seq<Port>, p: nat, i: nat)
    requires p <= |ports| && NamedBy(views, ports[..p], i).Some?
    ensures NamedBy(views, ports, i) == NamedBy(views, ports[..p], i)
  {
    var a, b := NamedBy(views, ports[..p], i), NamedBy(views, ports, i);
    assert ports[..p][a.value] == ports[a.value];
    assert b.Some? && b.value <= a.value;
    assert ports[..p][b.value] == ports[b.value];
  }

  /** A spare port is not the one its view's name finds, nor that of any other view. */
  lemma {:induction false} LateIsNotMapped(views: Views, ports: seq<Port>, p: nat, i: nat)
    requires p < |ports| && Late(views, ports, p) && i < MAX_VIEW_COUNT
    ensures NamedBy(views, ports, i) != Some(p)
  {
    if ViewOf(views, ports[p]) == i {
      NamedByIsStable(views, ports, p, i);
    }
  }

  /** The index in the spare ports that an empty slot is offered. */
  function Offered(slots: seq<Option<nat>>, spare: seq<nat>, i: nat): int
    requires i < |slots|
  {
    |spare| - 1 - (i - Count(slots[..i]))
  }

  lemma {:induction false} KeptIsLate(views: Views, ports: seq<Port>, k: nat)
    requires k < |Kept(views, ports)|
    ensures Kept(views, ports)[k] < |ports| && Late(views, ports, Kept(views, ports)[k])
  {
    assert Kept(views, ports)[k] == Spare(views, ports)[k];
  }

  lemma {:induction false} KeptGrows(views: Views, ports: seq<Port>, j: nat, k: nat)
    requires j < k < |Kept(views, ports)|
    ensures Kept(views, ports)[j] < Kept(views, ports)[k]
  {
    var spare := Spare(views, ports);
    assert Kept(views, ports)[j] == spare[j] && Kept(views, ports)[k] == spare[k];
  }

  lemma {:induction false} MappedAt(views: Views, ports: seq<Port>, i: nat)
    requires i < MAX_VIEW_COUNT
    ensures Mapped(views, ports)[i] == NamedBy(views, ports, i)
  {
  }

  lemma {:induction false} FillSource(slots: seq<Option<nat>>, spare: seq<nat>, i: nat)
    requires i < |slots| && Fill(slots, spare)[i].Some?
    ensures if slots[i].Some? then Fill(slots, spare)[i] == slots[i]
            else
              && 0 <= Offered(slots, spare, i) < |spare|
              && Fill(slots, spare)[i] == Some(spare[Offered(slots, spare, i)])
  {
    FillAt(slots, spare, i);
  }

  /** Where the port in a slot comes from. */
  lemma {:induction false} SlotSource(views: Views, ports: seq<Port>, i: nat)
    requires i < MAX_VIEW_COUNT && Assigned(views, ports)[i].Some?
    ensures var mapped, kept := Mapped(views, ports), Kept(views, ports);
            if mapped[i].Some? then Assigned(views, ports)[i] == mapped[i]
            else
              && 0 <= Offered(mapped, kept, i) < |kept|
              && Assigned(views, ports)[i] == Some(kept[Offered(mapped, kept, i)])
  {
    FillSource(Mapped(views, ports), Kept(views, ports), i);
  }

  lemma {:induction false} SlotIsEligible(views: Views, ports: seq<Port>, i: nat)
    requires i < MAX_VIEW_COUNT && Assigned(views, ports)[i].Some?
    ensures Assigned(views, ports)[i].value < |ports|
    ensures Eligible(views, ports[Assigned(views, ports)[i].value])
    ensures Mapped(views, ports)[i].None? ==> Late(views, ports, Assigned(views, ports)[i].value)
  {
    SlotSource(views, ports, i);
    if Mapped(views, ports)[i].Some? {
      MappedAt(views, ports, i);
    } else {
      KeptIsLate(views, ports, Offered(Mapped(views, ports), Kept(views, ports), i));
    }
  }

  /** Among the empty slots, a later one has more empty ones before it. */
  lemma {:induction false} EmptyGrows(slots: seq<Option<nat>>, i: nat, j: nat)
    requires i < j <= |slots| && slots[i].None?
    ensures i - Count(slots[..i]) < j - Count(slots[..j])
    decreases j
  {
    assert slots[..j][..j - 1] == slots[..j - 1];
    if i < j - 1 {
      EmptyGrows(slots, i, j - 1);
    }
  }

  /** No port is shown twice. */
  lemma {:induction false} ShownOnce(views: Views, ports: seq<Port>, i: nat, j: nat)
    requires i < j < MAX_VIEW_COUNT
    requires Assigned(views, ports)[i].Some? && Assigned(views, ports)[j].Some?
    ensures Assigned(views, ports)[i] != Assigned(views, ports)[j]
  {
    var mapped, kept := Mapped(views, ports), Kept(views, ports);
    SlotSource(views, ports, i);
    SlotSource(views, ports, j);
    if mapped[i].Some? && mapped[j].Some? {
      MappedAt(views, ports, i);
      MappedAt(views, ports, j);
    } else if mapped[i].Some? {
      SlotIsEligible(views, ports, j);
      LateIsNotMapped(views, ports, Assigned(views, ports)[j].value, i);
    } else if mapped[j].Some? {
      SlotIsEligible(views, ports, i);
      LateIsNotMapped(views, ports, Assigned(views, ports)[i].value, j);
    } else {
      EmptyGrows(mapped, i, j);
      KeptGrows(views, ports, Offered(mapped, kept, j), Offered(mapped, kept, i));
    }
  }

  /** A port that names a disabled view is never shown. */
  lemma DisabledIsHidden(views: Views, ports: seq<Port>, p: nat)
    requires p < |ports| && ViewOf(views, ports[p]) < MAX_VIEW_COUNT
    requires !views[ViewOf(views, ports[p])].enabled
    ensures Some(p) !in Assigned(views, ports)
  {
    if Some(p) in Assigned(views, ports) {
      var i :| 0 <= i < MAX_VIEW_COUNT && Assigned(views, ports)[i] == Some(p);
      SlotIsEligible(views, ports, i);
    }
  }

  /** An enabled view named by input ports shows the first of them. */
  lemma NamedViewIsGiven(views: Views, ports: seq<Port>, p: nat)
    requires p < |ports| && ports[p].input && ViewOf(views, ports[p]) < MAX_VIEW_COUNT
    requires views[ViewOf(views, ports[p])].enabled
    ensures var i := ViewOf(views, ports[p]);
            var slot := Assigned(views, ports)[i];
            && slot.Some? && slot.value <= p
            && ports[slot.value].input && ports[slot.value].viewId == views[i].id
  {
    var i := ViewOf(views, ports[p]);
    FillAt(Mapped(views, ports), Kept(views, ports), i);
    MappedAt(views, ports, i);
  }

  lemma {:induction false} CountGap(slots: seq<Option<nat>>, i: nat, p: nat)
    requires i < |slots| && slots[i].None?
    ensures Count(slots[i := Some(p)]) == Count(slots) + 1 && Count(slots) < |slots|
    decreases |slots|
  {
    var last := |slots| - 1;
    if i == last {
      assert slots[i := Some(p)][..last] == slots[..last];
    } else {
      assert slots[i := Some(p)][..last] == slots[..last][i := Some(p)];
      CountGap(slots[..last], i, p);
    }
  }

  lemma {:induction false} NamedNext(views: Views, ports: seq<Port>, k: nat, i: nat)
    requires k < |ports|
    ensures var before := NamedBy(views, ports[..k], i);
            var takes := Eligible(views, ports[k]) && ViewOf(views, ports[k]) == i && before.None?;
            NamedBy(views, ports[..k + 1], i) == if takes then Some(k) else before
  {
    assert ports[..k + 1][..k] == ports[..k] && ports[..k + 1][k] == ports[k];
  }

  /** What one more port changes: it takes the view it names, if that is enabled and free. */
  lemma MappedNext(views: Views, ports: seq<Port>, k: nat)
    requires k < |ports|
    ensures var i, before := ViewOf(views, ports[k]), Mapped(views, ports[..k]);
            var takes := Eligible(views, ports[k]) && i < MAX_VIEW_COUNT && before[i].None?;
            Mapped(views, ports[..k + 1]) == if takes then before[i := Some(k)] else before
  {
    forall i | 0 <= i < MAX_VIEW_COUNT
      ensures Mapped(views, ports[..k])[i] == NamedBy(views, ports[..k], i)
      ensures Mapped(views, ports[..k + 1])[i] == NamedBy(views, ports[..k + 1], i)
    {
      MappedAt(views, ports[..k], i);
      MappedAt(views, ports[..k + 1], i);
    }
    forall i | 0 <= i < MAX_VIEW_COUNT
      ensures var before := NamedBy(views, ports[..k], i);
              var takes := Eligible(views, ports[k]) && ViewOf(views, ports[k]) == i && before.None?;
              NamedBy(views, ports[..k + 1], i) == if takes then Some(k) else before
    {
      NamedNext(views, ports, k, i);
    }
  }

  lemma {:induction false} SpareNext(views: Views, ports: seq<Port>, k: nat)
    requires k < |ports|
    ensures var before := Spare(views, ports[..k]);
            Spare(views, ports[..k + 1]) == if Late(views, ports, k) then before + [k] else before
  {
    var last := ports[..k + 1];
    assert last[..k] == ports[..k] && last[k] == ports[k];
    assert Late(views, last, k) == Late(views, ports, k);
  }

  lemma {:induction false} NoneCount(slots: seq<Option<nat>>)
    requires forall i :: 0 <= i < |slots| ==> slots[i].None?
    ensures Count(slots) == 0
    decreases |slots|
  {
    if slots != [] {
      NoneCount(slots[..|slots| - 1]);
    }
  }

  lemma MappedNone(views: Views)
    ensures Count(Mapped(views, [])) == 0
  {
    NoneCount(Mapped(views, []));
  }

  lemma {:induction false} EligibleSplit(views: Views, ports: seq<Port>)
    ensures Count(Mapped(views, ports)) + |Spare(views, ports)| == EligibleCount(views, ports)
    decreases |ports|
  {
    if ports == [] {
      MappedNone(views);
    } else {
      var last := |ports| - 1;
      var i := ViewOf(views, ports[last]);
      EligibleSplit(views, ports[..last]);
      assert ports[..last + 1] == ports;
      MappedNext(views, ports, last);
      SpareNext(views, ports, last);
      if i < MAX_VIEW_COUNT {
        MappedAt(views, ports[..last], i);
        if Mapped(views, ports[..last])[i].None? {
          CountGap(Mapped(views, ports[..last]), i, last);
        }
      }
    }
  }

  /** As many views are shown as there are eligible ports, up to four. */
  lemma ShownExactly(views: Views, ports: seq<Port>)
    ensures var n := EligibleCount(views, ports);
            Count(Assigned(views, ports)) == if n <= MAX_VIEW_COUNT then n else MAX_VIEW_COUNT
  {
    EligibleSplit(views, ports);
    FillCount(Mapped(views, ports), Kept(views, ports));
  }

  predicate DistinctIds(views: Views) {
    forall i, j :: 0 <= i < j < MAX_VIEW_COUNT ==> views[i].id != views[j].id
  }

  /** With distinct ids a shown port carries the name of its view if and only if it got the
      view by that name. */
  lemma OccupiedExactly(views: Views, ports: seq<Port>, i: nat)
    requires DistinctIds(views) && i < MAX_VIEW_COUNT && Assigned(views, ports)[i].Some?
    ensures var p := Assigned(views, ports)[i].value;
            && p < |ports|
            && (ports[p].viewId == views[i].id <==> NamedBy(views, ports, i) == Some(p))
  {
    SlotSource(views, ports, i);
    SlotIsEligible(views, ports, i);
    var p := Assigned(views, ports)[i].value;
    MappedAt(views, ports, i);
    if ports[p].viewId == views[i].id {
      assert ViewOf(views, ports[p]) == i;
    }
  }

  // ---- Where the views are shown ----

  /** Division of the source language: towards zero. */
  function Div(a: int, b: int): int
    requires b > 0
  {
    if a >= 0 then a / b else -(-a / b)
  }

  datatype Style = Style(width: int, height: int, padX: int, padY: int, lineWeight: int)

  function StripPitch(s: Style, columns: nat): int
    requires columns > 0
  {
    Div(s.width - s.padX - s.lineWeight, columns)
  }

  /** The place of a column; a single view fills the screen. */
  function Strip(s: Style, columns: nat, column: nat): Rect
    requires columns > 0
  {
    var pitch := StripPitch(s, columns);
    var remainder := s.width - s.padX - pitch * columns;
    if columns == 1 then Rect(0, 0, s.width, s.height)
    else
      Rect(Div(s.padX + remainder, 2) + s.lineWeight + pitch * column, Div(s.padY, 2) + s.lineWeight,
           pitch - s.lineWeight, s.height - s.padY - s.lineWeight * 2)
  }

  /** Neighbours are separated by exactly one line. */
  lemma NeighboursAreALineApart(s: Style, columns: nat, column: nat)
    requires columns > 1
    ensures var a, b := Strip(s, columns, column), Strip(s, columns, column + 1);
            b.left - (a.left + a.width) == s.lineWeight && b.top == a.top && b.height == a.height
  {
  }

  /** No pad is further below 0 than a line is wide. Every style the source can reach is
      sensible: its lines are at least 1 wide, and a pad that was never set is -1. */
  predicate Sensible(s: Style) {
    s.lineWeight >= 0 && s.padX >= -s.lineWeight && s.padY >= -s.lineWeight
  }

  /** Room for a line and a pixel per column, and for a line above and below. */
  predicate Roomy(s: Style, columns: nat) {
    && s.width - s.padX - s.lineWeight >= columns * (s.lineWeight + 1)
    && s.height - s.padY - s.lineWeight * 2 >= 1
  }

  /** Strips show anything at all if and only if there is room. */
  lemma StripsAreVisible(s: Style, columns: nat, column: nat)
    requires Sensible(s) && columns > 1
    ensures var r := Strip(s, columns, column);
            r.width > 0 && r.height > 0 <==> Roomy(s, columns)
  {
    AtLeast(s.width - s.padX - s.lineWeight, columns, s.lineWeight + 1);
  }

  lemma AtLeast(a: int, b: nat, q: nat)
    requires b > 0 && q > 0
    ensures Div(a, b) >= q <==> a >= b * q
  {
    if a >= 0 {
      Quotient(a, b);
      if a / b >= q {
        ProductGrows(q, a / b, b);
      } else {
        ProductGrows(a / b + 1, q, b);
      }
    } else {
      Quotient(-a, b);
      ProductGrows(1, q, b);
    }
  }

  lemma PitchGrows(pitch: nat, i: nat, j: nat)
    requires i < j
    ensures pitch * i + pitch <= pitch * j
  {
    ProductGrows(i + 1, j, pitch);
    assert (i + 1) * pitch == pitch * i + pitch && j * pitch == pitch * j;
  }

  lemma PitchFits(s: Style, columns: nat)
    requires Sensible(s) && Roomy(s, columns) && columns > 0
    ensures StripPitch(s, columns) > s.lineWeight
    ensures StripPitch(s, columns) * columns <= s.width - s.padX - s.lineWeight
  {
    var room := s.width - s.padX - s.lineWeight;
    AtLeast(room, columns, s.lineWeight + 1);
    ProductGrows(0, columns, s.lineWeight + 1);
    Quotient(room, columns);
  }

  /** A strip that starts at products a, of all b, of the pitch, centred with its margins. */
  lemma MarginsFit(width: int, padX: int, line: int, pitch: int, a: int, b: int)
    requires 0 <= a && a + pitch <= b && b <= width - padX - line
    requires line >= 0 && padX >= -line
    ensures var left := Div(padX + (width - padX - b), 2) + line + a;
            0 <= left && left + (pitch - line) <= width
  {
  }

  lemma HeightFits(height: int, padY: int, line: int)
    requires line >= 0 && padY >= -line
    ensures var top := Div(padY, 2) + line;
            0 <= top && top + (height - padY - line * 2) <= height
  {
  }

  /** With room, every strip is inside the output. */
  lemma StripInside(s: Style, columns: nat, column: nat)
    requires Sensible(s) && (columns > 1 ==> Roomy(s, columns)) && column < columns
    ensures Inside(Strip(s, columns, column), s.width, s.height)
  {
    if columns > 1 {
      var pitch := StripPitch(s, columns);
      PitchFits(s, columns);
      PitchGrows(pitch, column, columns);
      MarginsFit(s.width, s.padX, s.lineWeight, pitch, pitch * column, pitch * columns);
      HeightFits(s.height, s.padY, s.lineWeight);
    }
  }

  /** With room, different strips do not overlap: there is at least a line between them. */
  lemma StripsApart(s: Style, columns: nat, i: nat, j: nat)
    requires Sensible(s) && Roomy(s, columns) && i < j < columns
    ensures var a, b := Strip(s, columns, i), Strip(s, columns, j);
            Apart(a, b) && a.left + a.width + s.lineWeight <= b.left
  {
    PitchFits(s, columns);
    PitchGrows(StripPitch(s, columns), i, j);
  }

  lemma {:induction false} CountGrows(slots: seq<Option<nat>>, i: nat, j: nat)
    requires i < j <= |slots| && slots[i].Some?
    ensures Count(slots[..i]) < Count(slots[..j])
    decreases j
  {
    assert slots[..j][..j - 1] == slots[..j - 1];
    if i < j - 1 {
      CountGrows(slots, i, j - 1);
    }
  }

  /** The views that show a port are inside the output and, by at least a line, side by side,
      if more than one is shown and there is room for them. */
  lemma ViewsSideBySide(style: Style, slots: seq<Option<nat>>, i: nat, j: nat)
    requires Sensible(style) && (Count(slots) > 1 ==> Roomy(style, Count(slots)))
    requires i < j < |slots| && slots[i].Some? && slots[j].Some?
    ensures Count(slots[..i]) < Count(slots[..j]) < Count(slots)
    ensures var a := Strip(style, Count(slots), Count(slots[..i]));
            var b := Strip(style, Count(slots), Count(slots[..j]));
            && Inside(a, style.width, style.height) && Inside(b, style.width, style.height)
            && Apart(a, b) && a.left + a.width + style.lineWeight <= b.left
  {
    assert slots[..|slots|] == slots;
    CountGrows(slots, i, j);
    CountGrows(slots, j, |slots|);
    StripInside(style, Count(slots), Count(slots[..i]));
    StripInside(style, Count(slots), Count(slots[..j]));
    StripsApart(style, Count(slots), Count(slots[..i]), Count(slots[..j]));
  }
}
