/** The style composite mixer's layout, as it works on its arrays and pads. */
module StyleElement {
  import opened CompositeGrid
  import opened StyleRules
  import opened StyleViews
  import opened Wrappers

  /** How a mixer pad is set: transparent, or at a place. */
  datatype Pad = Hidden | Shown(place: Rect)

  /** What the overlay is told about a view: its place, and whether another's port is in it. */
  datatype Label = Label(place: Rect, occupied: bool)

  method FindView(views: Views, viewId: int) returns (i: nat)
    ensures i == ViewFrom(views, viewId, 0)
  {
    i := 0;
    while i < MAX_VIEW_COUNT
      invariant i <= MAX_VIEW_COUNT && ViewFrom(views, viewId, 0) == ViewFrom(views, viewId, i)
    {
      if views[i].id == viewId {
        return;
      }
      i := i + 1;
    }
  }

  /** The ports in the first slots of an array, the rest being free. */
  predicate Holds(a: array<Option<nat>>, spare: seq<nat>)
    reads a
  {
    && |spare| <= a.Length
    && (forall k :: 0 <= k < |spare| ==> a[k] == Some(spare[k]))
    && (forall k :: |spare| <= k < a.Length ==> a[k] == None)
  }

  method Store(unmapped: array<Option<nat>>, ghost spare: seq<nat>, p: nat) returns (stored: bool)
    requires Holds(unmapped, spare)
    modifies unmapped
    ensures stored == (|spare| < unmapped.Length)
    ensures Holds(unmapped, if stored then spare + [p] else spare)
  {
    var i := 0;
    while i < unmapped.Length
      invariant i <= |spare| && Holds(unmapped, spare)
    {
      if unmapped[i] == None {
        unmapped[i] := Some(p);
        return true;
      }
      i := i + 1;
    }
    stored := false;
  }

  /** Otherwise, if it may be shown, it is set aside, while there is room. */
  lemma {:induction false} KeptNext(views: Views, ports: seq<Port>, k: nat)
    requires k < |ports|
    ensures var kept := Kept(views, ports[..k]);
            var joins := Late(views, ports, k) && |kept| < MAX_UNMAPPED;
            Kept(views, ports[..k + 1]) == if joins then kept + [k] else kept
  {
    SpareNext(views, ports, k);
    TakeNext(Spare(views, ports[..k]), k, MAX_UNMAPPED);
  }

  lemma TakeNext(s: seq<nat>, k: nat, n: nat)
    ensures Take(s + [k], n) == if |Take(s, n)| < n then Take(s, n) + [k] else Take(s, n)
  {
  }

  /** One port: to the view it names, or set aside, or left out. */
  method MapPort(views: Views, ports: seq<Port>, k: nat, mapping: array<Option<nat>>, unmapped: array<Option<nat>>)
    returns (mapped: bool, stored: bool)
    requires mapping != unmapped && mapping.Length == MAX_VIEW_COUNT && unmapped.Length == MAX_UNMAPPED
    requires k < |ports| && ports[k].input
    requires mapping[..] == Mapped(views, ports[..k]) && Holds(unmapped, Kept(views, ports[..k]))
    modifies mapping, unmapped
    ensures mapping[..] == Mapped(views, ports[..k + 1]) && Holds(unmapped, Kept(views, ports[..k + 1]))
    ensures Count(mapping[..]) == Count(old(mapping[..])) + (if mapped then 1 else 0)
    ensures |Kept(views, ports[..k + 1])| == |Kept(views, ports[..k])| + (if stored then 1 else 0)
  {
    mapped, stored := false, false;
    MappedNext(views, ports, k);
    KeptNext(views, ports, k);
    var i := FindView(views, ports[k].viewId);
    if i < MAX_VIEW_COUNT {
      MappedAt(views, ports[..k], i);
      if !views[i].enabled {
        return;
      }
      if mapping[i] == None {
        CountGap(mapping[..], i, k);
        mapping[i] := Some(k);
        mapped := true;
        return;
      }
    }
    stored := Store(unmapped, Kept(views, ports[..k]), k);
  }

  lemma {:induction false} FullHasNoGap(slots: seq<Option<nat>>, i: nat)
    requires Count(slots) == |slots| && i < |slots|
    ensures slots[i].Some?
    decreases |slots|
  {
    if i < |slots| - 1 {
      FullHasNoGap(slots[..|slots| - 1], i);
    }
  }

  /** Once every view is taken, nothing changes that. */
  lemma {:induction false} FullStays(views: Views, ports: seq<Port>, k: nat)
    requires k < |ports| && Count(Mapped(views, ports[..k])) == MAX_VIEW_COUNT
    ensures Mapped(views, ports[..k + 1]) == Mapped(views, ports[..k])
  {
    MappedNext(views, ports, k);
    if ViewOf(views, ports[k]) < MAX_VIEW_COUNT {
      FullHasNoGap(Mapped(views, ports[..k]), ViewOf(views, ports[k]));
    }
  }

  lemma OtherIsSkipped(views: Views, ports: seq<Port>, k: nat)
    requires k < |ports| && !ports[k].input
    ensures Mapped(views, ports[..k + 1]) == Mapped(views, ports[..k])
    ensures Kept(views, ports[..k + 1]) == Kept(views, ports[..k])
  {
    MappedNext(views, ports, k);
    KeptNext(views, ports, k);
  }

  /** The first part: ports to the views they name, the others set aside. Once every view is
      taken the remaining ports are not looked at. */
  method MapPorts(views: Views, ports: seq<Port>, mapping: array<Option<nat>>, unmapped: array<Option<nat>>)
    returns (mappedCount: nat, unmappedCount: nat)
    requires mapping != unmapped && mapping.Length == MAX_VIEW_COUNT && unmapped.Length == MAX_UNMAPPED
    requires mapping[..] == Mapped(views, []) && Holds(unmapped, [])
    modifies mapping, unmapped
    ensures mapping[..] == Mapped(views, ports) && mappedCount == Count(mapping[..])
    ensures mappedCount < MAX_VIEW_COUNT ==>
              Holds(unmapped, Kept(views, ports)) && unmappedCount == |Kept(views, ports)|
  {
    mappedCount, unmappedCount := 0, 0;
    var k := 0;
    MappedNone(views);
    assert ports[..0] == [];
    while k < |ports|
      invariant k <= |ports|
      invariant mapping[..] == Mapped(views, ports[..k]) && mappedCount == Count(mapping[..])
      invariant mappedCount < MAX_VIEW_COUNT ==>
                  Holds(unmapped, Kept(views, ports[..k])) && unmappedCount == |Kept(views, ports[..k])|
    {
      if !ports[k].input {
        OtherIsSkipped(views, ports, k);
      } else if mappedCount < MAX_VIEW_COUNT {
        var mapped, stored := MapPort(views, ports, k, mapping, unmapped);
        mappedCount := mappedCount + if mapped then 1 else 0;
        unmappedCount := unmappedCount + if stored then 1 else 0;
      } else {
        FullStays(views, ports, k);
      }
      k := k + 1;
    }
    assert ports[..k] == ports;
  }

  lemma {:induction false} NoGapIsFull(slots: seq<Option<nat>>)
    requires forall i :: 0 <= i < |slots| ==> slots[i].Some?
    ensures Count(slots) == |slots|
    decreases |slots|
  {
    if slots != [] {
      NoGapIsFull(slots[..|slots| - 1]);
    }
  }

  lemma {:induction false} FillNothing(slots: seq<Option<nat>>, spare: seq<nat>)
    requires spare == [] || Count(slots) == |slots|
    ensures Fill(slots, spare) == slots
    decreases |slots|
  {
    if slots != [] {
      CountFront(slots);
      FillNothing(slots[1..], spare);
    }
  }

  /** The first empty slot takes the last spare port. */
  lemma {:induction false} FillFirst(slots: seq<Option<nat>>, spare: seq<nat>, i: nat)
    requires i < |slots| && slots[i].None? && (forall j :: 0 <= j < i ==> slots[j].Some?) && spare != []
    ensures Fill(slots, spare) == Fill(slots[i := Some(spare[|spare| - 1])], spare[..|spare| - 1])
    decreases i
  {
    var last := Some(spare[|spare| - 1]);
    if i > 0 {
      assert slots[i := last][1..] == slots[1..][i - 1 := last];
      FillFirst(slots[1..], spare, i - 1);
    } else {
      assert slots[i := last][1..] == slots[1..];
    }
  }

  /** The second part: spare ports, the last one first, to the empty slots in order. */
  method FillSlots(mapping: array<Option<nat>>, unmapped: array<Option<nat>>,
                   mapped: nat, spares: nat, ghost spare: seq<nat>)
    returns (mappedCount: nat)
    requires mapping != unmapped && mapping.Length == MAX_VIEW_COUNT && mapped == Count(mapping[..])
    requires mapped < MAX_VIEW_COUNT ==> Holds(unmapped, spare) && spares == |spare|
    modifies mapping, unmapped
    ensures mapping[..] == Fill(old(mapping[..]), spare) && mappedCount == Count(mapping[..])
  {
    mappedCount := mapped;
    var unmappedCount := spares;
    ghost var left := spare;
    while mappedCount < MAX_VIEW_COUNT && unmappedCount > 0
      invariant mappedCount == Count(mapping[..])
      invariant mappedCount < MAX_VIEW_COUNT ==> Holds(unmapped, left) && unmappedCount == |left|
      invariant Fill(mapping[..], left) == Fill(old(mapping[..]), spare)
      decreases MAX_VIEW_COUNT - mappedCount
    {
      var i := FirstEmpty(mapping);
      FillFirst(mapping[..], left, i);
      unmappedCount := unmappedCount - 1;
      CountGap(mapping[..], i, left[unmappedCount]);
      mapping[i] := unmapped[unmappedCount];
      unmapped[unmappedCount] := None;
      mappedCount := mappedCount + 1;
      left := left[..unmappedCount];
    }
    FillNothing(mapping[..], left);
  }

  method FirstEmpty(mapping: array<Option<nat>>) returns (i: nat)
    requires Count(mapping[..]) < mapping.Length
    ensures i < mapping.Length && mapping[i] == None && forall j :: 0 <= j < i ==> mapping[j].Some?
  {
    if forall j :: 0 <= j < mapping.Length ==> mapping[..][j].Some? {
      NoGapIsFull(mapping[..]);
    }
    i := 0;
    while mapping[i] != None
      invariant i < mapping.Length && forall j :: 0 <= j < i ==> mapping[j].Some?
      invariant exists j :: i <= j < mapping.Length && mapping[j].None?
      decreases mapping.Length - i
    {
      i := i + 1;
    }
  }

  /** Whether every port is in at most one slot. */
  predicate Distinct(slots: seq<Option<nat>>) {
    forall i, j :: 0 <= i < j < |slots| && slots[i].Some? ==> slots[i] != slots[j]
  }

  predicate Known(slots: seq<Option<nat>>, ports: seq<Port>) {
    forall i :: 0 <= i < |slots| && slots[i].Some? ==> slots[i].value < |ports|
  }

  lemma {:induction false} CountNext(slots: seq<Option<nat>>, i: nat)
    requires i < |slots|
    ensures Count(slots[..i + 1]) == Count(slots[..i]) + (if slots[i].Some? then 1 else 0)
  {
    assert slots[..i + 1][..i] == slots[..i];
  }

  /** The place and label of the view in slot i, one of those shown. */
  function LabelAt(style: Style, views: Views, ports: seq<Port>, slots: seq<Option<nat>>, i: nat): Label
    requires |slots| == MAX_VIEW_COUNT && i < MAX_VIEW_COUNT && Known(slots, ports) && slots[i].Some?
    requires Count(slots) > 0
  {
    Label(Strip(style, Count(slots), Count(slots[..i])), ports[slots[i].value].viewId != views[i].id)
  }

  /** One slot: its port's pad is placed in the given column. */
  method DrawView(style: Style, views: Views, ports: seq<Port>, slots: seq<Option<nat>>,
                  i: nat, column: nat, pads: array<Pad>)
    returns (shown: Label)
    requires |slots| == MAX_VIEW_COUNT && i < MAX_VIEW_COUNT && slots[i].Some? && pads.Length == |ports|
    requires Known(slots, ports) && Count(slots) > 0 && column == Count(slots[..i])
    modifies pads
    ensures shown == LabelAt(style, views, ports, slots, i)
    ensures pads[slots[i].value] == Shown(shown.place)
    ensures forall p :: 0 <= p < |ports| && p != slots[i].value ==> pads[p] == old(pads[p])
  {
    var p := slots[i].value;
    var place := Strip(style, Count(slots), column);
    pads[p] := Shown(place);
    shown := Label(place, ports[p].viewId != views[i].id);
  }

  /** The last part: the shown ports get the columns in the order of their slots. */
  method DrawViews(style: Style, views: Views, ports: seq<Port>, slots: seq<Option<nat>>,
                   mappedCount: nat, pads: array<Pad>)
    returns (labels: seq<Label>)
    requires |slots| == MAX_VIEW_COUNT && mappedCount == Count(slots) > 0 && pads.Length == |ports|
    requires Distinct(slots) && Known(slots, ports)
    modifies pads
    ensures |labels| == mappedCount
    ensures forall i :: 0 <= i < MAX_VIEW_COUNT && slots[i].Some? ==>
              && Count(slots[..i]) < |labels| && labels[Count(slots[..i])] == LabelAt(style, views, ports, slots, i)
              && pads[slots[i].value] == Shown(LabelAt(style, views, ports, slots, i).place)
    ensures forall p :: 0 <= p < |ports| && Some(p) !in slots ==> pads[p] == old(pads[p])
  {
    labels := [];
    var curColumn, i := 0, 0;
    while i < MAX_VIEW_COUNT
      invariant i <= MAX_VIEW_COUNT && |labels| == curColumn == Count(slots[..i])
      invariant forall j :: 0 <= j < i && slots[j].Some? ==>
                  && Count(slots[..j]) < |labels| && labels[Count(slots[..j])] == LabelAt(style, views, ports, slots, j)
                  && pads[slots[j].value] == Shown(LabelAt(style, views, ports, slots, j).place)
      invariant forall p :: 0 <= p < |ports| && Some(p) !in slots ==> pads[p] == old(pads[p])
    {
      CountNext(slots, i);
      if slots[i].Some? {
        var shown := DrawView(style, views, ports, slots, i, curColumn, pads);
        labels := labels + [shown];
        curColumn := curColumn + 1;
      }
      i := i + 1;
    }
    assert slots[..i] == slots;
  }

  /** Every input port's pad is made transparent first. */
  method HideAll(ports: seq<Port>, pads: array<Pad>)
    requires pads.Length == |ports|
    modifies pads
    ensures forall p :: 0 <= p < |ports| ==> pads[p] == if ports[p].input then Hidden else old(pads[p])
  {
    var k := 0;
    while k < |ports|
      invariant k <= |ports|
      invariant forall p :: 0 <= p < k ==> pads[p] == if ports[p].input then Hidden else old(pads[p])
      invariant forall p :: k <= p < |ports| ==> pads[p] == old(pads[p])
    {
      if ports[k].input {
        pads[k] := Hidden;
      }
      k := k + 1;
    }
  }

  /** The ports, in the order of the sorted list, to the views. */
  method AssignViews(views: Views, ports: seq<Port>) returns (slots: seq<Option<nat>>, mappedCount: nat)
    ensures slots == Assigned(views, ports) && mappedCount == Count(slots)
  {
    var mapping := new Option<nat>[MAX_VIEW_COUNT](_ => None);
    var unmapped := new Option<nat>[MAX_UNMAPPED](_ => None);
    var unmappedCount;
    mappedCount, unmappedCount := MapPorts(views, ports, mapping, unmapped);
    mappedCount := FillSlots(mapping, unmapped, mappedCount, unmappedCount, Kept(views, ports));
    slots := mapping[..];
  }

  method RecalculateSizes(style: Style, views: Views, ports: seq<Port>, nElems: int, pads: array<Pad>)
    returns (labels: seq<Label>)
    requires pads.Length == |ports|
    modifies pads
    ensures nElems <= 0 ==> labels == [] && pads[..] == old(pads[..])
    ensures nElems > 0 ==>
              var slots := Assigned(views, ports);
              && |labels| == Count(slots) && Known(slots, ports)
              && (forall i :: 0 <= i < MAX_VIEW_COUNT && slots[i].Some? ==>
                    && Count(slots[..i]) < Count(slots)
                    && labels[Count(slots[..i])] == LabelAt(style, views, ports, slots, i)
                    && pads[slots[i].value] == Shown(LabelAt(style, views, ports, slots, i).place))
              && (forall p :: 0 <= p < |ports| && Some(p) !in slots ==>
                    pads[p] == if ports[p].input then Hidden else old(pads[p]))
  {
    if nElems <= 0 {
      return [];
    }
    HideAll(ports, pads);
    var slots, mappedCount := AssignViews(views, ports);
    AssignedIsDistinct(views, ports);
    if mappedCount == 0 {
      NothingShown(slots);
      return [];
    }
    labels := DrawViews(style, views, ports, slots, mappedCount, pads);
  }

  lemma AssignedIsDistinct(views: Views, ports: seq<Port>)
    ensures Distinct(Assigned(views, ports)) && Known(Assigned(views, ports), ports)
  {
    forall i, j | 0 <= i < j < MAX_VIEW_COUNT && Assigned(views, ports)[i].Some?
      ensures Assigned(views, ports)[i] != Assigned(views, ports)[j]
    {
      if Assigned(views, ports)[j].Some? {
        ShownOnce(views, ports, i, j);
      }
    }
    forall i | 0 <= i < MAX_VIEW_COUNT && Assigned(views, ports)[i].Some?
      ensures Assigned(views, ports)[i].value < |ports|
    {
      SlotIsEligible(views, ports, i);
    }
  }

  /** With distinct ids, a shown view is labelled as another's exactly if nobody claims it. */
  lemma {:induction false} LabelExactly(style: Style, views: Views, ports: seq<Port>, i: nat)
    requires DistinctIds(views) && i < MAX_VIEW_COUNT && Assigned(views, ports)[i].Some?
    ensures Known(Assigned(views, ports), ports) && Count(Assigned(views, ports)) > 0
    ensures LabelAt(style, views, ports, Assigned(views, ports), i).occupied
       <==> !exists p: nat :: Claims(views, ports, p, i)
  {
    AssignedIsDistinct(views, ports);
    ShownIsCounted(Assigned(views, ports), i);
    OccupiedExactly(views, ports, i);
    ClaimedExactly(views, ports, i);
  }

  lemma {:induction false} ShownIsCounted(slots: seq<Option<nat>>, i: nat)
    requires i < |slots| && slots[i].Some?
    ensures Count(slots) > 0
  {
    CountGrows(slots, i, |slots|);
    assert slots[..|slots|] == slots;
  }

  lemma {:induction false} NothingShown(slots: seq<Option<nat>>)
    requires Count(slots) == 0
    ensures forall i :: 0 <= i < |slots| ==> slots[i].None?
    decreases |slots|
  {
    if slots != [] {
      NothingShown(slots[..|slots| - 1]);
    }
  }
}
