/** The player's retimer: buffers of several sinks are moved onto the clock of the
    main pipeline, each sink in epochs that start at a base time shared by all. */
module Retimer {
  import opened ClockTime
  import opened Wrappers

  function Max(a: Time, b: Time): Time { if a > b then a else b }

  datatype Buffer = Buffer(pts: Time, dts: Time, duration: Time)

  /** What a sink remembers. */
  datatype PtsData = PtsData(baseTime: Time, offsetTime: Time, lastPts: Time, lastPtsOrig: Time, ptsHandled: bool)

  /** What the sinks share. */
  datatype Shared = Shared(reset: bool, baseTime: Time, baseTimePreroll: Time)

  /** The sink and shared state after a sample, and what was pushed. */
  datatype Result = Result(data: PtsData, shared: Shared, pushed: Option<Buffer>)

  function NewPtsData(): PtsData { PtsData(NONE, NONE, NONE, NONE, false) }

  function NewShared(): Shared { Shared(false, NONE, NONE) }

  // ---- process_sample ----

  predicate Timestamped(b: Buffer) { b.pts != NONE || b.dts != NONE }

  /** A buffer with one timestamp missing gets it from the other. */
  function Filled(b: Buffer): Buffer {
    if b.pts == NONE then b.(pts := b.dts) else if b.dts == NONE then b.(dts := b.pts) else b
  }

  function ResetShared(s: Shared): Shared {
    if s.reset then Shared(false, NONE, NONE) else s
  }

  /** The shared base time, set from the clock when there is none. */
  function Generated(base: Time, clock: Time): Time { if base != NONE then base else clock }

  /** No base before 1 ms past the last pushed PTS. */
  function EpochBase(base: Time, lastPts: Time): Time {
    if lastPts != NONE then Max(base, Add(lastPts, MSECOND)) else base
  }

  /** The last checks, and the push. */
  function Emit(d: PtsData, s: Shared, b: Buffer, base: Time, offset: Time): Result {
    if d.lastPtsOrig != NONE && b.pts <= d.lastPtsOrig then Result(d, s, None)
    else
      var diff := Sub(base, offset);
      var out := Buffer(Add(b.pts, diff), Add(b.dts, diff), if b.duration == 1 then NONE else b.duration);
      if d.lastPts != NONE && out.pts <= d.lastPts then Result(d, s, None)
      else Result(d.(lastPts := out.pts, lastPtsOrig := b.pts), s, Some(out))
  }

  function Preroll(d: PtsData, s: Shared, b: Buffer, clock: Time): Result {
    var s1 := ResetShared(s);
    var base := Generated(s1.baseTimePreroll, clock);
    Emit(d.(baseTime := NONE, lastPtsOrig := NONE, ptsHandled := true), s1.(baseTimePreroll := base),
         b, EpochBase(base, d.lastPts), b.pts)
  }

  function Sample(d: PtsData, s: Shared, b: Buffer, clock: Time): Result {
    var handled := d.(ptsHandled := true);
    if d.baseTime != NONE then Emit(handled, s, b, d.baseTime, d.offsetTime)
    else
      var shared := Generated(s.baseTime, clock);
      var base := EpochBase(shared, d.lastPts);
      Emit(handled.(baseTime := base, offsetTime := b.pts), s.(baseTime := shared), b, base, b.pts)
  }

  function ProcessSample(d: PtsData, s: Shared, b: Buffer, isPreroll: bool, clock: Time): Result {
    if !Timestamped(b) then Result(d, s, if d.ptsHandled then None else Some(b))
    else if isPreroll then Preroll(d, s, Filled(b), clock)
    else Sample(d, s, Filled(b), clock)
  }

  // ---- One step ----

  /** What a sink's memory satisfies between samples: every PTS a sample of the running
      epoch could still be given lies past the last one pushed. */
  predicate Ready(d: PtsData) {
    && (d.lastPtsOrig != NONE ==> d.lastPts != NONE)
    && (d.baseTime != NONE ==>
          && d.lastPtsOrig != NONE && d.offsetTime <= d.lastPtsOrig
          && d.lastPts <= d.baseTime + (d.lastPtsOrig - d.offsetTime))
  }

  /** The base and the offset a timestamped buffer is retimed with. */
  function Base(d: PtsData, s: Shared, isPreroll: bool, clock: Time): Time {
    if isPreroll then EpochBase(Generated(ResetShared(s).baseTimePreroll, clock), d.lastPts)
    else if d.baseTime != NONE then d.baseTime
    else EpochBase(Generated(s.baseTime, clock), d.lastPts)
  }

  function Offset(d: PtsData, b: Buffer, isPreroll: bool): Time {
    if isPreroll || d.baseTime == NONE then Filled(b).pts else d.offsetTime
  }

  /** The buffer starts an epoch of its sink. */
  predicate StartsEpoch(d: PtsData, isPreroll: bool) { isPreroll || d.baseTime == NONE }

  /** The buffer passes the test on original timestamps. */
  predicate Advances(d: PtsData, b: Buffer, isPreroll: bool) {
    isPreroll || d.lastPtsOrig == NONE || Filled(b).pts > d.lastPtsOrig
  }

  /** No 64-bit sum of a step wraps, and no time of it is the one that means "none". */
  predicate NoWrap(d: PtsData, s: Shared, b: Buffer, isPreroll: bool, clock: Time) {
    Timestamped(b) ==>
      && clock < NONE
      && (StartsEpoch(d, isPreroll) && d.lastPts != NONE ==> d.lastPts + MSECOND < NONE)
      && (Advances(d, b, isPreroll) ==>
            Base(d, s, isPreroll, clock) + (Filled(b).pts - Offset(d, b, isPreroll)) < NONE)
  }

  lemma ShiftKeepsDifference(p: Time, q: Time, diff: Time)
    ensures Sub(Add(p, diff), Add(q, diff)) == Sub(p, q)
  {
  }

  lemma EmitPushes(d: PtsData, s: Shared, b: Buffer, base: Time, offset: Time)
    requires d.lastPtsOrig == NONE || b.pts > d.lastPtsOrig
    requires offset <= b.pts && base + (b.pts - offset) < NONE
    requires d.lastPts == NONE || d.lastPts < base + (b.pts - offset)
    ensures var r := Emit(d, s, b, base, offset);
            && r.shared == s
            && r.pushed.Some? && r.pushed.value.pts == base + (b.pts - offset)
            && Sub(r.pushed.value.pts, r.pushed.value.dts) == Sub(b.pts, b.dts)
            && r.data == d.(lastPts := base + (b.pts - offset), lastPtsOrig := b.pts)
  {
    ShiftKeepsDifference(b.pts, b.dts, Sub(base, offset));
  }

  lemma BaseIsPast(d: PtsData, s: Shared, b: Buffer, isPreroll: bool, clock: Time)
    requires Ready(d) && Timestamped(b) && NoWrap(d, s, b, isPreroll, clock) && Advances(d, b, isPreroll)
    ensures var base, offset := Base(d, s, isPreroll, clock), Offset(d, b, isPreroll);
            && offset <= Filled(b).pts
            && (d.lastPts == NONE || d.lastPts < base + (Filled(b).pts - offset))
    ensures StartsEpoch(d, isPreroll) && d.lastPts != NONE ==> Base(d, s, isPreroll, clock) >= d.lastPts + MSECOND
  {
  }

  /** One timestamped buffer in full. It is pushed exactly when it is a preroll or its
      original PTS advances: the final guard against a PTS that does not advance never
      fires. It leaves at base + (PTS - offset) as whole numbers, past the last PTS pushed,
      at least 1 ms past it when it starts an epoch, and with PTS - DTS unchanged modulo 2^64. */
  lemma StepPushes(d: PtsData, s: Shared, b: Buffer, isPreroll: bool, clock: Time)
    requires Ready(d) && Timestamped(b) && NoWrap(d, s, b, isPreroll, clock)
    ensures ProcessSample(d, s, b, isPreroll, clock).pushed.Some? <==> Advances(d, b, isPreroll)
    ensures Advances(d, b, isPreroll) ==>
              var f, out := Filled(b), ProcessSample(d, s, b, isPreroll, clock).pushed.value;
              var base, offset := Base(d, s, isPreroll, clock), Offset(d, b, isPreroll);
              && offset <= f.pts && out.pts == base + (f.pts - offset)
              && (d.lastPts != NONE ==> out.pts > d.lastPts)
              && (d.lastPts != NONE && StartsEpoch(d, isPreroll) ==> out.pts >= d.lastPts + MSECOND)
              && Sub(out.pts, out.dts) == Sub(f.pts, f.dts)
  {
    if Advances(d, b, isPreroll) {
      BaseIsPast(d, s, b, isPreroll, clock);
      var f := Filled(b);
      var base, offset := Base(d, s, isPreroll, clock), Offset(d, b, isPreroll);
      var s1 := if isPreroll then ResetShared(s).(baseTimePreroll := Generated(ResetShared(s).baseTimePreroll, clock))
      else if d.baseTime != NONE then s else s.(baseTime := Generated(s.baseTime, clock));
      var d1 := if isPreroll then d.(baseTime := NONE, lastPtsOrig := NONE, ptsHandled := true)
      else d.(baseTime := base, offsetTime := offset, ptsHandled := true);
      EmitPushes(d1, s1, f, base, offset);
      assert ProcessSample(d, s, b, isPreroll, clock) == Emit(d1, s1, f, base, offset);
    }
  }

  /** Without any bound on the times: a timestamped preroll is dropped exactly when the last
      PTS pushed lies within 1 ms of 2^64, so that the new base wraps, and the shared base
      time is not past it. */
  lemma PrerollExactly(d: PtsData, s: Shared, b: Buffer, clock: Time)
    requires Timestamped(b)
    ensures ProcessSample(d, s, b, true, clock).pushed.None? <==>
            d.lastPts != NONE && d.lastPts + MSECOND >= RANGE
            && Generated(ResetShared(s).baseTimePreroll, clock) <= d.lastPts
    ensures ProcessSample(d, s, b, true, clock).pushed.Some? ==>
              ProcessSample(d, s, b, true, clock).pushed.value.pts == Base(d, s, true, clock)
  {
  }

  /** What one sample keeps, and what it remembers of a push. */
  lemma StepKeeps(d: PtsData, s: Shared, b: Buffer, isPreroll: bool, clock: Time)
    requires Ready(d) && NoWrap(d, s, b, isPreroll, clock)
    ensures var r := ProcessSample(d, s, b, isPreroll, clock);
            && Ready(r.data)
            && if r.pushed.Some? && Timestamped(b) then
                 && (d.lastPts == NONE || d.lastPts < r.pushed.value.pts)
                 && r.data.lastPts == r.pushed.value.pts < NONE
               else r.data.lastPts == d.lastPts
  {
    if Timestamped(b) && Advances(d, b, isPreroll) {
      StepPushes(d, s, b, isPreroll, clock);
      BaseIsPast(d, s, b, isPreroll, clock);
    }
  }

  // ---- Whole runs ----

  datatype State = State(sinks: map<nat, PtsData>, shared: Shared)

  datatype Event =
    | Arrive(sink: nat, buffer: Buffer, isPreroll: bool, clock: Time)
    | MarkReset

  /** A push of one run: the sink, the PTS it arrived with and the PTS it left with. */
  datatype Push = Push(sink: nat, original: Time, pts: Time)

  function Init(): State { State(map[], NewShared()) }

  function SinkOf(p: State, k: nat): PtsData { if k in p.sinks then p.sinks[k] else NewPtsData() }

  function Step(p: State, e: Event): State {
    match e
    case Arrive(k, b, isPreroll, clock) =>
      var r := ProcessSample(SinkOf(p, k), p.shared, b, isPreroll, clock);
      State(p.sinks[k := r.data], r.shared)
    case MarkReset => p.(shared := p.shared.(reset := true))
  }

  /** The timestamped buffer an event pushes, if any. */
  function PushOf(p: State, e: Event): seq<Push> {
    match e
    case Arrive(k, b, isPreroll, clock) =>
      var r := ProcessSample(SinkOf(p, k), p.shared, b, isPreroll, clock);
      if r.pushed.Some? && Timestamped(b) then [Push(k, Filled(b).pts, r.pushed.value.pts)] else []
    case MarkReset => []
  }

  function Run(p: State, es: seq<Event>): State
    decreases |es|
  {
    if es == [] then p else Run(Step(p, es[0]), es[1..])
  }

  function Pushes(p: State, es: seq<Event>): seq<Push>
    decreases |es|
  {
    if es == [] then [] else PushOf(p, es[0]) + Pushes(Step(p, es[0]), es[1..])
  }

  /** No sum wraps at any step of the run. */
  predicate StepNoWrap(p: State, e: Event) {
    e.Arrive? ==> NoWrap(SinkOf(p, e.sink), p.shared, e.buffer, e.isPreroll, e.clock)
  }

  predicate RunNoWrap(p: State, es: seq<Event>)
    decreases |es|
  {
    es != [] ==> StepNoWrap(p, es[0]) && RunNoWrap(Step(p, es[0]), es[1..])
  }

  ghost predicate AllReady(p: State) {
    forall k :: Ready(SinkOf(p, k))
  }

  lemma SinkAfter(p: State, e: Event)
    requires e.Arrive?
    ensures forall k :: SinkOf(Step(p, e), k) ==
              if k == e.sink then ProcessSample(SinkOf(p, k), p.shared, e.buffer, e.isPreroll, e.clock).data
              else SinkOf(p, k)
  {
  }

  lemma StepAllReady(p: State, e: Event)
    requires AllReady(p) && StepNoWrap(p, e)
    ensures AllReady(Step(p, e))
  {
    if e.Arrive? {
      SinkAfter(p, e);
      StepKeeps(SinkOf(p, e.sink), p.shared, e.buffer, e.isPreroll, e.clock);
    } else {
      assert forall k :: SinkOf(Step(p, e), k) == SinkOf(p, k);
    }
  }

  /** The pushes of one sink increase, and continue past what it pushed before. */
  predicate Increasing(pushes: seq<Push>) {
    forall i, j :: 0 <= i < j < |pushes| && pushes[i].sink == pushes[j].sink ==> pushes[i].pts < pushes[j].pts
  }

  ghost predicate Past(p: State, pushes: seq<Push>) {
    forall i :: 0 <= i < |pushes| ==>
      SinkOf(p, pushes[i].sink).lastPts == NONE || SinkOf(p, pushes[i].sink).lastPts < pushes[i].pts
  }

  lemma StepPast(p: State, e: Event)
    requires AllReady(p) && StepNoWrap(p, e)
    ensures Past(p, PushOf(p, e)) && |PushOf(p, e)| <= 1
    ensures forall k :: SinkOf(p, k).lastPts != NONE ==>
              SinkOf(Step(p, e), k).lastPts != NONE && SinkOf(Step(p, e), k).lastPts >= SinkOf(p, k).lastPts
    ensures PushOf(p, e) != [] ==>
              var push := PushOf(p, e)[0];
              SinkOf(Step(p, e), push.sink).lastPts == push.pts && push.pts < NONE
  {
    if e.Arrive? {
      StepKeeps(SinkOf(p, e.sink), p.shared, e.buffer, e.isPreroll, e.clock);
      SinkAfter(p, e);
    }
  }

  lemma ConcatIncreasing(p: State, p': State, first: seq<Push>, rest: seq<Push>)
    requires |first| <= 1 && Past(p, first) && Past(p', rest) && Increasing(rest)
    requires forall k :: SinkOf(p, k).lastPts != NONE ==>
               SinkOf(p', k).lastPts != NONE && SinkOf(p', k).lastPts >= SinkOf(p, k).lastPts
    requires first != [] ==> SinkOf(p', first[0].sink).lastPts == first[0].pts < NONE
    ensures Increasing(first + rest) && Past(p, first + rest)
  {
  }

  lemma {:induction false} RunIncreasing(p: State, es: seq<Event>)
    requires AllReady(p) && RunNoWrap(p, es)
    ensures Increasing(Pushes(p, es)) && Past(p, Pushes(p, es))
    decreases |es|
  {
    if es != [] {
      StepAllReady(p, es[0]);
      StepPast(p, es[0]);
      RunIncreasing(Step(p, es[0]), es[1..]);
      ConcatIncreasing(p, Step(p, es[0]), PushOf(p, es[0]), Pushes(Step(p, es[0]), es[1..]));
    }
  }

  /** For every sequence of prerolls, samples and reset marks on any number of sinks, the
      PTS pushed for one sink strictly increase, however long the run, as long as no 64-bit
      sum wraps. */
  lemma PushedPtsIncrease(es: seq<Event>)
    requires RunNoWrap(Init(), es)
    ensures Increasing(Pushes(Init(), es))
  {
    RunIncreasing(Init(), es);
  }

  lemma {:induction false} RunReady(p: State, es: seq<Event>, fs: seq<Event>)
    requires AllReady(p) && RunNoWrap(p, es + fs)
    ensures AllReady(Run(p, es)) && RunNoWrap(Run(p, es), fs)
    decreases |es|
  {
    if es == [] {
      assert es + fs == fs;
    } else {
      assert (es + fs)[1..] == es[1..] + fs;
      StepAllReady(p, es[0]);
      RunReady(Step(p, es[0]), es[1..], fs);
    }
  }

  /** Every timestamped preroll, and every timestamped sample whose original PTS advances,
      is pushed, anywhere on such a run. */
  lemma NothingElseIsDropped(es: seq<Event>, k: nat, b: Buffer, isPreroll: bool, clock: Time)
    requires RunNoWrap(Init(), es + [Arrive(k, b, isPreroll, clock)]) && Timestamped(b)
    ensures var p := Run(Init(), es);
            PushOf(p, Arrive(k, b, isPreroll, clock)) != [] <==> Advances(SinkOf(p, k), b, isPreroll)
  {
    RunReady(Init(), es, [Arrive(k, b, isPreroll, clock)]);
    var p := Run(Init(), es);
    StepPushes(SinkOf(p, k), p.shared, b, isPreroll, clock);
  }

  // ---- Epochs ----

  /** No timestamped preroll of sink k: its epoch goes on. */
  predicate SameEpoch(es: seq<Event>, k: nat) {
    forall e :: e in es && e.Arrive? && e.sink == k ==> !e.isPreroll || !Timestamped(e.buffer)
  }

  lemma StepEpoch(p: State, e: Event, k: nat)
    requires AllReady(p) && StepNoWrap(p, e)
    requires SinkOf(p, k).baseTime != NONE && SameEpoch([e], k)
    ensures SinkOf(Step(p, e), k).baseTime == SinkOf(p, k).baseTime
    ensures SinkOf(Step(p, e), k).offsetTime == SinkOf(p, k).offsetTime
    ensures forall push :: push in PushOf(p, e) && push.sink == k ==>
              push.original >= SinkOf(p, k).offsetTime
              && push.pts == SinkOf(p, k).baseTime + (push.original - SinkOf(p, k).offsetTime)
  {
    if e.Arrive? && e.sink == k {
      assert e in [e];
      if Timestamped(e.buffer) {
        StepPushes(SinkOf(p, k), p.shared, e.buffer, false, e.clock);
      }
    }
  }

  lemma {:induction false} RunEpoch(p: State, es: seq<Event>, k: nat)
    requires AllReady(p) && RunNoWrap(p, es)
    requires SinkOf(p, k).baseTime != NONE && SameEpoch(es, k)
    ensures forall push :: push in Pushes(p, es) && push.sink == k ==>
              push.original >= SinkOf(p, k).offsetTime
              && push.pts == SinkOf(p, k).baseTime + (push.original - SinkOf(p, k).offsetTime)
    decreases |es|
  {
    if es != [] {
      assert es[0] in es && forall e :: e in es[1..] ==> e in es;
      StepAllReady(p, es[0]);
      StepEpoch(p, es[0], k);
      RunEpoch(Step(p, es[0]), es[1..], k);
    }
  }

  /** Within an epoch of a sink every push keeps one distance from its original PTS, and so
      all gaps; none leaves before the base of the epoch. The epoch begins at any point of a
      run and lasts until the next timestamped preroll, however long that takes. */
  lemma EpochKeepsGaps(es: seq<Event>, fs: seq<Event>, k: nat)
    requires RunNoWrap(Init(), es + fs)
    requires SinkOf(Run(Init(), es), k).baseTime != NONE && SameEpoch(fs, k)
    ensures var p := Run(Init(), es);
            forall push :: push in Pushes(p, fs) && push.sink == k ==>
              push.original >= SinkOf(p, k).offsetTime
              && push.pts == SinkOf(p, k).baseTime + (push.original - SinkOf(p, k).offsetTime)
  {
    RunReady(Init(), es, fs);
    RunEpoch(Run(Init(), es), fs, k);
  }

  // ---- How long nothing wraps ----

  /** A clock reading and a buffer's timestamps within a bound. */
  predicate Within(e: Event, most: nat) {
    e.Arrive? ==> e.clock <= most && (Timestamped(e.buffer) ==> Filled(e.buffer).pts <= most)
  }

  predicate AtMost(t: Time, limit: int) { t == NONE || t <= limit }

  /** An epoch that starts now stays below the limit, and so does a running one. */
  ghost predicate Below(p: State, limit: int, most: nat) {
    SharedWithin(p.shared, most) && forall k :: SinkBelow(SinkOf(p, k), limit, most)
  }

  /** The event starts an epoch of its sink. */
  predicate Begins(p: State, e: Event) {
    e.Arrive? && Timestamped(e.buffer) && StartsEpoch(SinkOf(p, e.sink), e.isPreroll)
  }

  function Epochs(p: State, es: seq<Event>): nat
    decreases |es|
  {
    if es == [] then 0 else (if Begins(p, es[0]) then 1 else 0) + Epochs(Step(p, es[0]), es[1..])
  }

  /** The limit once a sample has been handled. */
  function Raised(d: PtsData, b: Buffer, isPreroll: bool, limit: int, most: nat): int {
    if Timestamped(b) && StartsEpoch(d, isPreroll) then limit + most + MSECOND else limit
  }

  predicate SharedWithin(s: Shared, most: nat) {
    AtMost(s.baseTime, most) && AtMost(s.baseTimePreroll, most)
  }

  predicate SinkBelow(d: PtsData, limit: int, most: nat) {
    AtMost(d.lastPts, limit - MSECOND) && AtMost(d.baseTime, limit - MSECOND - most)
  }

  lemma SampleFits(d: PtsData, s: Shared, b: Buffer, isPreroll: bool, clock: Time, limit: int, most: nat)
    requires Ready(d) && SinkBelow(d, limit, most) && SharedWithin(s, most) && Timestamped(b)
    requires clock <= most <= limit && Filled(b).pts <= most && Raised(d, b, isPreroll, limit, most) < NONE
    ensures NoWrap(d, s, b, isPreroll, clock)
    ensures StartsEpoch(d, isPreroll) ==>
              Base(d, s, isPreroll, clock) <= limit && Offset(d, b, isPreroll) == Filled(b).pts
  {
  }

  lemma SampleBelow(d: PtsData, s: Shared, b: Buffer, isPreroll: bool, clock: Time, limit: int, most: nat)
    requires Ready(d) && SinkBelow(d, limit, most) && SharedWithin(s, most)
    requires clock <= most <= limit && (Timestamped(b) ==> Filled(b).pts <= most)
    requires Raised(d, b, isPreroll, limit, most) < NONE
    ensures NoWrap(d, s, b, isPreroll, clock)
    ensures var r := ProcessSample(d, s, b, isPreroll, clock);
            SharedWithin(r.shared, most) && SinkBelow(r.data, Raised(d, b, isPreroll, limit, most), most)
  {
    if Timestamped(b) {
      SampleFits(d, s, b, isPreroll, clock, limit, most);
      StepKeeps(d, s, b, isPreroll, clock);
      if Advances(d, b, isPreroll) {
        StepPushes(d, s, b, isPreroll, clock);
      }
    }
  }

  lemma StepBelow(p: State, e: Event, limit: int, most: nat)
    requires AllReady(p) && Below(p, limit, most) && Within(e, most) && most <= limit
    requires limit + (if Begins(p, e) then most + MSECOND else 0) < NONE
    ensures StepNoWrap(p, e)
    ensures Below(Step(p, e), limit + (if Begins(p, e) then most + MSECOND else 0), most)
  {
    if e.Arrive? {
      SinkAfter(p, e);
      SampleBelow(SinkOf(p, e.sink), p.shared, e.buffer, e.isPreroll, e.clock, limit, most);
    } else {
      assert forall k :: SinkOf(Step(p, e), k) == SinkOf(p, k);
    }
  }

  lemma OneEpochLess(limit: int, n: nat, most: nat)
    requires n > 0 && limit + n * (most + MSECOND) < NONE
    ensures limit + (most + MSECOND) + (n - 1) * (most + MSECOND) < NONE
    ensures (n - 1) * (most + MSECOND) >= 0
  {
  }

  lemma {:induction false} RunBelow(p: State, es: seq<Event>, limit: int, most: nat)
    requires AllReady(p) && Below(p, limit, most) && (forall e :: e in es ==> Within(e, most)) && most <= limit
    requires limit + Epochs(p, es) * (most + MSECOND) < NONE
    ensures RunNoWrap(p, es)
    decreases |es|
  {
    if es != [] {
      assert es[0] in es && forall e :: e in es[1..] ==> e in es;
      var limit' := limit;
      if Begins(p, es[0]) {
        OneEpochLess(limit, Epochs(p, es), most);
        limit' := limit + most + MSECOND;
      }
      StepBelow(p, es[0], limit, most);
      StepAllReady(p, es[0]);
      RunBelow(Step(p, es[0]), es[1..], limit', most);
    }
  }

  /** Only epochs use up the 64 bits: with all clock readings and timestamps at most `most`,
      nothing wraps on a run of any length with fewer than 2^64 / (most + 1 ms) - 1 of them. */
  lemma FewEpochsFit(es: seq<Event>, most: nat)
    requires forall e :: e in es ==> Within(e, most)
    requires (Epochs(Init(), es) + 1) * (most + MSECOND) < NONE
    ensures RunNoWrap(Init(), es)
  {
    var n := Epochs(Init(), es);
    assert (n + 1) * (most + MSECOND) == most + MSECOND + n * (most + MSECOND);
    RunBelow(Init(), es, most + MSECOND, most);
  }

  // ---- Reset marks ----

  function Marks(es: seq<Event>): nat {
    if es == [] then 0 else (if es[0].MarkReset? then 1 else 0) + Marks(es[1..])
  }

  predicate Clears(p: State, e: Event) {
    e.Arrive? && e.isPreroll && Timestamped(e.buffer) && p.shared.reset
  }

  function ClearCount(p: State, es: seq<Event>): nat
    decreases |es|
  {
    if es == [] then 0 else (if Clears(p, es[0]) then 1 else 0) + ClearCount(Step(p, es[0]), es[1..])
  }

  /** A mark clears the shared base times at most once, whichever sink prerolls first; and
      nothing else clears them. */
  lemma {:induction false} MarkClearsOnce(p: State, es: seq<Event>)
    ensures ClearCount(p, es) + (if Run(p, es).shared.reset then 1 else 0)
         <= Marks(es) + (if p.shared.reset then 1 else 0)
    decreases |es|
  {
    if es != [] {
      MarkClearsOnce(Step(p, es[0]), es[1..]);
    }
  }

  lemma ClearsAlone(p: State, e: Event)
    requires !Clears(p, e)
    ensures p.shared.baseTime != NONE ==> Step(p, e).shared.baseTime == p.shared.baseTime
    ensures p.shared.baseTimePreroll != NONE ==> Step(p, e).shared.baseTimePreroll == p.shared.baseTimePreroll
  {
  }

  /** Until a mark takes effect, all sinks are timed from the same base: once set, the shared
      base times stay through any run without a clearing. */
  lemma {:induction false} OnlyMarksClear(p: State, es: seq<Event>)
    requires ClearCount(p, es) == 0
    ensures p.shared.baseTime != NONE ==> Run(p, es).shared.baseTime == p.shared.baseTime
    ensures p.shared.baseTimePreroll != NONE ==> Run(p, es).shared.baseTimePreroll == p.shared.baseTimePreroll
    decreases |es|
  {
    if es != [] {
      ClearsAlone(p, es[0]);
      OnlyMarksClear(Step(p, es[0]), es[1..]);
    }
  }
}
