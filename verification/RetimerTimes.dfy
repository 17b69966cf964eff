/** Which time each buffer leaves at, in terms of the clock and of its own timestamps, and what
    that makes of a run: every sink starts at the clock reading of the first sample. */
module RetimerTimes {
  import opened ClockTime
  import opened Retimer
  import opened Wrappers

  /** A buffer's PTS, or its DTS where it has none. */
  function Original(b: Buffer): Time { if b.pts == NONE then b.dts else b.pts }

  predicate Untimed(b: Buffer) { b.pts == NONE && b.dts == NONE }

  /** The buffer leaves at this time, with its DTS moved by as much modulo 2^64, a DTS like the
      PTS where it had only one of them, and a duration of 1 ns dropped. */
  predicate LeavesAt(pushed: Option<Buffer>, b: Buffer, t: int) {
    && pushed.Some? && pushed.value.pts == t
    && (if b.pts == NONE || b.dts == NONE then pushed.value.dts == t
        else (pushed.value.dts - t - (b.dts - b.pts)) % 0x1_0000_0000_0000_0000 == 0)
    && pushed.value.duration == (if b.duration == 1 then NONE else b.duration)
  }

  /** The later of a base time and 1 ms past the last push of the sink, if there was one. */
  predicate StartTime(t: int, base: int, last: Time) {
    if last == NONE then t == base else t >= base && t >= last + 1_000_000 && (t == base || t == last + 1_000_000)
  }

  /** 1 ms past the last push is still a time. */
  predicate RoomToStart(last: Time) { last == NONE || last + 1_000_000 < NONE }

  lemma ShiftModulo(p: Time, q: Time, diff: Time)
    ensures (Add(q, diff) - Add(p, diff) - (q - p)) % 0x1_0000_0000_0000_0000 == 0
  {
    var x := Add(q, diff) - Add(p, diff) - (q - p);
    assert x == 0 || x == RANGE || x == -RANGE;
  }

  lemma Shifted(d: PtsData, s: Shared, b: Buffer, base: Time, offset: Time)
    requires !Untimed(b) && Emit(d, s, Filled(b), base, offset).pushed.Some?
    ensures var pushed := Emit(d, s, Filled(b), base, offset).pushed;
            LeavesAt(pushed, b, pushed.value.pts)
  {
    ShiftModulo(Filled(b).pts, Filled(b).dts, Sub(base, offset));
  }

  // ---- One buffer ----

  /** A buffer without timestamps leaves as it came, until one with timestamps has passed. */
  lemma UntimedExactly(d: PtsData, s: Shared, b: Buffer, isPreroll: bool, clock: Time)
    requires Untimed(b)
    ensures var r := ProcessSample(d, s, b, isPreroll, clock);
            && r.data == d && r.shared == s
            && (!d.ptsHandled ==> r.pushed == Some(b)) && (d.ptsHandled ==> r.pushed == None)
  {
  }

  /** A preroll leaves at the preroll time that the sinks share, or 1 ms past what the sink
      pushed last if that is later. There is no shared time at first or after a mark: then it
      is the clock. The mark also clears the samples' shared time, and is used up. */
  lemma PrerollTime(d: PtsData, s: Shared, b: Buffer, clock: Time)
    requires !Untimed(b) && RoomToStart(d.lastPts)
    ensures var r := ProcessSample(d, s, b, true, clock);
            var base := if s.reset || s.baseTimePreroll == NONE then clock else s.baseTimePreroll;
            && r.pushed.Some? && LeavesAt(r.pushed, b, r.pushed.value.pts)
            && StartTime(r.pushed.value.pts, base, d.lastPts)
            && r.shared == Shared(false, if s.reset then NONE else s.baseTime, base)
            && r.data == PtsData(NONE, d.offsetTime, r.pushed.value.pts, Original(b), true)
  {
    var s1 := ResetShared(s);
    var base := Generated(s1.baseTimePreroll, clock);
    Shifted(d.(baseTime := NONE, lastPtsOrig := NONE, ptsHandled := true), s1.(baseTimePreroll := base), b,
            EpochBase(base, d.lastPts), Filled(b).pts);
  }

  /** The first sample of an epoch starts it at the time that the sinks share for samples, which
      is the clock if there is none yet, or 1 ms past what the sink pushed last. */
  lemma EpochStart(d: PtsData, s: Shared, b: Buffer, clock: Time)
    requires !Untimed(b) && RoomToStart(d.lastPts) && d.baseTime == NONE
    ensures var r := ProcessSample(d, s, b, false, clock);
            var base := if s.baseTime == NONE then clock else s.baseTime;
            && StartTime(r.data.baseTime, base, d.lastPts) && r.data.offsetTime == Original(b)
            && r.data.ptsHandled && r.shared == Shared(s.reset, base, s.baseTimePreroll)
            && (d.lastPts == d.lastPtsOrig == NONE ==> LeavesAt(r.pushed, b, r.data.baseTime))
  {
    if d.lastPts == d.lastPtsOrig == NONE {
      FirstSampleTime(d, s, b, clock);
    }
  }

  /** That sample is dropped if it is no later than the preroll was; otherwise it leaves when the
      epoch starts. */
  lemma FirstSampleTime(d: PtsData, s: Shared, b: Buffer, clock: Time)
    requires !Untimed(b) && RoomToStart(d.lastPts) && d.baseTime == NONE
    requires d.lastPtsOrig != NONE ==> d.lastPts != NONE
    ensures var r := ProcessSample(d, s, b, false, clock);
            if d.lastPtsOrig == NONE || Original(b) > d.lastPtsOrig then
              && LeavesAt(r.pushed, b, r.data.baseTime)
              && r.data.lastPts == r.data.baseTime && r.data.lastPtsOrig == Original(b)
            else r.pushed == None && r.data.lastPts == d.lastPts && r.data.lastPtsOrig == d.lastPtsOrig
  {
    var shared := Generated(s.baseTime, clock);
    var base := EpochBase(shared, d.lastPts);
    var d1 := d.(ptsHandled := true, baseTime := base, offsetTime := Filled(b).pts);
    var s1 := s.(baseTime := shared);
    assert ProcessSample(d, s, b, false, clock) == Emit(d1, s1, Filled(b), base, Filled(b).pts);
    if Emit(d1, s1, Filled(b), base, Filled(b).pts).pushed.Some? {
      Shifted(d1, s1, b, base, Filled(b).pts);
    }
  }

  /** In a running epoch a sample that advances leaves as far past the epoch's start as it is
      past the epoch's first sample; one that does not is dropped. */
  lemma RunningTime(d: PtsData, s: Shared, b: Buffer, clock: Time)
    requires !Untimed(b) && Ready(d) && d.baseTime != NONE
    requires d.baseTime + (Original(b) - d.offsetTime) < NONE
    ensures var r := ProcessSample(d, s, b, false, clock);
            && r.shared == s
            && if Original(b) > d.lastPtsOrig then
                 && LeavesAt(r.pushed, b, d.baseTime + (Original(b) - d.offsetTime))
                 && r.data == PtsData(d.baseTime, d.offsetTime, r.pushed.value.pts, Original(b), true)
               else r.pushed == None && r.data == d.(ptsHandled := true)
  {
    var d1 := d.(ptsHandled := true);
    if Original(b) > d.lastPtsOrig {
      EmitPushes(d1, s, Filled(b), d.baseTime, d.offsetTime);
      Shifted(d1, s, b, d.baseTime, d.offsetTime);
    }
  }

  // ---- Whole runs ----

  /** A timestamped buffer of sink k. */
  predicate TimedFor(e: Event, k: nat) { e.Arrive? && e.sink == k && !Untimed(e.buffer) }

  lemma {:induction false} Handled(p: State, es: seq<Event>, k: nat)
    ensures SinkOf(Run(p, es), k).ptsHandled <==>
            SinkOf(p, k).ptsHandled || exists e :: e in es && TimedFor(e, k)
    decreases |es|
  {
    if es != [] {
      Handled(Step(p, es[0]), es[1..], k);
      assert es == [es[0]] + es[1..];
      HandledStep(p, es[0], k);
    }
  }

  lemma HandledStep(p: State, e: Event, k: nat)
    ensures SinkOf(Step(p, e), k).ptsHandled <==> SinkOf(p, k).ptsHandled || TimedFor(e, k)
  {
  }

  /** On every run a buffer without timestamps is pushed exactly if no timestamped one of its
      sink came before it. */
  lemma UntimedOnlyFirst(es: seq<Event>, k: nat, b: Buffer, isPreroll: bool, clock: Time)
    requires Untimed(b)
    ensures var p := Run(Init(), es);
            ProcessSample(SinkOf(p, k), p.shared, b, isPreroll, clock).pushed
            == if exists e :: e in es && TimedFor(e, k) then None else Some(b)
  {
    Handled(Init(), es, k);
    var p := Run(Init(), es);
    UntimedExactly(SinkOf(p, k), p.shared, b, isPreroll, clock);
  }

  lemma {:induction false} NothingTimedYet(p: State, es: seq<Event>, k: nat)
    requires forall e :: e in es && e.Arrive? ==> Untimed(e.buffer)
    ensures SinkOf(Run(p, es), k) == SinkOf(p, k)
    ensures Run(p, es).shared.baseTime == p.shared.baseTime
    ensures Run(p, es).shared.baseTimePreroll == p.shared.baseTimePreroll
    decreases |es|
  {
    if es != [] {
      assert es[0] in es && forall e :: e in es[1..] ==> e in es;
      NothingTimedYet(Step(p, es[0]), es[1..], k);
    }
  }

  /** The first timestamped buffer of a run leaves at the clock reading, whatever its own
      timestamps are. */
  lemma FirstBufferAtClock(es: seq<Event>, k: nat, b: Buffer, isPreroll: bool, clock: Time)
    requires !Untimed(b) && forall e :: e in es && e.Arrive? ==> Untimed(e.buffer)
    ensures var p := Run(Init(), es);
            LeavesAt(ProcessSample(SinkOf(p, k), p.shared, b, isPreroll, clock).pushed, b, clock)
  {
    NothingTimedYet(Init(), es, k);
    var p := Run(Init(), es);
    if isPreroll {
      PrerollTime(SinkOf(p, k), p.shared, b, clock);
    } else {
      EpochStart(SinkOf(p, k), p.shared, b, clock);
    }
  }

  /** All sinks are timed from one clock reading, that of the first sample: after it, on any run
      in which no mark takes effect, every epoch of any sink starts at that reading or 1 ms past
      what the sink pushed last, whatever the clock says by then; a sink that has pushed nothing
      starts with a buffer at that reading. */
  lemma OneBaseForAll(p: State, k0: nat, b0: Buffer, clock0: Time, es: seq<Event>, k: nat, b: Buffer, clock: Time)
    requires !Untimed(b0) && clock0 != NONE && p.shared.baseTime == NONE && SinkOf(p, k0).baseTime == NONE
    requires var p1 := Step(p, Arrive(k0, b0, false, clock0));
             && ClearCount(p1, es) == 0
             && SinkOf(Run(p1, es), k).baseTime == NONE && RoomToStart(SinkOf(Run(p1, es), k).lastPts)
    requires !Untimed(b)
    ensures var q := Run(Step(p, Arrive(k0, b0, false, clock0)), es);
            var r := ProcessSample(SinkOf(q, k), q.shared, b, false, clock);
            && StartTime(r.data.baseTime, clock0, SinkOf(q, k).lastPts) && r.data.offsetTime == Original(b)
            && (SinkOf(q, k).lastPts == SinkOf(q, k).lastPtsOrig == NONE ==> LeavesAt(r.pushed, b, clock0))
  {
    var q := Step(p, Arrive(k0, b0, false, clock0));
    assert q.shared.baseTime == clock0;
    OnlyMarksClear(q, es);
    EpochStart(SinkOf(Run(q, es), k), Run(q, es).shared, b, clock);
  }

  /** And so are the prerolls, from the reading of the first preroll. */
  lemma OnePrerollForAll(p: State, k0: nat, b0: Buffer, clock0: Time, es: seq<Event>, k: nat, b: Buffer, clock: Time)
    requires !Untimed(b0) && clock0 != NONE && (p.shared.baseTimePreroll == NONE || p.shared.reset) && !Untimed(b)
    requires var p1 := Step(p, Arrive(k0, b0, true, clock0));
             && ClearCount(p1, es + [Arrive(k, b, true, clock)]) == 0
             && RoomToStart(SinkOf(Run(p1, es), k).lastPts)
    ensures var q := Run(Step(p, Arrive(k0, b0, true, clock0)), es);
            var pushed := ProcessSample(SinkOf(q, k), q.shared, b, true, clock).pushed;
            && pushed.Some? && LeavesAt(pushed, b, pushed.value.pts)
            && StartTime(pushed.value.pts, clock0, SinkOf(q, k).lastPts)
  {
    var q := Step(p, Arrive(k0, b0, true, clock0));
    assert q.shared.baseTimePreroll == clock0;
    NoClearing(q, es, Arrive(k, b, true, clock));
    OnlyMarksClear(q, es);
    PrerollTime(SinkOf(Run(q, es), k), Run(q, es).shared, b, clock);
  }

  lemma {:induction false} NoMarks(es: seq<Event>)
    requires forall e :: e in es ==> !e.MarkReset?
    ensures Marks(es) == 0
  {
    if es != [] {
      assert es[0] in es && forall e :: e in es[1..] ==> e in es;
      NoMarks(es[1..]);
    }
  }

  /** Without a mark the shared times are never cleared. */
  lemma UnmarkedNeverClears(es: seq<Event>)
    requires forall e :: e in es ==> !e.MarkReset?
    ensures ClearCount(Init(), es) == 0
  {
    NoMarks(es);
    MarkClearsOnce(Init(), es);
  }

  lemma {:induction false} MarkStays(p: State, es: seq<Event>)
    requires p.shared.reset && forall e :: e in es && e.Arrive? && e.isPreroll ==> Untimed(e.buffer)
    ensures Run(p, es).shared.reset
    decreases |es|
  {
    if es != [] {
      assert es[0] in es && forall e :: e in es[1..] ==> e in es;
      MarkStays(Step(p, es[0]), es[1..]);
    }
  }

  /** With one, whatever comes in between, the next timestamped preroll of any sink starts anew
      from the clock, and the samples' shared time is gone too. */
  lemma MarkTakesEffect(p: State, es: seq<Event>, k: nat, b: Buffer, clock: Time)
    requires forall e :: e in es && e.Arrive? && e.isPreroll ==> Untimed(e.buffer)
    requires !Untimed(b) && RoomToStart(SinkOf(Run(Step(p, MarkReset), es), k).lastPts)
    ensures var q := Run(Step(p, MarkReset), es);
            var r := ProcessSample(SinkOf(q, k), q.shared, b, true, clock);
            && r.pushed.Some? && StartTime(r.pushed.value.pts, clock, SinkOf(q, k).lastPts)
            && r.shared == Shared(false, NONE, clock)
  {
    MarkStays(Step(p, MarkReset), es);
    var q := Run(Step(p, MarkReset), es);
    PrerollTime(SinkOf(q, k), q.shared, b, clock);
  }

  lemma {:induction false} NoClearing(p: State, es: seq<Event>, e: Event)
    requires ClearCount(p, es + [e]) == 0
    ensures ClearCount(p, es) == 0 && !Clears(Run(p, es), e)
    decreases |es|
  {
    if es == [] {
      assert es + [e] == [e];
    } else {
      assert (es + [e])[1..] == es[1..] + [e];
      NoClearing(Step(p, es[0]), es[1..], e);
    }
  }
}
