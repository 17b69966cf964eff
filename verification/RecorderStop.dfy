/** Sources that wait for the EOS of a stop, and commands that drop their lock: on which runs of
    the recorder a source is left waiting. */
module RecorderStop {
  import opened ClockTime
  import opened Recorder
  import opened Wrappers

  // ---- Sources waiting for EOS ----

  /** A muxer goes down, and reports it, only when it has been asked to. */
  predicate MuxerObeys(s: State, es: seq<Event>)
    decreases |es|
  {
    es != [] ==> (es[0].MuxerReady? ==> s.nullAsked) && MuxerObeys(Step(s, es[0]), es[1..])
  }

  /** Sources wait only while an EOS drains, the muxer is asked to go down only once there is
      none to wait for, and a recorder that plays has its pads. */
  predicate Drained(s: State) {
    && (!s.sentEos ==> s.pending == {})
    && (s.sentEos ==> s.transition == Stopping)
    && (s.stopped ==> AtRest(s))
    && (s.nullAsked ==> !s.sentEos && (s.transition == Stopping || s.stopped))
    && ((s.playing || s.transition == Starting) && s.transition != Stopping ==> !s.generatePads)
  }

  lemma StepDrained(s: State, e: Event)
    requires Drained(s) && (e.MuxerReady? ==> s.nullAsked)
    ensures Drained(Step(s, e))
  {
  }

  lemma {:induction false} RunDrained(s: State, es: seq<Event>)
    requires Drained(s) && MuxerObeys(s, es)
    ensures Drained(Run(s, es))
    decreases |es|
  {
    if es != [] {
      StepDrained(s, es[0]);
      RunDrained(Step(s, es[0]), es[1..]);
    }
  }

  /** On every run with a muxer that goes down only when asked, sources wait only while an EOS
      drains: the recorder does not ask before the EOS has come through. */
  lemma NothingLeftWaiting(es: seq<Event>)
    requires MuxerObeys(Init(), es)
    ensures var s := Run(Init(), es);
            && (s.pending != {} ==> s.sentEos && s.transition == Stopping)
            && (s.stopped ==> s.pending == {})
  {
    RunDrained(Init(), es);
  }

  lemma {:induction false} RunSplits(s: State, es: seq<Event>, fs: seq<Event>)
    requires MuxerObeys(s, es + fs)
    ensures MuxerObeys(s, es) && MuxerObeys(Run(s, es), fs) && Run(s, es + fs) == Run(Run(s, es), fs)
    decreases |es|
  {
    if es == [] {
      assert es + fs == fs;
    } else {
      assert (es + fs)[1..] == es[1..] + fs;
      RunSplits(Step(s, es[0]), es[1..], fs);
    }
  }

  function EosCount(es: seq<Event>): nat {
    if es == [] then 0 else (if es[0].MuxerEos? then 1 else 0) + EosCount(es[1..])
  }

  lemma DrainStep(s: State, e: Event)
    requires Drained(s) && s.sentEos && !e.MuxerEos? && (e.MuxerReady? ==> s.nullAsked)
    ensures Step(s, e).sentEos && s.srcs <= Step(s, e).srcs && s.pending <= Step(s, e).pending
  {
  }

  lemma {:induction false} DrainGoesOn(s: State, es: seq<Event>)
    requires Drained(s) && s.sentEos && MuxerObeys(s, es) && EosCount(es) == 0
    ensures Run(s, es).sentEos && s.srcs <= Run(s, es).srcs && s.pending <= Run(s, es).pending
    decreases |es|
  {
    if es != [] {
      DrainStep(s, es[0]);
      StepDrained(s, es[0]);
      DrainGoesOn(Step(s, es[0]), es[1..]);
    }
  }

  /** From any point of a run at which an EOS drains, for as long as it has not come through,
      no source is given back and none is forgotten; when it comes, all that wait are given
      back at once. */
  lemma EosReleases(es: seq<Event>, fs: seq<Event>, removable: set<nat>)
    requires MuxerObeys(Init(), es + fs) && Run(Init(), es).sentEos && EosCount(fs) == 0
    ensures var s, s' := Run(Init(), es), Run(Init(), es + fs);
            var end := Step(s', MuxerEos(removable));
            && s'.sentEos && s.srcs <= s'.srcs && s.pending <= s'.pending
            && !end.sentEos && end.pending == {} && end.srcs == s'.srcs - (s'.pending * removable)
  {
    RunSplits(Init(), es, fs);
    RunDrained(Init(), es);
    DrainGoesOn(Run(Init(), es), fs);
  }

  // ---- A stop that is not atomic ----

  /** A recording that a stop finds, with sources to send an EOS to, and what happens before
      the stop takes its lock again. */
  predicate StopsWithGap(before: seq<Event>, gap: seq<Event>) {
    var s := Run(Init(), before);
    && MuxerObeys(Init(), before) && Accepts(s, Stop) && s.playing && s.srcs != {}
    && MuxerObeys(BeginStop(s), gap)
  }

  /** The state in which the stop takes its lock again, and the one it leaves. */
  function InGap(before: seq<Event>, gap: seq<Event>): State {
    Run(BeginStop(Run(Init(), before)), gap)
  }

  function AfterGap(before: seq<Event>, gap: seq<Event>, removable: set<nat>): State {
    EndStop(InGap(before, gap), true, removable)
  }

  /** In the gap nothing waits and, before the EOS, the muxer has not been asked to go down. */
  predicate Gapped(s: State) {
    && !s.sentEos && s.pending == {} && !s.generatePads
    && (s.transition == Stopping || AtRest(s)) && (s.stopped ==> AtRest(s))
    && (!s.nullAsked ==> s.transition == Stopping && s.playing && !s.stopped)
  }

  lemma StepGapped(s: State, e: Event)
    requires Gapped(s) && (e.MuxerReady? ==> s.nullAsked)
    ensures Gapped(Step(s, e))
    ensures !e.MuxerEos? ==> Step(s, e).nullAsked == s.nullAsked
  {
  }

  lemma {:induction false} RunGapped(s: State, es: seq<Event>)
    requires Gapped(s) && MuxerObeys(s, es)
    ensures Gapped(Run(s, es)) && (EosCount(es) == 0 ==> Run(s, es).nullAsked == s.nullAsked)
    decreases |es|
  {
    if es != [] {
      StepGapped(s, es[0]);
      RunGapped(Step(s, es[0]), es[1..]);
    }
  }

  lemma GapIsGapped(before: seq<Event>, gap: seq<Event>)
    requires StopsWithGap(before, gap)
    ensures Gapped(InGap(before, gap)) && (EosCount(gap) == 0 ==> !InGap(before, gap).nullAsked)
  {
    RunDrained(Init(), before);
    RunGapped(BeginStop(Run(Init(), before)), gap);
  }

  /** The stop leaves the sources of all linked pads waiting. */
  lemma StopLeavesWaiting(before: seq<Event>, gap: seq<Event>, removable: set<nat>)
    requires StopsWithGap(before, gap)
    ensures AfterGap(before, gap, removable).pending == InGap(before, gap).linked
    ensures EosCount(gap) == 0 ==>
              Drained(AfterGap(before, gap, removable)) && AfterGap(before, gap, removable).sentEos
  {
    GapIsGapped(before, gap);
  }

  lemma WaitStep(s: State, e: Event)
    requires !e.MuxerEos?
    ensures s.pending <= Step(s, e).pending
  {
  }

  lemma {:induction false} WaitOn(s: State, es: seq<Event>)
    requires EosCount(es) == 0
    ensures s.pending <= Run(s, es).pending
    decreases |es|
  {
    if es != [] {
      WaitStep(s, es[0]);
      WaitOn(Step(s, es[0]), es[1..]);
    }
  }

  /** If no EOS was handled in the gap, the sources wait for it, whatever else has happened and
      happens, and are given back when it comes. */
  lemma LateEosReleases(before: seq<Event>, gap: seq<Event>, after: seq<Event>, removable: set<nat>, atEos: set<nat>)
    requires StopsWithGap(before, gap) && EosCount(gap) == 0
    requires MuxerObeys(AfterGap(before, gap, removable), after) && EosCount(after) == 0
    ensures var waiting := InGap(before, gap).linked;
            var s' := Run(AfterGap(before, gap, removable), after);
            var end := Step(s', MuxerEos(atEos));
            && s'.sentEos && waiting <= s'.pending && AfterGap(before, gap, removable).srcs <= s'.srcs
            && end.pending == {} && end.srcs == s'.srcs - (s'.pending * atEos)
  {
    StopLeavesWaiting(before, gap, removable);
    DrainGoesOn(AfterGap(before, gap, removable), after);
  }

  /** If one was, they wait on, whatever happens, for as long as there is no other EOS. */
  lemma EarlyEosKeepsWaiting(before: seq<Event>, gap: seq<Event>, after: seq<Event>, removable: set<nat>)
    requires StopsWithGap(before, gap) && EosCount(after) == 0
    ensures InGap(before, gap).linked <= Run(AfterGap(before, gap, removable), after).pending
  {
    StopLeavesWaiting(before, gap, removable);
    WaitOn(AfterGap(before, gap, removable), after);
  }

  lemma {:induction false} SettlesAfterEos(s: State, es: seq<Event>)
    requires Drained(s) && MuxerObeys(s, es)
    requires (s.sentEos && EosCount(es) == 1) || (!s.sentEos && s.nullAsked && EosCount(es) == 0)
    ensures Run(s, es).pending == {}
    decreases |es|
  {
    if es != [] {
      StepDrained(s, es[0]);
      if s.sentEos && !es[0].MuxerEos? {
        DrainStep(s, es[0]);
      } else {
        NothingDrains(s, es[0]);
      }
      SettlesAfterEos(Step(s, es[0]), es[1..]);
    }
  }

  lemma NothingDrains(s: State, e: Event)
    requires Drained(s) && (e.MuxerReady? ==> s.nullAsked)
    requires (s.sentEos && e.MuxerEos?) || (!s.sentEos && s.nullAsked)
    ensures !Step(s, e).sentEos && Step(s, e).nullAsked
  {
  }

  /** A stop and its one EOS, whatever else happens before, in between and afterwards: no source
      is left waiting if and only if the EOS is not handled in the gap, in which the stop has
      not yet noted that it was sent. */
  lemma SplitStopExactly(before: seq<Event>, gap: seq<Event>, after: seq<Event>, removable: set<nat>)
    requires StopsWithGap(before, gap) && InGap(before, gap).linked != {}
    requires MuxerObeys(AfterGap(before, gap, removable), after) && EosCount(gap) + EosCount(after) == 1
    ensures Run(AfterGap(before, gap, removable), after).pending == {} <==> EosCount(gap) == 0
  {
    if EosCount(gap) == 0 {
      StopLeavesWaiting(before, gap, removable);
      SettlesAfterEos(AfterGap(before, gap, removable), after);
    } else {
      EarlyEosKeepsWaiting(before, gap, after, removable);
    }
  }

  lemma RunOne(s: State, e: Event)
    ensures Run(s, [e]) == Step(s, e)
    ensures MuxerObeys(s, [e]) <==> (e.MuxerReady? ==> s.nullAsked)
  {
    assert Run(Step(s, e), []) == Step(s, e) && MuxerObeys(Step(s, e), []);
  }

  /** A recording with one pad. */
  function Recording(): seq<Event> { [StartCommand(0), Link(0), MuxerPlaying] }

  lemma RecordingStops()
    ensures var s := Run(Init(), Recording());
            && Accepts(s, Stop) && s.playing && s.linked == {0} && s.srcs == {0} && !s.nullAsked
    ensures MuxerObeys(Init(), Recording())
  {
    var s1 := Step(Init(), StartCommand(0));
    var s2 := Step(s1, Link(0));
    RunOne(s2, MuxerPlaying);
    assert Recording()[1..] == [Link(0), MuxerPlaying] && [Link(0), MuxerPlaying][1..] == [MuxerPlaying];
    assert Run(s1, [Link(0), MuxerPlaying]) == Run(s2, [MuxerPlaying]);
    assert MuxerObeys(s1, [Link(0), MuxerPlaying]);
  }

  lemma EarlyEosGap()
    ensures StopsWithGap(Recording(), [MuxerEos({0})])
    ensures InGap(Recording(), [MuxerEos({0})]).linked == {0} && InGap(Recording(), [MuxerEos({0})]).nullAsked
  {
    RecordingStops();
    RunOne(BeginStop(Run(Init(), Recording())), MuxerEos({0}));
  }

  lemma ReadyKeepsWaiting(s: State)
    requires Gapped(s) && s.nullAsked && s.linked == {0}
    ensures var s' := Step(EndStop(s, true, {0}), MuxerReady); AtRest(s') && s'.pending == {0}
  {
    assert {} + s.linked == s.linked;
  }

  /** A run that ends so: one source is never given back. */
  lemma EarlyEosLeaks()
    ensures StopsWithGap(Recording(), [MuxerEos({0})])
    ensures var s := Run(AfterGap(Recording(), [MuxerEos({0})], {0}), [MuxerReady]);
            AtRest(s) && s.pending == {0}
  {
    EarlyEosGap();
    GapIsGapped(Recording(), [MuxerEos({0})]);
    ReadyKeepsWaiting(InGap(Recording(), [MuxerEos({0})]));
    RunOne(AfterGap(Recording(), [MuxerEos({0})], {0}), MuxerReady);
  }

  /** Without sources there is no EOS, and the muxer may report that it is down before the stop
      goes on: the recorder ends up as if it had reported afterwards. */
  lemma SplitStopConfluent(s: State, removable: set<nat>)
    requires Accepts(s, Stop) && s.playing && s.srcs == {}
    ensures EndStop(AsyncStateChanged(BeginStop(s), Stop), false, removable)
         == AsyncStateChanged(AcceptStop(s, removable), Stop)
  {
  }

  // ---- A start that is not atomic ----

  /** The muxer's playing notification may come while a start has dropped its lock: nothing
      is lost, the recorder ends up as if it had come after it. */
  lemma SplitStartConfluent(s: State, clock: Time)
    requires Accepts(s, Start)
    ensures EndStart(AsyncStateChanged(BeginStart(s), Start), clock)
         == AsyncStateChanged(EndStart(BeginStart(s), clock), Start)
    ensures var s' := EndStart(AsyncStateChanged(BeginStart(s), Start), clock);
            s'.uri == Start && s'.transition == Completed && s'.playing
  {
  }

  function OutPts(s: State, pts: Time, dts: Time): Time {
    Shift(pts, NewBase(s.base, pts, dts).pts, s.pausedTime)
  }

  lemma ShiftsAgree(t: Time, base: Time, paused: Time, length: Time)
    requires t != NONE && base != NONE
    ensures Shift(t, base, paused) == Shift(t, base, Add(paused, length)) <==>
            length == 0 || (t <= Add(base, paused) && t <= Add(base, Add(paused, length)))
  {
  }

  /** A buffer may come then too, and passes the gate before the pause has been accounted for:
      it is recorded as it would be after the start if and only if the pause had no length or
      both times are clamped. This holds for all 64-bit times, and for the first buffer too. */
  lemma SplitStartBuffer(s: State, clock: Time, pts: Time, dts: Time)
    requires Accepts(s, Start) && pts != NONE && s.pausedStart != NONE
    ensures var gap, after := BeginStart(s), EndStart(BeginStart(s), clock);
            var base := NewBase(s.base, pts, dts).pts;
            && Gate(gap)
            && (OutPts(gap, pts, dts) == OutPts(after, pts, dts)
                <==> clock == s.pausedStart
                     || (pts <= Add(base, s.pausedTime) && pts <= Add(base, after.pausedTime)))
  {
    ShiftsAgree(pts, NewBase(s.base, pts, dts).pts, s.pausedTime, Sub(clock, s.pausedStart));
  }
}
