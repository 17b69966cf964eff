/** What the recorder does with each event in terms of its history: which commands it accepts, when
    they complete and what is recorded follows from the log alone, on every run. */
module RecorderHistory {
  import opened ClockTime
  import opened Recorder
  import opened RecorderStop
  import opened Wrappers

  /** The log at the end of a run. */
  function History(es: seq<Event>): seq<Entry> { Log(Init(), es) }

  predicate EverStarted(log: seq<Entry>) { exists i :: 0 <= i < |log| && log[i].Started? }

  /** A command may follow: none is in flight, none was a stop and the last one was another; the
      first one may be anything but a stop. */
  predicate MayFollow(log: seq<Entry>, e: Event) {
    && InFlight(log) == 0
    && match LastCommand(log)
       case None => e.StartCommand? || e.PauseCommand?
       case Some(Started(_)) => e.StopCommand? || e.PauseCommand?
       case Some(Paused(_)) => e.StopCommand? || e.StartCommand?
       case Some(_) => false
  }

  // ---- The pipeline plays ----

  /** The muxer's pipeline has come up for the first start and not gone down again; before that
      the pads are still to be made. */
  predicate Plays(s: State, log: seq<Entry>) {
    && (s.playing <==> EverStarted(log) && s.transition != Starting && !s.stopped)
    && (!EverStarted(log) ==> s.generatePads)
  }

  lemma StartedIn(log: seq<Entry>, more: seq<Entry>)
    ensures EverStarted(log + more) <==> EverStarted(log) || EverStarted(more)
  {
    var all := log + more;
    if EverStarted(log) {
      var i :| 0 <= i < |log| && log[i].Started?;
      assert all[i].Started?;
    } else if EverStarted(more) {
      var i :| 0 <= i < |more| && more[i].Started?;
      assert all[|log| + i].Started?;
    }
  }

  lemma {:induction false} LastIsLogged(log: seq<Entry>)
    requires LastCommand(log).Some?
    ensures IsCommand(LastCommand(log).value)
    ensures exists i :: 0 <= i < |log| && log[i] == LastCommand(log).value
    decreases |log|
  {
    if IsCommand(log[|log| - 1]) {
      assert log[|log| - 1] == LastCommand(log).value;
    } else {
      LastIsLogged(log[..|log| - 1]);
    }
  }

  lemma StepPlays(s: State, log: seq<Entry>, e: Event)
    requires Lifecycle(s, log) && Plays(s, log)
    ensures Plays(Step(s, e), log + Entries(s, e))
  {
    var entries := Entries(s, e);
    StartedIn(log, entries);
    assert EverStarted(entries) <==> e.StartCommand? && entries != [] by {
      if entries != [] {
        assert entries[0].Started? <==> e.StartCommand?;
      }
    }
    if LastCommand(log).Some? {
      LastIsLogged(log);
    }
  }

  lemma {:induction false} RunPlays(s: State, log: seq<Entry>, es: seq<Event>)
    requires Lifecycle(s, log) && Plays(s, log)
    ensures Plays(Run(s, es), log + Log(s, es))
    decreases |es|
  {
    if es == [] {
      assert log + Log(s, es) == log;
    } else {
      StepPlays(s, log, es[0]);
      StepLifecycle(s, log, es[0]);
      LogUnfolds(s, log, es);
      RunPlays(Step(s, es[0]), log + Entries(s, es[0]), es[1..]);
    }
  }

  lemma AnyHistory(es: seq<Event>)
    ensures Lifecycle(Run(Init(), es), History(es)) && Plays(Run(Init(), es), History(es))
  {
    AnyRun(es);
    RunPlays(Init(), [], es);
    assert [] + History(es) == History(es);
  }

  lemma {:induction false} OneMore(s: State, es: seq<Event>, e: Event)
    ensures Log(s, es + [e]) == Log(s, es) + Entries(Run(s, es), e)
    ensures Run(s, es + [e]) == Step(Run(s, es), e)
    decreases |es|
  {
    if es == [] {
      assert es + [e] == [e] && [e][1..] == [];
    } else {
      assert (es + [e])[1..] == es[1..] + [e];
      OneMore(Step(s, es[0]), es[1..], e);
    }
  }

  // ---- What each event adds ----

  /** A command is accepted, and enters the log, exactly when it may follow. A pause completes
      at once; a start does unless it is the first, which waits for the muxer; a stop does if
      nothing was ever started. */
  lemma CommandExactly(es: seq<Event>, e: Event)
    requires e.StopCommand? || e.StartCommand? || e.PauseCommand?
    ensures var log, log' := History(es), History(es + [e]);
            var started := EverStarted(log);
            if !MayFollow(log, e) then log' == log && Run(Init(), es + [e]) == Run(Init(), es)
            else
              log' == log +
              match e
              case StopCommand(_) => if started then [Stopped] else [Stopped, Finished]
              case StartCommand(clock) => if started then [Started(clock), Finished] else [Started(clock)]
              case PauseCommand(reading) => [Paused(reading), Finished]
              case _ => []
    ensures var s := Run(Init(), es);
            MayFollow(History(es), e)
            == Accepts(s, if e.StopCommand? then Stop else if e.StartCommand? then Start else Pause)
  {
    AnyHistory(es);
    OneMore(Init(), es, e);
  }

  /** A notification completes the command in flight if it is the one the command waits for:
      playing for a start, ready for a stop. */
  lemma NotificationExactly(es: seq<Event>, e: Event)
    requires e.MuxerPlaying? || e.MuxerReady?
    ensures var log, log' := History(es), History(es + [e]);
            var awaited := && InFlight(log) == 1 && LastCommand(log).Some?
                           && (if e.MuxerPlaying? then LastCommand(log).value.Started?
                               else LastCommand(log).value.Stopped?);
            log' == if awaited then log + [Finished] else log
  {
    AnyHistory(es);
    OneMore(Init(), es, e);
    if LastCommand(History(es)).Some? {
      LastIsLogged(History(es));
    }
    assert History(es) + [] == History(es);
  }

  /** A buffer is recorded exactly if the last command was a start. A timestamp that it does not
      have it does not get. */
  lemma BufferExactly(es: seq<Event>, pts: Time, dts: Time)
    ensures var log, log' := History(es), History(es + [Sample(pts, dts)]);
            if LastCommand(log).Some? && LastCommand(log).value.Started? then
              |log'| == |log| + 1 && log'[..|log|] == log
              && log'[|log|].Recorded? && log'[|log|].pts == pts && log'[|log|].dts == dts
              && (pts == NONE ==> log'[|log|].outPts == NONE) && (dts == NONE ==> log'[|log|].outDts == NONE)
            else log' == log
  {
    AnyHistory(es);
    OneMore(Init(), es, Sample(pts, dts));
  }

  // ---- Pauses ----

  /** Paused, with nothing in flight. */
  predicate OnHold(s: State) { s.uri == Pause && s.transition == Completed && !s.stopped }

  predicate SameTimeline(s: State, s': State) {
    && s'.playing == s.playing
    && s'.base == s.base && s'.pausedTime == s.pausedTime && s'.pausedStart == s.pausedStart
  }

  lemma HoldStep(s: State, e: Event)
    requires OnHold(s) && !IsCommandEvent(e)
    ensures OnHold(Step(s, e)) && SameTimeline(s, Step(s, e))
  {
  }

  lemma {:induction false} HoldsOn(s: State, es: seq<Event>)
    requires OnHold(s) && forall e :: e in es ==> !IsCommandEvent(e)
    ensures OnHold(Run(s, es)) && SameTimeline(s, Run(s, es))
    decreases |es|
  {
    if es != [] {
      assert es[0] in es && forall e :: e in es[1..] ==> e in es;
      HoldStep(s, es[0]);
      HoldsOn(Step(s, es[0]), es[1..]);
    }
  }

  /** The state after a pause, what happens during it, and the start that ends it. */
  function AfterPause(s: State, reading: Option<Time>, during: seq<Event>, clock: Time): State {
    Step(Run(Step(s, PauseCommand(reading)), during), StartCommand(clock))
  }

  lemma TimelineAfterPause(es: seq<Event>, reading: Option<Time>, during: seq<Event>, clock: Time)
    requires MayFollow(History(es), PauseCommand(reading)) && EverStarted(History(es))
    requires forall e :: e in during ==> !IsCommandEvent(e)
    requires Run(Init(), es).pausedStart == NONE && (reading.Some? ==> reading.value <= clock)
    ensures var s := Run(Init(), es);
            var s' := AfterPause(s, reading, during, clock);
            && Gate(s) && Gate(s') && s'.base == s.base && s'.pausedStart == NONE
            && s'.pausedTime == if reading.None? || reading.value == NONE then s.pausedTime
                                else Add(s.pausedTime, Sub(clock, reading.value))
  {
    AnyHistory(es);
    HoldsOn(Step(Run(Init(), es), PauseCommand(reading)), during);
  }

  /** A pause vanishes from the recording: after it, a buffer whose running time is later by the
      length of the pause on the muxer's clock is recorded where, without the pause, one would
      have been recorded. Without a clock nothing is taken off. */
  lemma PauseVanishes(es: seq<Event>, reading: Option<Time>, during: seq<Event>, clock: Time, pts: Time, dts: Time)
    requires MayFollow(History(es), PauseCommand(reading)) && EverStarted(History(es))
    requires forall e :: e in during ==> !IsCommandEvent(e)
    requires reading.Some? ==> reading.value <= clock < NONE
    requires var s := Run(Init(), es);
             var length := if reading.Some? then clock - reading.value else 0;
             && s.pausedStart == NONE && s.base.Some? && s.base.value.pts != NONE
             && s.base.value.pts + s.pausedTime + length < RANGE && pts + length < NONE
    ensures var s := Run(Init(), es);
            var length := if reading.Some? then clock - reading.value else 0;
            var before, after := Entries(s, Sample(pts, dts)),
                                 Entries(AfterPause(s, reading, during, clock), Sample(pts + length, dts));
            |before| == |after| == 1 && before[0].Recorded? && after[0].Recorded? && after[0].outPts == before[0].outPts
  {
    TimelineAfterPause(es, reading, during, clock);
  }

  // ---- Stops ----

  /** An accepted stop of a recording with sources sends an EOS and keeps the sources of all its
      pads waiting for it; without sources it asks the muxer to go down. A stop of what was
      never started is the end at once and leaves its pads. In each case the timeline is forgotten. */
  lemma StopExactly(es: seq<Event>, removable: set<nat>)
    requires MuxerObeys(Init(), es) && MayFollow(History(es), StopCommand(removable))
    ensures var s, s' := Run(Init(), es), Run(Init(), es + [StopCommand(removable)]);
            && s'.base == None && s'.pausedTime == 0 && s'.pausedStart == NONE && s'.generatePads
            && (EverStarted(History(es)) && s.srcs != {} ==>
                  s'.sentEos && !s'.nullAsked && s'.linked == {} && s'.srcs == s.srcs && s'.pending == s.linked)
            && (EverStarted(History(es)) && s.srcs == {} ==>
                  !s'.sentEos && s'.nullAsked && s'.linked == s'.srcs == s'.pending == {})
            && (!EverStarted(History(es)) ==>
                  AtRest(s') && s'.pending == {} && s'.linked == s.linked && s'.srcs == s.srcs)
  {
    AnyHistory(es);
    RunDrained(Init(), es);
    OneMore(Init(), es, StopCommand(removable));
    CommandExactly(es, StopCommand(removable));
  }

  /** A stop under way waits for its EOS or has asked the muxer to go down, not both. */
  predicate Progresses(s: State) {
    && Drained(s)
    && (s.transition == Stopping ==> s.sentEos != s.nullAsked)
  }

  lemma {:induction false} RunProgresses(s: State, es: seq<Event>)
    requires Progresses(s) && MuxerObeys(s, es)
    ensures Progresses(Run(s, es))
    decreases |es|
  {
    if es != [] {
      StepDrained(s, es[0]);
      RunProgresses(Step(s, es[0]), es[1..]);
    }
  }

  /** So no stop hangs: on every run the EOS of a stop under way makes it ask the muxer to go
      down, or it has asked already, and then the muxer's answer completes it. */
  lemma StopNeverHangs(es: seq<Event>, removable: set<nat>)
    requires MuxerObeys(Init(), es) && Run(Init(), es).transition == Stopping
    ensures var s := Run(Init(), es);
            && (s.sentEos <==> !s.nullAsked)
            && Step(s, MuxerEos(removable)).nullAsked && !Step(s, MuxerEos(removable)).sentEos
            && AtRest(Step(Step(s, MuxerEos(removable)), MuxerReady))
  {
    RunProgresses(Init(), es);
  }

  // ---- Pads and sources ----

  /** A pad that is unlinked during a drain leaves its source waiting; at any other time the
      source goes at once, if the muxer lets it go. */
  lemma UnlinkExactly(s: State, id: nat, removable: set<nat>)
    ensures var s' := Step(s, Unlink(id, removable));
            if id !in s.linked then s' == s
            else
              && s' == s.(linked := s'.linked, srcs := s'.srcs, pending := s'.pending)
              && s'.linked == s.linked - {id}
              && s'.pending == (if s.sentEos then s.pending + {id} else s.pending)
              && s'.srcs == (if s.sentEos || id !in removable then s.srcs else s.srcs - {id})
  {
  }

  /** A muxer that lets every source go, and pads whose names are new. */
  predicate Obliging(s: State, es: seq<Event>)
    decreases |es|
  {
    es != [] ==>
      && (match es[0]
          case StopCommand(removable) => s.linked <= removable
          case MuxerEos(removable) => s.pending <= removable
          case Unlink(id, removable) => id in removable
          case Link(id) => id !in s.linked && id !in s.pending
          case _ => true)
      && Obliging(Step(s, es[0]), es[1..])
  }

  /** The sources are those of the linked pads and those that wait, none of them twice. */
  predicate SourcesFollow(s: State) {
    && s.srcs == s.linked + s.pending && s.linked !! s.pending
  }

  lemma StepFollows(s: State, e: Event)
    requires SourcesFollow(s) && Drained(s) && Obliging(s, [e])
    ensures SourcesFollow(Step(s, e))
  {
  }

  lemma {:induction false} RunFollows(s: State, es: seq<Event>)
    requires SourcesFollow(s) && Drained(s) && Obliging(s, es) && MuxerObeys(s, es)
    ensures SourcesFollow(Run(s, es))
    decreases |es|
  {
    if es != [] {
      StepFollows(s, es[0]);
      StepDrained(s, es[0]);
      RunFollows(Step(s, es[0]), es[1..]);
    }
  }

  /** No source leaks and none goes early: with a muxer that lets sources go, on every run the
      sources are those of the linked pads and those waiting for an EOS. */
  lemma SourcesFollowPads(es: seq<Event>)
    requires Obliging(Init(), es) && MuxerObeys(Init(), es)
    ensures var s := Run(Init(), es); s.srcs == s.linked + s.pending && s.linked !! s.pending
    ensures var s := Run(Init(), es); s.stopped ==> s.srcs == s.linked
  {
    RunFollows(Init(), es);
    RunDrained(Init(), es);
  }
}
