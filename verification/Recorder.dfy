/** The recorder endpoint: commands, the muxer's asynchronous notifications, the gate in
    front of media and the recorded timeline, with a log of what happened. */
module Recorder {
  import opened ClockTime
  import opened Wrappers

  datatype UriState = Stop | Start | Pause
  datatype Transition = Completed | Starting | Pausing | Stopping

  datatype BaseTime = BaseTime(pts: Time, dts: Time)

  /** nullAsked is whether the muxer has been asked to go down; linked are the sink pads with
      a peer, srcs the sources the muxer was asked for, pending those to give back once EOS
      has drained. */
  datatype State = State(
    uri: UriState, transition: Transition, playing: bool, stopped: bool, sentEos: bool,
    nullAsked: bool, generatePads: bool, linked: set<nat>, srcs: set<nat>, pending: set<nat>,
    base: Option<BaseTime>, pausedTime: Time, pausedStart: Time)

  function Init(): State {
    State(Stop, Completed, false, false, false, false, true, {}, {}, {}, None, 0, NONE)
  }

  /** removable are the sources the muxer lets go of when asked. */
  datatype Event =
    | StopCommand(removable: set<nat>)
    | StartCommand(clock: Time)
    | PauseCommand(reading: Option<Time>)
    | MuxerPlaying
    | MuxerReady
    | MuxerEos(removable: set<nat>)
    | Link(id: nat)
    | Unlink(id: nat, removable: set<nat>)
    | Sample(pts: Time, dts: Time)

  /** What the log keeps: accepted commands, completed transitions, recorded buffers. */
  datatype Entry =
    | Stopped
    | Started(clock: Time)
    | Paused(reading: Option<Time>)
    | Finished
    | Recorded(pts: Time, dts: Time, outPts: Time, outDts: Time)

  // ---- Commands and notifications ----

  function UpdateInternalState(s: State, uri: UriState): State {
    (match uri
     case Start => s.(playing := true)
     case Stop => s.(playing := false, sentEos := false, stopped := true)
     case Pause => s).(transition := Completed)
  }

  function Changed(s: State, uri: UriState): State {
    UpdateInternalState(s, uri).(uri := uri)
  }

  predicate Accepts(s: State, uri: UriState) {
    !s.stopped && s.uri != uri && s.transition == Completed
  }

  /** Giving a source back to the muxer. */
  function Release(srcs: set<nat>, ids: set<nat>, removable: set<nat>): set<nat> {
    srcs - (ids * removable)
  }

  /** Unlinking pads: their sources go at once, or wait for EOS. */
  function UnlinkPads(s: State, ids: set<nat>, removable: set<nat>): State {
    if s.sentEos then s.(linked := s.linked - ids, pending := s.pending + ids)
    else s.(linked := s.linked - ids, srcs := Release(s.srcs, ids, removable))
  }

  function RemovePads(s: State, removable: set<nat>): State {
    if s.generatePads then s else UnlinkPads(s, s.linked, removable).(generatePads := true)
  }

  /** A stop up to the point where it drops the lock to send EOS; without sources the muxer is
      asked to go down instead. */
  function BeginStop(s: State): State {
    s.(transition := Stopping, nullAsked := s.nullAsked || (s.playing && s.srcs == {}))
  }

  /** The rest of a stop, from the lock being taken again. */
  function EndStop(s: State, sentEos: bool, removable: set<nat>): State {
    var s1 := RemovePads(s.(sentEos := sentEos), removable).(base := None, pausedTime := 0, pausedStart := NONE);
    if s1.playing then s1.(nullAsked := s1.nullAsked || !sentEos) else Changed(s1, Stop)
  }

  function AcceptStop(s: State, removable: set<nat>): State {
    EndStop(BeginStop(s), if s.playing then s.srcs != {} else s.sentEos, removable)
  }

  /** A start up to the point where it drops the lock to set the muxer to playing. */
  function BeginStart(s: State): State {
    s.(transition := Starting)
  }

  /** The rest of a start, from the lock being taken again. */
  function EndStart(s: State, clock: Time): State {
    var s1 := s.(generatePads := false,
                 pausedTime := if s.pausedStart == NONE then s.pausedTime
                               else Add(s.pausedTime, Sub(clock, s.pausedStart)),
                 pausedStart := NONE);
    if s.playing then Changed(s1, Start) else s1
  }

  function AcceptStart(s: State, clock: Time): State {
    EndStart(BeginStart(s), clock)
  }

  function AcceptPause(s: State, clock: Option<Time>): State {
    Changed(s.(transition := Pausing, pausedStart := if clock.Some? then clock.value else s.pausedStart), Pause)
  }

  /** Whether a muxer notification completes the transition in progress. */
  predicate Completes(s: State, uri: UriState) {
    (uri == Start && s.transition == Starting) || (uri == Stop && s.transition == Stopping)
  }

  function AsyncStateChanged(s: State, uri: UriState): State {
    if Completes(s, uri) then Changed(s, uri) else s
  }

  function OnEos(s: State, removable: set<nat>): State {
    var s1 := if s.sentEos then s.(srcs := Release(s.srcs, s.pending, removable), pending := {}, sentEos := false)
              else s;
    s1.(nullAsked := s.nullAsked || s.transition == Stopping)
  }

  // ---- Media ----

  /** The gate: recording, or starting to. */
  predicate Gate(s: State) {
    (s.uri == Start && s.transition == Completed) || s.transition == Starting
  }

  function NewBase(base: Option<BaseTime>, pts: Time, dts: Time): BaseTime {
    if base.None? || (base.value.pts == NONE && pts != NONE) then BaseTime(pts, dts) else base.value
  }

  /** A running time moved onto the recorded timeline. */
  function Shift(t: Time, base: Time, paused: Time): Time {
    if base == NONE || t == NONE then t
    else
      var offset := Add(base, paused);
      if t > offset then t - offset else 0
  }

  function Step(s: State, e: Event): State {
    match e
    case StopCommand(removable) => if Accepts(s, Stop) then AcceptStop(s, removable) else s
    case StartCommand(clock) => if Accepts(s, Start) then AcceptStart(s, clock) else s
    case PauseCommand(clock) => if Accepts(s, Pause) then AcceptPause(s, clock) else s
    case MuxerPlaying => AsyncStateChanged(s, Start)
    case MuxerReady => AsyncStateChanged(s, Stop)
    case MuxerEos(removable) => OnEos(s, removable)
    case Link(id) => s.(linked := s.linked + {id}, srcs := s.srcs + {id})
    case Unlink(id, removable) => if id in s.linked then UnlinkPads(s, {id}, removable) else s
    case Sample(pts, dts) => if Gate(s) then s.(base := Some(NewBase(s.base, pts, dts))) else s
  }

  /** What a step adds to the log. */
  function Entries(s: State, e: Event): seq<Entry> {
    match e
    case StopCommand(_) =>
      if !Accepts(s, Stop) then [] else if s.playing then [Stopped] else [Stopped, Finished]
    case StartCommand(clock) =>
      if !Accepts(s, Start) then [] else if s.playing then [Started(clock), Finished] else [Started(clock)]
    case PauseCommand(clock) => if Accepts(s, Pause) then [Paused(clock), Finished] else []
    case MuxerPlaying => if Completes(s, Start) then [Finished] else []
    case MuxerReady => if Completes(s, Stop) then [Finished] else []
    case Sample(pts, dts) =>
      if !Gate(s) then []
      else
        var base := NewBase(s.base, pts, dts);
        [Recorded(pts, dts, Shift(pts, base.pts, s.pausedTime), Shift(dts, base.dts, s.pausedTime))]
    case _ => []
  }

  function Run(s: State, es: seq<Event>): State
    decreases |es|
  {
    if es == [] then s else Run(Step(s, es[0]), es[1..])
  }

  function Log(s: State, es: seq<Event>): seq<Entry>
    decreases |es|
  {
    if es == [] then [] else Entries(s, es[0]) + Log(Step(s, es[0]), es[1..])
  }

  // ---- Reading the log ----

  predicate IsCommand(e: Entry) { e.Stopped? || e.Started? || e.Paused? }

  /** The last accepted command. */
  function LastCommand(log: seq<Entry>): Option<Entry> {
    if log == [] then None
    else if IsCommand(log[|log| - 1]) then Some(log[|log| - 1])
    else LastCommand(log[..|log| - 1])
  }

  /** Accepted commands that have not completed. */
  function InFlight(log: seq<Entry>): int {
    if log == [] then 0
    else
      InFlight(log[..|log| - 1])
      + (if IsCommand(log[|log| - 1]) then 1 else if log[|log| - 1].Finished? then -1 else 0)
  }

  /** The muxer clock at the start of the pause that is running. */
  function PauseStart(log: seq<Entry>): Option<Time> {
    if log == [] then None
    else
      match log[|log| - 1]
      case Paused(clock) => if clock.Some? then clock else PauseStart(log[..|log| - 1])
      case Started(_) => None
      case _ => PauseStart(log[..|log| - 1])
  }

  /** The length of all completed pauses, measured on the muxer clock. */
  function PauseSum(log: seq<Entry>): int {
    if log == [] then 0
    else
      var before := log[..|log| - 1];
      PauseSum(before) +
      match log[|log| - 1]
      case Started(clock) => if PauseStart(before).Some? then clock - PauseStart(before).value else 0
      case _ => 0
  }

  /** The index of the first recorded buffer with a PTS, or the length of the log. */
  function FirstTimed(log: seq<Entry>): (i: nat)
    ensures i <= |log|
    ensures i < |log| ==> log[i].Recorded? && log[i].pts != NONE
    ensures forall j :: 0 <= j < i ==> !(log[j].Recorded? && log[j].pts != NONE)
  {
    if log == [] then 0
    else
      var i := FirstTimed(log[..|log| - 1]);
      if i < |log| - 1 || (log[i].Recorded? && log[i].pts != NONE) then i else |log|
  }

  function FirstRecorded(log: seq<Entry>): (i: nat)
    ensures i <= |log|
    ensures i < |log| ==> log[i].Recorded?
    ensures forall j :: 0 <= j < i ==> !log[j].Recorded?
  {
    if log == [] then 0
    else
      var i := FirstRecorded(log[..|log| - 1]);
      if i < |log| - 1 || log[i].Recorded? then i else |log|
  }

  /** The base of a recording: the first buffer with a PTS, before one the first buffer. */
  function BaseOf(log: seq<Entry>): Option<BaseTime> {
    if FirstTimed(log) < |log| then Some(BaseTime(log[FirstTimed(log)].pts, log[FirstTimed(log)].dts))
    else if FirstRecorded(log) < |log| then Some(BaseTime(NONE, log[FirstRecorded(log)].dts))
    else None
  }

  function ClockOf(e: Entry): Option<Time> {
    match e
    case Started(clock) => Some(clock)
    case Paused(clock) => clock
    case _ => None
  }

  /** The largest clock reading so far. */
  function LastClock(log: seq<Entry>): Time {
    if log == [] then 0
    else if ClockOf(log[|log| - 1]).Some? then ClockOf(log[|log| - 1]).value
    else LastClock(log[..|log| - 1])
  }

  /** The muxer clock never goes back, and never reads "none". */
  predicate Monotone(log: seq<Entry>) {
    log != [] ==>
      && Monotone(log[..|log| - 1])
      && (ClockOf(log[|log| - 1]).Some? ==>
            LastClock(log[..|log| - 1]) <= ClockOf(log[|log| - 1]).value < NONE)
  }

  // ---- Lifecycle ----

  /** How the state follows from the last accepted command. */
  predicate Lifecycle(s: State, log: seq<Entry>) {
    && InFlight(log) == (if s.transition == Completed then 0 else 1)
    && (s.sentEos ==> s.transition == Stopping)
    && match LastCommand(log)
       case None => s.uri == Stop && s.transition == Completed && !s.stopped && !s.playing
       case Some(Started(_)) =>
         if s.transition == Completed then s.uri == Start && s.playing && !s.stopped
         else s.transition == Starting && s.uri != Start && !s.playing && !s.stopped
       case Some(Paused(_)) => s.uri == Pause && s.transition == Completed && !s.stopped
       case _ =>
         if s.transition == Completed then s.uri == Stop && s.stopped && !s.playing
         else s.transition == Stopping && s.playing && !s.stopped
  }

  /** Reading a log one entry longer. */
  lemma Appended(log: seq<Entry>, e: Entry)
    ensures LastCommand(log + [e]) == if IsCommand(e) then Some(e) else LastCommand(log)
    ensures InFlight(log + [e]) == InFlight(log) + (if IsCommand(e) then 1 else if e.Finished? then -1 else 0)
    ensures PauseStart(log + [e]) == match e
                                     case Paused(Some(clock)) => Some(clock)
                                     case Started(_) => None
                                     case _ => PauseStart(log)
    ensures PauseSum(log + [e]) == PauseSum(log)
                                   + if e.Started? && PauseStart(log).Some? then e.clock - PauseStart(log).value else 0
    ensures LastClock(log + [e]) == if ClockOf(e).Some? then ClockOf(e).value else LastClock(log)
    ensures Monotone(log + [e]) <==>
            Monotone(log) && (ClockOf(e).Some? ==> LastClock(log) <= ClockOf(e).value < NONE)
  {
    assert (log + [e])[..|log + [e]| - 1] == log;
  }

  /** The same for the entries of one step. */
  lemma AppendedEntries(log: seq<Entry>, s: State, e: Event)
    ensures var entries := Entries(s, e);
            && (entries == [] ==> log + entries == log)
            && (|entries| == 1 ==> log + entries == log + [entries[0]])
            && (|entries| == 2 ==> log + entries == log + [entries[0]] + [entries[1]])
            && |entries| <= 2
    ensures var entries := Entries(s, e);
            LastCommand(log + entries) == (if entries != [] && IsCommand(entries[0]) then Some(entries[0])
                                           else LastCommand(log))
  {
    var entries := Entries(s, e);
    if |entries| == 1 {
      Appended(log, entries[0]);
    } else if |entries| == 2 {
      assert log + entries == log + [entries[0]] + [entries[1]];
      Appended(log, entries[0]);
      Appended(log + [entries[0]], entries[1]);
    } else {
      assert log + entries == log;
    }
  }

  predicate IsCommandEvent(e: Event) { e.StopCommand? || e.StartCommand? || e.PauseCommand? }

  /** What the log says after the entries of a step. */
  lemma CommandLogged(s: State, log: seq<Entry>, e: Event)
    requires Lifecycle(s, log) && IsCommandEvent(e)
    ensures Lifecycle(Step(s, e), log + Entries(s, e))
  {
    var entries := Entries(s, e);
    AppendedEntries(log, s, e);
    if entries != [] {
      Appended(log, entries[0]);
      if |entries| == 2 {
        Appended(log + [entries[0]], entries[1]);
      }
    }
  }

  lemma OtherLogged(s: State, log: seq<Entry>, e: Event)
    requires Lifecycle(s, log) && !IsCommandEvent(e)
    ensures Lifecycle(Step(s, e), log + Entries(s, e))
  {
    AppendedEntries(log, s, e);
    if Entries(s, e) != [] {
      Appended(log, Entries(s, e)[0]);
    }
  }

  lemma StepLifecycle(s: State, log: seq<Entry>, e: Event)
    requires Lifecycle(s, log)
    ensures Lifecycle(Step(s, e), log + Entries(s, e))
  {
    if IsCommandEvent(e) {
      CommandLogged(s, log, e);
    } else {
      OtherLogged(s, log, e);
    }
  }

  /** A command enters the log only when the one before it has completed. */
  predicate OneAtATime(log: seq<Entry>) {
    forall i :: 0 <= i < |log| && IsCommand(log[i]) ==> InFlight(log[..i]) == 0
  }

  /** Buffers enter the log only while the last accepted command is a start. */
  predicate RecordedAfterStart(log: seq<Entry>) {
    forall i :: 0 <= i < |log| && log[i].Recorded? ==>
      LastCommand(log[..i]).Some? && LastCommand(log[..i]).value.Started?
  }

  lemma AppendOneAtATime(log: seq<Entry>, e: Entry)
    requires OneAtATime(log) && (IsCommand(e) ==> InFlight(log) == 0)
    ensures OneAtATime(log + [e])
  {
    forall i | 0 <= i < |log + [e]| && IsCommand((log + [e])[i])
      ensures InFlight((log + [e])[..i]) == 0
    {
      assert (log + [e])[..i] == if i < |log| then log[..i] else log;
    }
  }

  lemma AppendRecorded(log: seq<Entry>, e: Entry)
    requires RecordedAfterStart(log)
    requires e.Recorded? ==> LastCommand(log).Some? && LastCommand(log).value.Started?
    ensures RecordedAfterStart(log + [e])
  {
    forall i | 0 <= i < |log + [e]| && (log + [e])[i].Recorded?
      ensures LastCommand((log + [e])[..i]).Some? && LastCommand((log + [e])[..i]).value.Started?
    {
      assert (log + [e])[..i] == if i < |log| then log[..i] else log;
    }
  }

  lemma StepLogs(s: State, log: seq<Entry>, e: Event)
    requires Lifecycle(s, log) && OneAtATime(log) && RecordedAfterStart(log)
    ensures OneAtATime(log + Entries(s, e)) && RecordedAfterStart(log + Entries(s, e))
  {
    var entries := Entries(s, e);
    AppendedEntries(log, s, e);
    if entries != [] {
      AppendOneAtATime(log, entries[0]);
      AppendRecorded(log, entries[0]);
      if |entries| == 2 {
        AppendOneAtATime(log + [entries[0]], entries[1]);
        AppendRecorded(log + [entries[0]], entries[1]);
      }
    }
  }

  // ---- Timeline ----

  /** A recorded buffer sits on the timeline of this base and these pauses. */
  predicate OnTimeline(e: Entry, base: Option<BaseTime>, paused: int) {
    e.Recorded? ==>
      && base.Some? && 0 <= paused < RANGE
      && e.outPts == Shift(e.pts, base.value.pts, paused)
      && e.outDts == Shift(e.dts, base.value.dts, paused)
  }

  predicate AllOnTimeline(log: seq<Entry>) {
    forall i :: 0 <= i < |log| ==> OnTimeline(log[i], BaseOf(log[..i + 1]), PauseSum(log[..i]))
  }

  predicate PausesFit(log: seq<Entry>) {
    && 0 <= PauseSum(log) <= LastClock(log)
    && (PauseStart(log).Some? ==> PauseSum(log) <= PauseStart(log).value <= LastClock(log))
  }

  /** The state's timeline is what the log says, until a stop forgets it. */
  predicate Timeline(s: State, log: seq<Entry>) {
    TimelineOf(s.base, s.pausedTime, s.pausedStart, log)
  }

  predicate TimelineOf(base: Option<BaseTime>, pausedTime: Time, pausedStart: Time, log: seq<Entry>) {
    && (!AfterStop(log) ==> base == BaseOf(log))
    && (Monotone(log) ==>
          && PausesFit(log) && AllOnTimeline(log)
          && (!AfterStop(log) ==>
                && pausedTime == PauseSum(log)
                && pausedStart == if PauseStart(log).Some? then PauseStart(log).value else NONE))
  }

  predicate AfterStop(log: seq<Entry>) {
    LastCommand(log).Some? && LastCommand(log).value.Stopped?
  }

  lemma AppendedBase(log: seq<Entry>, e: Entry)
    ensures BaseOf(log + [e]) == if e.Recorded? then Some(NewBase(BaseOf(log), e.pts, e.dts)) else BaseOf(log)
  {
    assert (log + [e])[..|log + [e]| - 1] == log;
  }

  lemma AppendTimeline(log: seq<Entry>, e: Entry)
    requires AllOnTimeline(log) && OnTimeline(e, BaseOf(log + [e]), PauseSum(log))
    ensures AllOnTimeline(log + [e])
  {
    var log' := log + [e];
    forall i | 0 <= i < |log'|
      ensures OnTimeline(log'[i], BaseOf(log'[..i + 1]), PauseSum(log'[..i]))
    {
      if i < |log| {
        assert log'[..i] == log[..i] && log'[..i + 1] == log[..i + 1];
      } else {
        assert log'[..i] == log && log'[..i + 1] == log';
      }
    }
  }

  lemma SampleTimeline(s: State, log: seq<Entry>, pts: Time, dts: Time)
    requires Lifecycle(s, log) && Timeline(s, log) && Gate(s)
    ensures Timeline(Step(s, Sample(pts, dts)), log + Entries(s, Sample(pts, dts)))
  {
    var e := Entries(s, Sample(pts, dts))[0];
    assert !AfterStop(log);
    Appended(log, e);
    AppendedBase(log, e);
    if Monotone(log) {
      AppendTimeline(log, e);
    }
  }

  lemma CommandTimeline(s: State, log: seq<Entry>, e: Event, entry: Entry)
    requires Lifecycle(s, log) && Timeline(s, log)
    requires Entries(s, e) != [] && entry == Entries(s, e)[0] && IsCommand(entry)
    ensures Timeline(Step(s, e), log + [entry])
  {
    Appended(log, entry);
    AppendedBase(log, entry);
    if Monotone(log + [entry]) {
      AppendTimeline(log, entry);
    }
  }

  lemma FinishTimeline(s: State, log: seq<Entry>)
    requires Timeline(s, log)
    ensures Timeline(s, log + [Finished])
  {
    Appended(log, Finished);
    AppendedBase(log, Finished);
    if Monotone(log) {
      AppendTimeline(log, Finished);
    }
  }

  /** Neither command nor buffer touches base and pauses. */
  lemma OtherTimeline(s: State, log: seq<Entry>, e: Event)
    requires Timeline(s, log) && !IsCommandEvent(e) && !e.Sample?
    ensures Timeline(Step(s, e), log)
  {
    var s' := Step(s, e);
    assert s'.base == s.base && s'.pausedTime == s.pausedTime && s'.pausedStart == s.pausedStart;
  }

  lemma CommandsTimeline(s: State, log: seq<Entry>, e: Event)
    requires Lifecycle(s, log) && Timeline(s, log) && IsCommandEvent(e) && Entries(s, e) != []
    ensures Timeline(Step(s, e), log + Entries(s, e))
  {
    var entries := Entries(s, e);
    AppendedEntries(log, s, e);
    CommandTimeline(s, log, e, entries[0]);
    if |entries| == 2 {
      FinishTimeline(Step(s, e), log + [entries[0]]);
    }
  }

  lemma StepTimeline(s: State, log: seq<Entry>, e: Event)
    requires Lifecycle(s, log) && Timeline(s, log)
    ensures Timeline(Step(s, e), log + Entries(s, e))
  {
    assert Entries(s, e) == [] ==> log + Entries(s, e) == log;
    if IsCommandEvent(e) {
      if Entries(s, e) != [] {
        CommandsTimeline(s, log, e);
      }
    } else if e.Sample? {
      if Gate(s) {
        SampleTimeline(s, log, e.pts, e.dts);
      }
    } else {
      OtherTimeline(s, log, e);
      if Entries(s, e) != [] {
        FinishTimeline(Step(s, e), log);
      }
    }
  }

  // ---- Whole runs ----

  predicate Invariant(s: State, log: seq<Entry>) {
    Lifecycle(s, log) && OneAtATime(log) && RecordedAfterStart(log) && Timeline(s, log)
  }

  lemma StepInvariant(s: State, log: seq<Entry>, e: Event)
    requires Invariant(s, log)
    ensures Invariant(Step(s, e), log + Entries(s, e))
  {
    StepLifecycle(s, log, e);
    StepLogs(s, log, e);
    StepTimeline(s, log, e);
  }

  lemma LogUnfolds(s: State, log: seq<Entry>, es: seq<Event>)
    requires es != []
    ensures log + Log(s, es) == log + Entries(s, es[0]) + Log(Step(s, es[0]), es[1..])
  {
  }

  lemma {:induction false} RunInvariant(s: State, log: seq<Entry>, es: seq<Event>)
    requires Invariant(s, log)
    ensures Invariant(Run(s, es), log + Log(s, es))
    decreases |es|
  {
    if es == [] {
      assert log + Log(s, es) == log;
    } else {
      StepInvariant(s, log, es[0]);
      LogUnfolds(s, log, es);
      RunInvariant(Step(s, es[0]), log + Entries(s, es[0]), es[1..]);
    }
  }

  lemma AnyRun(es: seq<Event>)
    ensures Invariant(Run(Init(), es), Log(Init(), es))
  {
    RunInvariant(Init(), [], es);
    assert [] + Log(Init(), es) == Log(Init(), es);
  }

  /** At most one transition is in flight: the log holds at most one command that has not
      completed, exactly while the state says so, and accepts none until it has. */
  lemma AtMostOneInFlight(es: seq<Event>)
    ensures var s, log := Run(Init(), es), Log(Init(), es);
            && InFlight(log) == (if s.transition == Completed then 0 else 1)
            && forall i :: 0 <= i < |log| && IsCommand(log[i]) ==> InFlight(log[..i]) == 0
  {
    AnyRun(es);
  }

  /** The gate is open exactly from the acceptance of a start to the acceptance of the next
      command: nothing is recorded while paused or after a stop is accepted. */
  lemma GateExactly(es: seq<Event>)
    ensures var s, log := Run(Init(), es), Log(Init(), es);
            && (Gate(s) <==> LastCommand(log).Some? && LastCommand(log).value.Started?)
            && forall i :: 0 <= i < |log| && log[i].Recorded? ==>
                 LastCommand(log[..i]).Some? && LastCommand(log[..i]).value.Started?
  {
    AnyRun(es);
  }

  predicate AtRest(s: State) {
    s.stopped && !s.playing && !s.sentEos && s.uri == Stop && s.transition == Completed
  }

  /** Once stopped, a recorder is at rest for good: whatever comes, no command is accepted
      and nothing is recorded any more. */
  lemma StoppedForGood(es: seq<Event>, fs: seq<Event>)
    requires Run(Init(), es).stopped
    ensures AtRest(Run(Run(Init(), es), fs)) && Log(Run(Init(), es), fs) == []
  {
    AnyRun(es);
    RestStays(Run(Init(), es), fs);
  }

  lemma {:induction false} RestStays(s: State, fs: seq<Event>)
    requires AtRest(s)
    ensures AtRest(Run(s, fs)) && Log(s, fs) == []
    decreases |fs|
  {
    if fs != [] {
      RestStays(Step(s, fs[0]), fs[1..]);
    }
  }

  /** A stop that is under way completes with the muxer's next ready notification, and with
      nothing else. */
  lemma {:induction false} StopCompletes(s: State, fs: seq<Event>)
    requires s.transition == Stopping && forall e :: e in fs ==> !e.MuxerReady?
    ensures Run(s, fs).transition == Stopping && Run(s, fs).stopped == s.stopped
    ensures AtRest(Step(Run(s, fs), MuxerReady))
    decreases |fs|
  {
    if fs != [] {
      assert fs[0] in fs && forall e :: e in fs[1..] ==> e in fs;
      StopCompletes(Step(s, fs[0]), fs[1..]);
    }
  }

  // ---- The recorded timeline ----

  function Clamped(t: int): int { if t > 0 then t else 0 }

  /** Base and pauses fit in 64 bits, or the time is within what wraps. */
  predicate Fits(t: Time, base: Time, paused: Time) {
    base + paused < RANGE || t <= base + paused - RANGE
  }

  /** Shifting is exact subtraction clamped at 0, unless base and pauses together overflow
      64 bits and the time is past what is left of them. */
  lemma ShiftExactly(t: Time, base: Time, paused: Time)
    requires t != NONE && base != NONE
    ensures Shift(t, base, paused) == Clamped(t - base - paused) <==> Fits(t, base, paused)
  {
  }

  lemma BaseIsStable(log: seq<Entry>, i: nat)
    requires i < |log| && log[i].Recorded? && log[i].pts != NONE
    ensures FirstTimed(log[..i + 1]) == FirstTimed(log) <= i
    ensures BaseOf(log[..i + 1]) == BaseOf(log)
  {
    var k, k' := FirstTimed(log), FirstTimed(log[..i + 1]);
    assert log[..i + 1][i] == log[i];
    assert k' <= i && log[..i + 1][k'] == log[k'];
    assert k <= i && log[..i + 1][k] == log[k];
  }

  /** The PTS of the first buffer of the recording that had one. */
  function Origin(log: seq<Entry>): Time
    requires FirstTimed(log) < |log|
  {
    log[FirstTimed(log)].pts
  }

  /** An entry as recorded, with the PTS base of the whole log. */
  predicate PtsShifted(log: seq<Entry>, i: nat)
    requires i < |log| && log[i].Recorded?
  {
    && FirstTimed(log) <= i && 0 <= PauseSum(log[..i]) < RANGE
    && log[i].outPts == Shift(log[i].pts, Origin(log), PauseSum(log[..i]))
  }

  /** The DTS base an entry was recorded with: it changes once if the recording starts with
      buffers that have no PTS. */
  function DtsBase(log: seq<Entry>, i: nat): Time
    requires i < |log| && log[i].Recorded?
  {
    if BaseOf(log[..i + 1]).Some? then BaseOf(log[..i + 1]).value.dts else NONE
  }

  predicate DtsShifted(log: seq<Entry>, i: nat)
    requires i < |log| && log[i].Recorded?
  {
    && 0 <= PauseSum(log[..i]) < RANGE
    && log[i].outDts == Shift(log[i].dts, DtsBase(log, i), PauseSum(log[..i]))
    && (log[i].pts != NONE ==> FirstTimed(log) <= i && DtsBase(log, i) == log[FirstTimed(log)].dts)
  }

  /** What is read off a log whose entries are on its timeline. */
  lemma EntryShifted(log: seq<Entry>, i: nat)
    requires i < |log| && log[i].Recorded? && AllOnTimeline(log)
    ensures log[i].pts != NONE ==> PtsShifted(log, i)
    ensures DtsShifted(log, i)
  {
    assert OnTimeline(log[i], BaseOf(log[..i + 1]), PauseSum(log[..i]));
    if log[i].pts != NONE {
      BaseIsStable(log, i);
    }
  }

  lemma RunShifted(es: seq<Event>, i: nat)
    requires i < |Log(Init(), es)| && Log(Init(), es)[i].Recorded? && Monotone(Log(Init(), es))
    ensures Log(Init(), es)[i].pts != NONE ==> PtsShifted(Log(Init(), es), i)
    ensures DtsShifted(Log(Init(), es), i)
  {
    AnyRun(es);
    EntryShifted(Log(Init(), es), i);
  }

  /** The output is the time less base and pauses, not below 0, exactly when these fit. */
  predicate ExactlyShifted(out: Time, t: Time, base: Time, paused: Time) {
    out == Clamped(t - base - paused) <==> Fits(t, base, paused)
  }

  /** The PTS of a recorded buffer: its running time less the base and the completed pauses. */
  predicate PtsOnTimeline(log: seq<Entry>, i: nat)
    requires i < |log| && log[i].Recorded?
  {
    && FirstTimed(log) <= i && 0 <= PauseSum(log[..i]) < RANGE
    && ExactlyShifted(log[i].outPts, log[i].pts, Origin(log), PauseSum(log[..i]))
  }

  lemma LogPts(log: seq<Entry>, i: nat)
    requires i < |log| && log[i].Recorded? && log[i].pts != NONE && PtsShifted(log, i)
    ensures PtsOnTimeline(log, i)
  {
    ShiftExactly(log[i].pts, Origin(log), PauseSum(log[..i]));
  }

  /** On every run over a muxer clock that does not go back, a recorded buffer gets its
      running time less the base and the completed pauses, not below 0, if and only if base
      and pauses fit in 64 bits or the time is within what wraps. */
  lemma RecordedTimeline(es: seq<Event>, i: nat)
    requires i < |Log(Init(), es)| && Log(Init(), es)[i].Recorded? && Log(Init(), es)[i].pts != NONE
    requires Monotone(Log(Init(), es))
    ensures PtsOnTimeline(Log(Init(), es), i)
  {
    RunShifted(es, i);
    LogPts(Log(Init(), es), i);
  }

  /** The DTS of a recorded buffer: the same with the DTS base, or untouched without one. */
  predicate DtsOnTimeline(log: seq<Entry>, i: nat)
    requires i < |log| && log[i].Recorded?
  {
    && 0 <= PauseSum(log[..i]) < RANGE
    && (if DtsBase(log, i) == NONE then log[i].outDts == log[i].dts
        else ExactlyShifted(log[i].outDts, log[i].dts, DtsBase(log, i), PauseSum(log[..i])))
    && (log[i].pts != NONE ==> FirstTimed(log) <= i && DtsBase(log, i) == log[FirstTimed(log)].dts)
  }

  lemma LogDts(log: seq<Entry>, i: nat)
    requires i < |log| && log[i].Recorded? && log[i].dts != NONE && DtsShifted(log, i)
    ensures DtsOnTimeline(log, i)
  {
    if DtsBase(log, i) != NONE {
      ShiftExactly(log[i].dts, DtsBase(log, i), PauseSum(log[..i]));
    }
  }

  /** Decoding times lie on a timeline of their own base and of the same pauses. */
  lemma RecordedDts(es: seq<Event>, i: nat)
    requires i < |Log(Init(), es)| && Log(Init(), es)[i].Recorded? && Log(Init(), es)[i].dts != NONE
    requires Monotone(Log(Init(), es))
    ensures DtsOnTimeline(Log(Init(), es), i)
  {
    RunShifted(es, i);
    LogDts(Log(Init(), es), i);
  }

  lemma {:induction false} PauseSumBound(log: seq<Entry>, i: nat)
    requires i <= |log| && Monotone(log)
    ensures Monotone(log[..i]) && PausesFit(log[..i]) && LastClock(log[..i]) <= LastClock(log) < NONE
    decreases |log|
  {
    if i < |log| {
      PauseSumBound(log[..|log| - 1], i);
      assert log[..|log| - 1][..i] == log[..i];
    } else {
      assert log[..i] == log;
      if log != [] {
        PauseSumBound(log[..|log| - 1], |log| - 1);
        assert log[..|log| - 1][..|log| - 1] == log[..|log| - 1];
      }
    }
  }

  /** Two shifts that do not overflow. */
  lemma ShiftPair(t: Time, u: Time, base: Time, pausedT: Time, pausedU: Time)
    requires t != NONE && u != NONE && base != NONE
    requires base + pausedT < RANGE && base + pausedU < RANGE
    ensures var t', u' := Shift(t, base, pausedT), Shift(u, base, pausedU);
            && (pausedT == pausedU && t' > 0 && u' > 0 ==> t' - u' == t - u)
            && (u - t >= pausedU - pausedT ==> t' <= u')
  {
    ShiftExactly(t, base, pausedT);
    ShiftExactly(u, base, pausedU);
  }

  predicate Timed(log: seq<Entry>, i: nat) { i < |log| && log[i].Recorded? && log[i].pts != NONE }

  predicate Decoded(log: seq<Entry>, i: nat) { Timed(log, i) && log[i].dts != NONE }

  /** Two times and what they were recorded as: recorded after the same pauses they keep
      their distance when neither is clamped, and what has advanced by at least the pauses
      in between does not come out lower. */
  predicate KeepsDistance(t: Time, t': Time, u: Time, u': Time, pausedT: int, pausedU: int) {
    && (pausedT == pausedU && t' > 0 && u' > 0 ==> t' - u' == t - u)
    && (u - t >= pausedU - pausedT ==> t' <= u')
  }

  lemma LogPair(log: seq<Entry>, i: nat, j: nat)
    requires Timed(log, i) && Timed(log, j) && PtsShifted(log, i) && PtsShifted(log, j)
    requires Origin(log) + PauseSum(log[..i]) < RANGE && Origin(log) + PauseSum(log[..j]) < RANGE
    ensures KeepsDistance(log[i].pts, log[i].outPts, log[j].pts, log[j].outPts, PauseSum(log[..i]), PauseSum(log[..j]))
  {
    ShiftPair(log[i].pts, log[j].pts, Origin(log), PauseSum(log[..i]), PauseSum(log[..j]));
  }

  /** Two buffers, of whichever streams, keep their distance in PTS. */
  lemma RecordedPair(es: seq<Event>, i: nat, j: nat)
    requires Timed(Log(Init(), es), i) && Timed(Log(Init(), es), j) && Monotone(Log(Init(), es))
    requires var log := Log(Init(), es);
             FirstTimed(log) < |log| ==> Origin(log) + LastClock(log) < RANGE
    ensures var log := Log(Init(), es);
            KeepsDistance(log[i].pts, log[i].outPts, log[j].pts, log[j].outPts,
                          PauseSum(log[..i]), PauseSum(log[..j]))
  {
    var log := Log(Init(), es);
    RunShifted(es, i);
    RunShifted(es, j);
    PauseSumBound(log, i);
    PauseSumBound(log, j);
    LogPair(log, i, j);
  }

  lemma LogDtsPair(log: seq<Entry>, i: nat, j: nat)
    requires Decoded(log, i) && Decoded(log, j) && DtsShifted(log, i) && DtsShifted(log, j)
    requires log[FirstTimed(log)].dts != NONE
    requires log[FirstTimed(log)].dts + PauseSum(log[..i]) < RANGE
    requires log[FirstTimed(log)].dts + PauseSum(log[..j]) < RANGE
    ensures KeepsDistance(log[i].dts, log[i].outDts, log[j].dts, log[j].outDts, PauseSum(log[..i]), PauseSum(log[..j]))
  {
    ShiftPair(log[i].dts, log[j].dts, DtsBase(log, i), PauseSum(log[..i]), PauseSum(log[..j]));
  }

  /** And so they do in DTS. */
  lemma RecordedDtsPair(es: seq<Event>, i: nat, j: nat)
    requires Decoded(Log(Init(), es), i) && Decoded(Log(Init(), es), j) && Monotone(Log(Init(), es))
    requires var log := Log(Init(), es);
             FirstTimed(log) < |log| ==>
               log[FirstTimed(log)].dts != NONE && log[FirstTimed(log)].dts + LastClock(log) < RANGE
    ensures var log := Log(Init(), es);
            KeepsDistance(log[i].dts, log[i].outDts, log[j].dts, log[j].outDts,
                          PauseSum(log[..i]), PauseSum(log[..j]))
  {
    var log := Log(Init(), es);
    RunShifted(es, i);
    RunShifted(es, j);
    PauseSumBound(log, i);
    PauseSumBound(log, j);
    LogDtsPair(log, i, j);
  }
}
