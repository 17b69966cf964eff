/** The recorder endpoint element: the same machine as module Recorder, updated in place. */
module RecorderElement {
  import opened ClockTime
  import opened Recorder
  import opened Wrappers

  datatype PipelineState = VoidPending | Null | Ready | PausedState | Playing

  /** The notification a state change of the pipeline amounts to. */
  function Reported(newState: PipelineState, pendingState: PipelineState): Option<Event> {
    if pendingState == VoidPending && newState == Playing then Some(MuxerPlaying)
    else if newState == Ready && (pendingState == VoidPending || pendingState == Null) then Some(MuxerReady)
    else None
  }

  /** What a state change of the pipeline does to the recorder. */
  function Notified(s: State, newState: PipelineState, pendingState: PipelineState): State {
    match Reported(newState, pendingState)
    case Some(e) => Step(s, e)
    case None => s
  }

  /** It does nothing but complete a start, when the pipeline plays and is to stay so, or a stop,
      when it is ready and on its way down or to stay so. */
  lemma NotifiedExactly(s: State, newState: PipelineState, pendingState: PipelineState)
    ensures var s' := Notified(s, newState, pendingState);
            if s.transition == Starting && newState == Playing && pendingState == VoidPending then
              s' == s.(uri := Start, playing := true, transition := Completed)
            else if s.transition == Stopping && newState == Ready && pendingState in {VoidPending, Null} then
              s' == s.(uri := Stop, playing := false, stopped := true, sentEos := false, transition := Completed)
            else s' == s
  {
  }

  class RecorderEndpoint {
    var uri: UriState
    var transition: Transition
    var playing: bool
    var stopped: bool
    var sentEos: bool
    var nullAsked: bool
    var generatePads: bool
    var linked: set<nat>
    var srcs: set<nat>
    var pending: set<nat>
    var base: Option<BaseTime>
    var pausedTime: Time
    var pausedStart: Time

    function Snapshot(): State
      reads this
    {
      State(uri, transition, playing, stopped, sentEos, nullAsked, generatePads, linked, srcs, pending,
            base, pausedTime, pausedStart)
    }

    constructor ()
      ensures Snapshot() == Init()
    {
      uri, transition, playing, stopped, sentEos := Stop, Completed, false, false, false;
      nullAsked, generatePads, linked, srcs, pending := false, true, {}, {}, {};
      base, pausedTime, pausedStart := None, 0, NONE;
    }

    // ---- Pads and sources ----

    method LinkSink(id: nat)
      modifies this`linked, this`srcs
      ensures Snapshot() == Step(old(Snapshot()), Link(id))
    {
      srcs := srcs + {id};
      linked := linked + {id};
    }

    method ReleasePendingPad(id: nat, removable: set<nat>)
      modifies this`srcs
      ensures srcs == Release(old(srcs), {id}, removable)
    {
      if id in removable {
        srcs := srcs - {id};
      }
    }

    method UnlinkSink(id: nat, removable: set<nat>)
      modifies this`linked, this`srcs, this`pending
      ensures Snapshot() == UnlinkPads(old(Snapshot()), {id}, removable)
    {
      linked := linked - {id};
      if sentEos {
        pending := pending + {id};
      } else {
        ReleasePendingPad(id, removable);
      }
    }

    method RemovePads(removable: set<nat>)
      modifies this`linked, this`srcs, this`pending, this`generatePads
      ensures Snapshot() == Recorder.RemovePads(old(Snapshot()), removable)
    {
      if generatePads {
        return;
      }
      ghost var s := Snapshot();
      ghost var done: set<nat> := {};
      var todo := linked;
      while todo != {}
        invariant todo <= s.linked && done == s.linked - todo
        invariant Snapshot() == UnlinkPads(s, done, removable)
        decreases todo
      {
        var id :| id in todo;
        UnlinkSink(id, removable);
        UnlinkOneMore(s, done, id, removable);
        done := done + {id};
        todo := todo - {id};
      }
      generatePads := true;
    }

    method ReleasePendingSrcs(removable: set<nat>)
      modifies this`srcs, this`pending
      ensures srcs == Release(old(srcs), old(pending), removable) && pending == {}
    {
      ghost var done: set<nat> := {};
      var todo := pending;
      while todo != {}
        invariant pending == old(pending) && todo <= pending && done == pending - todo
        invariant srcs == Release(old(srcs), done, removable)
        decreases todo
      {
        var id :| id in todo;
        ReleasePendingPad(id, removable);
        done := done + {id};
        todo := todo - {id};
      }
      assert done == old(pending);
      pending := {};
    }

    method OnEos(removable: set<nat>)
      modifies this`srcs, this`pending, this`sentEos, this`nullAsked
      ensures Snapshot() == Step(old(Snapshot()), MuxerEos(removable))
    {
      var stop := transition == Stopping;
      if sentEos {
        ReleasePendingSrcs(removable);
        sentEos := false;
      }
      if stop {
        nullAsked := true;
      }
    }

    // ---- Transitions ----

    method UpdateInternalState(state: UriState)
      modifies this`playing, this`sentEos, this`stopped, this`transition
      ensures Snapshot() == Recorder.UpdateInternalState(old(Snapshot()), state)
    {
      if state == Start {
        playing := true;
      } else if state == Stop {
        playing := false;
        sentEos := false;
        stopped := true;
      }
      transition := Completed;
    }

    method SyncStateChanged(state: UriState)
      modifies this`playing, this`sentEos, this`stopped, this`transition, this`uri
      ensures Snapshot() == Changed(old(Snapshot()), state)
    {
      UpdateInternalState(state);
      uri := state;
    }

    method AsyncStateChanged(state: UriState)
      modifies this`playing, this`sentEos, this`stopped, this`transition, this`uri
      ensures Snapshot() == Recorder.AsyncStateChanged(old(Snapshot()), state)
    {
      if transition == Completed {
        return;
      }
      if (state == Start && transition == Starting) || (state == Stop && transition == Stopping) {
        UpdateInternalState(state);
        uri := state;
      }
    }

    /** A state change of the muxer's pipeline, of which only the end of the way up and the
        first step of the way down are reported. */
    method OnStateChanged(newState: PipelineState, pendingState: PipelineState)
      modifies this`playing, this`sentEos, this`stopped, this`transition, this`uri
      ensures Snapshot() == Notified(old(Snapshot()), newState, pendingState)
    {
      if pendingState == VoidPending || (pendingState == Null && newState == Ready) {
        match newState {
          case Playing => AsyncStateChanged(Start);
          case Ready => AsyncStateChanged(Stop);
          case _ =>
        }
      }
    }

    // ---- Commands ----

    method ResetTimeline()
      modifies this`base, this`pausedTime, this`pausedStart
      ensures Snapshot() == old(Snapshot()).(base := None, pausedTime := 0, pausedStart := NONE)
    {
      base := None;
      pausedTime := 0;
      pausedStart := NONE;
    }

    /** The rest of a stop, once the EOS has been sent. */
    method EndStop(sent: bool, removable: set<nat>)
      modifies this
      ensures Snapshot() == Recorder.EndStop(old(Snapshot()), sent, removable)
    {
      sentEos := sent;
      RemovePads(removable);
      ResetTimeline();
      if !playing {
        SyncStateChanged(Stop);
      } else if !sentEos {
        nullAsked := true;
      }
    }

    method Stopped(removable: set<nat>) returns (accepted: bool)
      modifies this
      ensures accepted == Accepts(old(Snapshot()), Stop)
      ensures Snapshot() == Step(old(Snapshot()), StopCommand(removable))
    {
      if stopped {
        return false;
      } else if uri == Stop || transition == Stopping {
        return false;
      } else if transition != Completed {
        return false;
      }
      transition := Stopping;
      var sent := sentEos;
      if playing {
        sent := |srcs| > 0;
        if !sent {
          nullAsked := true;
        }
      }
      EndStop(sent, removable);
      accepted := true;
    }

    method EndPause(clock: Time)
      modifies this`pausedTime, this`pausedStart
      ensures Snapshot() == old(Snapshot()).(
                pausedTime := if old(pausedStart) != NONE then Add(old(pausedTime), Sub(clock, old(pausedStart)))
                              else old(pausedTime),
                pausedStart := NONE)
    {
      if pausedStart != NONE {
        pausedTime := Add(pausedTime, Sub(clock, pausedStart));
        pausedStart := NONE;
      }
    }

    method Started(clock: Time) returns (accepted: bool)
      modifies this
      ensures accepted == Accepts(old(Snapshot()), Start)
      ensures Snapshot() == Step(old(Snapshot()), StartCommand(clock))
    {
      if stopped {
        return false;
      } else if uri == Start || transition == Starting {
        return false;
      } else if transition != Completed {
        return false;
      }
      transition := Starting;
      EndPause(clock);
      generatePads := false;
      if playing {
        SyncStateChanged(Start);
      }
      accepted := true;
    }

    method Paused(clock: Option<Time>) returns (accepted: bool)
      modifies this
      ensures accepted == Accepts(old(Snapshot()), Pause)
      ensures Snapshot() == Step(old(Snapshot()), PauseCommand(clock))
    {
      if stopped {
        return false;
      } else if uri == Pause || transition == Pausing {
        return false;
      } else if transition != Completed {
        return false;
      }
      transition := Pausing;
      if clock.Some? {
        pausedStart := clock.value;
      }
      SyncStateChanged(Pause);
      accepted := true;
    }

    // ---- Media ----

    /** The timestamps a buffer is recorded with, or None for one that is dropped. */
    method RecvSample(pts: Time, dts: Time) returns (recorded: Option<(Time, Time)>)
      modifies this`base
      ensures Snapshot() == Step(old(Snapshot()), Sample(pts, dts))
      ensures Entries(old(Snapshot()), Sample(pts, dts))
           == if recorded.Some? then [Recorded(pts, dts, recorded.value.0, recorded.value.1)] else []
    {
      if !((uri == Start && transition == Completed) || transition == Starting) {
        return None;
      }
      if base == None {
        base := Some(BaseTime(pts, dts));
      }
      if base.value.pts == NONE && pts != NONE {
        base := Some(BaseTime(pts, dts));
      }
      var outPts, outDts := pts, dts;
      if base.value.pts != NONE && pts != NONE {
        var offset := Add(base.value.pts, pausedTime);
        outPts := if pts > offset then pts - offset else 0;
      }
      if base.value.dts != NONE && dts != NONE {
        var offset := Add(base.value.dts, pausedTime);
        outDts := if dts > offset then dts - offset else 0;
      }
      recorded := Some((outPts, outDts));
    }
  }

  lemma UnlinkOneMore(s: State, done: set<nat>, id: nat, removable: set<nat>)
    ensures UnlinkPads(UnlinkPads(s, done, removable), {id}, removable) == UnlinkPads(s, done + {id}, removable)
  {
    assert s.linked - done - {id} == s.linked - (done + {id});
    assert s.pending + done + {id} == s.pending + (done + {id});
    assert Release(Release(s.srcs, done, removable), {id}, removable) == Release(s.srcs, done + {id}, removable);
  }
}
