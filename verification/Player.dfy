/** The player endpoint's two kinds of mutable state: the memory of one sink and the
    base times shared by all sinks. */
module Player {
  import opened ClockTime
  import opened Retimer
  import opened Wrappers

  /** A sink's memory, updated in place. */
  class PtsMemory {
    var baseTime: Time
    var offsetTime: Time
    var lastPts: Time
    var lastPtsOrig: Time
    var ptsHandled: bool

    function Snapshot(): PtsData
      reads this
    {
      PtsData(baseTime, offsetTime, lastPts, lastPtsOrig, ptsHandled)
    }

    constructor ()
      ensures Snapshot() == NewPtsData()
      ensures baseTime == offsetTime == lastPts == lastPtsOrig == NONE && !ptsHandled
    {
      baseTime, offsetTime, lastPts, lastPtsOrig, ptsHandled := NONE, NONE, NONE, NONE, false;
    }

    method Reset()
      modifies this`baseTime, this`lastPtsOrig
      ensures Snapshot() == old(Snapshot()).(baseTime := NONE, lastPtsOrig := NONE)
    {
      baseTime, lastPtsOrig := NONE, NONE;
    }
  }

  class PlayerEndpoint {
    var reset: bool
    var baseTime: Time
    var baseTimePreroll: Time

    function Snapshot(): Shared
      reads this
    {
      Shared(reset, baseTime, baseTimePreroll)
    }

    constructor ()
      ensures Snapshot() == NewShared()
      ensures !reset && baseTime == baseTimePreroll == NONE
    {
      reset, baseTime, baseTimePreroll := false, NONE, NONE;
    }

    method MarkResetBaseTime()
      modifies this`reset
      ensures Snapshot() == old(Snapshot()).(reset := true)
    {
      reset := true;
    }

    method ResetBaseTime()
      modifies this
      ensures !reset
      ensures old(reset) ==> baseTime == NONE && baseTimePreroll == NONE
      ensures !old(reset) ==> baseTime == old(baseTime) && baseTimePreroll == old(baseTimePreroll)
    {
      if reset {
        baseTimePreroll := NONE;
        baseTime := NONE;
        reset := false;
      }
    }

    method GetOrGenerateBaseTime(isPreroll: bool, clock: Time) returns (base: Time)
      modifies this`baseTime, this`baseTimePreroll
      ensures var was := old(if isPreroll then baseTimePreroll else baseTime);
              && (was == NONE ==> base == clock) && (was != NONE ==> base == was)
              && Snapshot() == if isPreroll then old(Snapshot()).(baseTimePreroll := base)
                               else old(Snapshot()).(baseTime := base)
    {
      base := if isPreroll then baseTimePreroll else baseTime;
      if base == NONE {
        base := clock;
        if isPreroll {
          baseTimePreroll := base;
        } else {
          baseTime := base;
        }
      }
    }

    /** The timestamps a buffer leaves with, or None for one that is not pushed. */
    method EmitBuffer(data: PtsMemory, buffer: Buffer, base: Time, offset: Time) returns (pushed: Option<Buffer>)
      modifies data`lastPts, data`lastPtsOrig
      ensures Result(data.Snapshot(), Snapshot(), pushed)
           == Emit(old(data.Snapshot()), old(Snapshot()), buffer, base, offset)
    {
      if data.lastPtsOrig != NONE && buffer.pts <= data.lastPtsOrig {
        return None;
      }
      var diff := Sub(base, offset);
      var duration := if buffer.duration == 1 then NONE else buffer.duration;
      var out := Buffer(Add(buffer.pts, diff), Add(buffer.dts, diff), duration);
      if data.lastPts != NONE && out.pts <= data.lastPts {
        return None;
      }
      data.lastPts := out.pts;
      data.lastPtsOrig := buffer.pts;
      pushed := Some(out);
    }

    method ProcessSample(data: PtsMemory, buffer: Buffer, isPreroll: bool, clock: Time) returns (pushed: Option<Buffer>)
      modifies this, data
      ensures Result(data.Snapshot(), Snapshot(), pushed)
           == Retimer.ProcessSample(old(data.Snapshot()), old(Snapshot()), buffer, isPreroll, clock)
    {
      if buffer.pts == NONE && buffer.dts == NONE {
        return if data.ptsHandled then None else Some(buffer);
      }
      var filled := Filled(buffer);
      data.ptsHandled := true;
      var base, offset;
      if isPreroll {
        ResetBaseTime();
        data.Reset();
        base := GetOrGenerateBaseTime(true, clock);
        base := EpochBase(base, data.lastPts);
        offset := filled.pts;
      } else {
        base := data.baseTime;
        offset := data.offsetTime;
        if base == NONE {
          base := GetOrGenerateBaseTime(false, clock);
          base := EpochBase(base, data.lastPts);
          offset := filled.pts;
          data.baseTime, data.offsetTime := base, offset;
        }
      }
      pushed := EmitBuffer(data, filled, base, offset);
    }
  }
}
