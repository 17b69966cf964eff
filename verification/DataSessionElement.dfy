/** The data session element: hash tables, the waiting list and the two cursors,
    changed in place by the session's actions and callbacks. */
module DataSessionElement {
  import opened DataSession
  import opened Integers

  class DataSessionBin {
    const dtlsClientMode: bool
    var sessionEstablished: bool
    var dataChannels: map<UInt32, Origin>
    var channels: set<UInt32>
    var evenId: UInt32
    var oddId: UInt32
    var pending: seq<UInt32>
    var openedCount: nat
    var closedCount: nat

    function Snapshot(): Session
      reads this
    {
      Session(dtlsClientMode, sessionEstablished, dataChannels, channels, evenId, oddId, pending,
              openedCount, closedCount)
    }

    constructor (dtlsClientMode: bool)
      ensures Snapshot() == Init(dtlsClientMode)
    {
      this.dtlsClientMode, sessionEstablished := dtlsClientMode, false;
      dataChannels, channels, pending := map[], {}, [];
      evenId, oddId := 0, 1;
      openedCount, closedCount := 0, 0;
    }

    method SetCursor(id: UInt32)
      modifies this`evenId, this`oddId
      ensures Snapshot() == WithCursor(old(Snapshot()), id)
    {
      if dtlsClientMode {
        evenId := id;
      } else {
        oddId := id;
      }
    }

    /** Moves the role's cursor past the ids in use and returns where it stops. */
    method PickStreamId() returns (id: UInt32)
      requires HasFree(dataChannels.Keys, Cursor(Snapshot()))
      modifies this`evenId, this`oddId
      ensures id == Picked(old(Snapshot())) && id !in dataChannels
      ensures Snapshot() == WithCursor(old(Snapshot()), id)
    {
      id := if dtlsClientMode then evenId else oddId;
      ghost var start, left := id, FreeIndex(dataChannels.Keys, id, 0);
      SearchBegins(dataChannels.Keys, id);
      while id in dataChannels
        invariant Searching(dataChannels.Keys, start, left, id)
        invariant Snapshot() == WithCursor(old(Snapshot()), id)
        decreases left
      {
        SearchStep(dataChannels.Keys, start, left, id);
        id := Next(id);
        left := left - 1;
        SetCursor(id);
      }
      SearchEnd(dataChannels.Keys, start, left, id);
    }

    method CreateDataChannel(linked: bool) returns (id: int)
      requires HasFree(dataChannels.Keys, Cursor(Snapshot()))
      modifies this
      ensures Snapshot() == CreateChannel(old(Snapshot()), linked)
      ensures id == if old(sessionEstablished) && !linked then -1 else Picked(old(Snapshot()))
    {
      id := PickStreamId();
      if !sessionEstablished {
        pending := [id] + pending;
        return;
      }
      if !linked {
        return -1;
      }
      dataChannels := dataChannels[id := Local];
    }

    method AssociationEstablished(connected: bool, links: seq<bool>)
      modifies this
      ensures Snapshot() == AssociationChanged(old(Snapshot()), connected, links)
    {
      sessionEstablished := connected;
      if connected {
        var waiting, oracle := pending, links;
        while waiting != []
          invariant Flush(dataChannels, waiting, oracle) == old(Flush(dataChannels, pending, links))
          invariant Snapshot() == old(Snapshot()).(established := true, dataChannels := dataChannels)
          decreases |waiting|
        {
          if oracle != [] && oracle[0] {
            dataChannels := dataChannels[waiting[0] := Local];
          }
          waiting, oracle := waiting[1..], if oracle == [] then [] else oracle[1..];
        }
        pending := [];
      }
    }

    method OnPadAdded(id: UInt16)
      modifies this`dataChannels
      ensures Snapshot() == AddPad(old(Snapshot()), id)
    {
      if id !in dataChannels {
        if IsValidRemoteId(dtlsClientMode, id) {
          dataChannels := dataChannels[id := Remote];
        }
      }
    }

    method OnPadRemoved(id: UInt16)
      modifies this`dataChannels, this`channels, this`closedCount
      ensures Snapshot() == RemovePad(old(Snapshot()), id)
    {
      var found := id in dataChannels;
      dataChannels := dataChannels - {id};
      channels := channels - {id};
      if found {
        closedCount := closedCount + 1;
      }
    }

    method OnNegotiated(id: UInt16)
      modifies this`channels, this`openedCount
      ensures Snapshot() == NegotiatedChannel(old(Snapshot()), id)
    {
      if id !in channels {
        channels := channels + {id};
      }
      openedCount := openedCount + 1;
    }
  }
}
