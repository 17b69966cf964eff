/** The composite mixer element: the machine of module CompositePorts, updated in place. */
module CompositeElement {
  import opened CompositeGrid
  import opened CompositePorts

  class PortData {
    const id: nat
    var input: bool
    var removing: bool
    var eosManaged: bool
    var probed: bool
    var eos: bool
    var inTransit: bool
    var linked: bool
    var scheduled: nat

    function View(): Port
      reads this
    {
      Port(input, removing, eosManaged, probed, eos, inTransit, linked, scheduled)
    }

    constructor (id: nat)
      ensures this.id == id && View() == NewPort()
    {
      this.id := id;
      input, removing, eosManaged, probed, eos, inTransit := false, false, false, false, false, false;
      linked, scheduled := true, 0;
    }

    method EosReceived()
      modifies this`eosManaged, this`probed, this`scheduled
      ensures View() == CompositePorts.EosReceived(old(View()))
    {
      if probed {
        if !removing {
          eosManaged := true;
          return;
        }
        probed := false;
        scheduled := scheduled + 1;
      }
    }

    method UpstreamEos()
      modifies this`eos, this`inTransit
      ensures View() == CompositePorts.UpstreamEos(old(View()))
    {
      if !eos {
        eos := true;
        inTransit := true;
      }
    }

    method EosCrosses()
      modifies this`inTransit, this`eosManaged, this`probed, this`scheduled
      ensures View() == CompositePorts.EosCrosses(old(View()))
    {
      if inTransit {
        inTransit := false;
        if linked {
          EosReceived();
        }
      }
    }

    /** The part of a removal that concerns the port alone. */
    method Destroy()
      modifies this`removing, this`probed, this`eos, this`eosManaged, this`scheduled
      ensures View() == CompositePorts.Destroy(old(View()))
    {
      removing := true;
      if input {
        if !eos {
          eos := true;
          EosReceived();
        } else if eosManaged {
          scheduled := scheduled + 1;
        }
      } else {
        probed := false;
      }
    }

    method Unlink()
      requires removing
      modifies this`linked
      ensures View() == CompositePorts.Unlink(old(View()))
    {
      linked := false;
    }
  }

  /** The ids in order, from a table that lists them in any order. */
  method SortedIds(keys: set<nat>) returns (ids: seq<nat>)
    ensures Ascending(ids)
    ensures forall id :: id in ids <==> id in keys
  {
    ids := [];
    var todo := keys;
    while todo != {}
      invariant todo <= keys
      invariant forall id :: id in ids <==> id in keys - todo
      invariant Ascending(ids)
      decreases todo
    {
      var id :| id in todo;
      ids := Insert(ids, id);
      todo := todo - {id};
    }
  }

  lemma AscendingCons(id: nat, ids: seq<nat>)
    requires Ascending(ids) && forall j :: j in ids ==> id < j
    ensures Ascending([id] + ids)
  {
    forall i, j | 0 <= i < j < |[id] + ids|
      ensures ([id] + ids)[i] < ([id] + ids)[j]
    {
      assert ([id] + ids)[j] == ids[j - 1] && ids[j - 1] in ids;
    }
  }

  function Insert(ids: seq<nat>, id: nat): (r: seq<nat>)
    requires Ascending(ids) && id !in ids
    ensures Ascending(r)
    ensures forall j :: j in r <==> j in ids || j == id
  {
    if ids == [] then [id]
    else if id < ids[0] then
      AscendingCons(id, ids);
      [id] + ids
    else
      var rest := Insert(ids[1..], id);
      AscendingCons(ids[0], rest);
      [ids[0]] + rest
  }

  lemma BeforeGrows(ports: map<nat, Port>, ids: seq<nat>, k: nat)
    requires k < |ids| && Ascending(ids) && ids[k] in ports
    ensures Before(ports, ids, k + 1)
         == if ports[ids[k]].input then Before(ports, ids, k) + {ids[k]} else Before(ports, ids, k)
    ensures ids[k] !in Before(ports, ids, k)
  {
    assert ids[..k + 1] == ids[..k] + [ids[k]];
    assert ids[k] !in ids[..k];
  }

  lemma LaidGrows(m: Mixer, ids: set<nat>, id: nat)
    requires m.nElems > 0
    ensures Laid(m, ids + {id}) == Laid(m, ids)[id := Tile(m.nElems, m.width, m.height, Rank(m.ports, id))]
  {
  }

  /** The tiles and the counter after the first k ports of a list. */
  predicate LaidSoFar(m: Mixer, ids: seq<nat>, k: nat, tiles: map<nat, Rect>, counter: nat)
    requires m.nElems > 0 && k <= |ids|
  {
    counter == |Before(m.ports, ids, k)| && tiles == Laid(m, Before(m.ports, ids, k))
  }

  /** One port further along the list: the next tile goes to an input port, none to another. */
  lemma NextTile(m: Mixer, ids: seq<nat>, k: nat, tiles: map<nat, Rect>, counter: nat)
    requires m.nElems > 0 && k < |ids| && Ascending(ids) && forall id :: id in ids <==> id in m.ports
    requires LaidSoFar(m, ids, k, tiles, counter)
    ensures ids[k] in m.ports
    ensures if m.ports[ids[k]].input then
              LaidSoFar(m, ids, k + 1, tiles[ids[k] := Tile(m.nElems, m.width, m.height, counter)], counter + 1)
            else LaidSoFar(m, ids, k + 1, tiles, counter)
  {
    assert ids[k] in ids;
    BeforeGrows(m.ports, ids, k);
    RankIsPosition(m.ports, ids, k);
    LaidGrows(m, Before(m.ports, ids, k), ids[k]);
  }

  class CompositeMixer {
    var ports: map<nat, PortData>
    var tiles: map<nat, Rect>
    var nElems: int
    var outputWidth: nat
    var outputHeight: nat

    function Ports(): set<PortData>
      reads this
    {
      set id | id in ports :: ports[id]
    }

    /** This object is in state m; the table files every port under its own id. */
    ghost predicate Represents(m: Mixer)
      reads this, Ports()
    {
      && tiles == m.tiles && nElems == m.nElems && outputWidth == m.width && outputHeight == m.height
      && RepresentsPorts(m.ports)
    }

    ghost predicate RepresentsPorts(views: map<nat, Port>)
      reads this, Ports()
    {
      && ports.Keys == views.Keys
      && forall id :: id in ports ==> ports[id].id == id && ports[id].View() == views[id]
    }

    constructor (width: nat, height: nat)
      ensures Represents(NewMixer(width, height))
    {
      ports, tiles, nElems, outputWidth, outputHeight := map[], map[], 0, width, height;
    }

    method TileFor(counter: nat) returns (tile: Rect)
      requires nElems > 0
      ensures tile == Tile(nElems, outputWidth, outputHeight, counter)
    {
      var columns, rows := Columns(nElems), Rows(nElems);
      var width, height := outputWidth / columns, outputHeight / rows;
      tile := Rect((counter % columns) * width, (counter / columns) * height, width, height);
    }

    method RecalculateSizes(ghost m: Mixer)
      requires Represents(m)
      modifies this`tiles
      ensures Represents(Layout(m))
    {
      if nElems > 0 {
        var values := SortedIds(ports.Keys);
        LayTiles(values, m);
        assert Before(m.ports, values, |values|) == Inputs(m.ports);
      }
    }

    method LayTiles(values: seq<nat>, ghost m: Mixer)
      requires Represents(m) && nElems > 0
      requires Ascending(values) && forall id :: id in values <==> id in ports
      modifies this`tiles
      ensures tiles == Laid(m, Before(m.ports, values, |values|))
    {
      var counter, k := 0, 0;
      while k < |values|
        invariant k <= |values| && LaidSoFar(m, values, k, tiles, counter)
      {
        NextTile(m, values, k, tiles, counter);
        counter := LayTile(ports[values[k]], counter);
        k := k + 1;
      }
    }

    /** An input port gets the counter's tile, and the counter goes on. */
    method LayTile(port: PortData, counter: nat) returns (next: nat)
      requires nElems > 0
      modifies this`tiles
      ensures next == counter + (if port.input then 1 else 0)
      ensures tiles == if port.input then old(tiles)[port.id := Tile(nElems, outputWidth, outputHeight, counter)]
                       else old(tiles)
    {
      next := counter;
      if port.input {
        var tile := TileFor(counter);
        tiles := tiles[port.id := tile];
        next := counter + 1;
      }
    }

    method HandlePort(id: nat, ghost m: Mixer)
      requires Represents(m) && id !in ports
      modifies this`ports
      ensures Represents(Handle(m, id))
      ensures id in ports && fresh(ports[id]) && ports == old(ports)[id := ports[id]]
    {
      var data := new PortData(id);
      ports := ports[id := data];
    }

    method Join(data: PortData, ghost m: Mixer)
      requires Represents(m) && data.id in ports && ports[data.id] == data
      modifies this`nElems, data`input, data`probed
      ensures Represents(Joined(m, data.id))
    {
      data.input := true;
      data.probed := true;
      nElems := nElems + 1;
    }

    method LinkToVideomixer(data: PortData, ghost m: Mixer)
      requires Represents(m) && data.id in ports && ports[data.id] == data && !data.input
      modifies this`nElems, data`input, data`probed, this`tiles
      ensures Represents(Start(m, data.id))
    {
      Join(data, m);
      RecalculateSizes(Joined(m, data.id));
    }

    /** The stream of a port that has left the table. */
    method LinkLate(data: PortData, ghost m: Mixer)
      requires Represents(m) && data !in Ports() && !data.input
      modifies this`nElems, data`input, data`probed, this`tiles
      ensures Represents(Step(m, LateStart))
      ensures data.View() == LinkToMixer(old(data.View()))
    {
      data.input := true;
      data.probed := true;
      nElems := nElems + 1;
      RecalculateSizes(Late(m));
    }

    method TakeOut(id: nat, ghost m: Mixer) returns (data: PortData)
      requires Represents(m) && id in ports
      modifies this`ports
      ensures data == old(ports[id]) && data !in Ports()
      ensures Represents(m.(ports := m.ports - {id}))
    {
      data := ports[id];
      ports := ports - {id};
    }

    method Leave(id: nat, ghost m: Mixer) returns (data: PortData)
      requires Represents(m) && id in ports
      modifies this`ports, ports[id]
      ensures data == old(ports[id]) && data !in Ports() && data.View() == Destroy(m.ports[id])
      ensures data.input == m.ports[id].input
      ensures Represents(m.(ports := m.ports - {id}))
    {
      data := TakeOut(id, m);
      data.Destroy();
    }

    method Uncount(data: PortData, hadEos: bool, ghost m: Mixer)
      requires Represents(m) && data !in Ports()
      modifies this`nElems, data`input, this`tiles
      ensures Represents(Uncounted(m, old(data.input) && !hadEos))
      ensures data.View() == old(data.View()).(input := data.input)
      ensures data.input == (old(data.input) && (hadEos || m.nElems <= 0))
    {
      if data.input && !hadEos && nElems > 0 {
        data.input := false;
        nElems := nElems - 1;
        RecalculateSizes(m.(nElems := m.nElems - 1));
      }
    }

    /** Out of the table, then the part of the removal under the mixer's lock. */
    method UnhandlePort(id: nat, ghost m: Mixer) returns (data: PortData)
      requires Represents(m) && id in ports && !ports[id].removing
      modifies this`ports, this`nElems, this`tiles, ports[id]
      ensures data == old(ports[id]) && Represents(Unhandle(m, id))
      ensures data.View() == Destroy(m.ports[id]).(input := data.input)
      ensures data.input == (m.ports[id].input && (m.ports[id].eos || m.nElems <= 0))
    {
      var hadEos := ports[id].eos;
      data := Leave(id, m);
      Uncount(data, hadEos, m.(ports := m.ports - {id}));
    }
  }
}
