/** The process-wide table of edges (MyEdges): edges filed by their id,
    added, removed, looked up, listed, started together and asked for their
    status. Each edge is owned by the table alone, as a `unique_ptr` is. */
module EdgeRegistry {
  import opened Wrappers
  import opened Json
  import opened EdgeRules
  import Devices
  import Edges
  import Status

  /** appendEdge's three endings: `true`, `false` for a null pointer, and
      DuplicateEdgeException for an id already filed. */
  datatype AppendOutcome = Appended | NullRejected | DuplicateThrown(edgeId: string)

  /** getEdgeById's EdgeNotFoundException. */
  datatype NotFound = EdgeNotFound(edgeId: string)

  /** The elements of `s` are pairwise different. */
  ghost predicate Distinct<T>(s: seq<T>)
  {
    forall i, j :: 0 <= i < j < |s| ==> s[i] != s[j]
  }

  /** Each edge is filed under one id only, owns its devices alone, and is
      itself consistent. */
  ghost predicate Owned(edges: map<string, Edges.UuvEdge>)
    reads edges.Values
  {
    && (forall a, b :: a in edges && b in edges && a != b ==> edges[a] != edges[b])
    && Separate(edges.Values)
    && AllValid(edges.Values)
  }

  /** No two of the edges share a device. */
  ghost predicate Separate(es: set<Edges.UuvEdge>)
    reads es
  {
    forall a, b :: a in es && b in es && a != b ==> a.devices.Values !! b.devices.Values
  }

  /** Every one of the edges is consistent. */
  ghost predicate AllValid(es: set<Edges.UuvEdge>)
    reads es
  {
    forall e {:trigger e.Valid()} :: e in es ==> e.Valid()
  }

  /** Every device of the given edges. */
  ghost function DevicesOf(es: set<Edges.UuvEdge>): set<Devices.Device>
    reads es
  {
    set e, d | e in es && d in e.devices.Values :: d
  }

  /** An edge's run state after startAllEdges: only a Ready edge changes, and
      it runs exactly when every one of its devices has a control. */
  function AfterStart(rs: RunState, controlled: bool): (after: RunState)
    ensures after == Running <==> rs == Running || (rs == Ready && controlled)
    ensures after != rs ==> rs == Ready
  {
    if rs == Ready && controlled then Running else rs
  }

  /** getEdgeById: the edge filed under `id`, or EdgeNotFoundException. */
  function Lookup(edges: map<string, Edges.UuvEdge>, id: string): (r: Result<Edges.UuvEdge, NotFound>)
    ensures r.Success? <==> id in edges
    ensures r.Success? ==> r.value == edges[id]
    ensures r.Failure? ==> r.error == EdgeNotFound(id)
  {
    if id in edges then Success(edges[id]) else Failure(EdgeNotFound(id))
  }

  class Registry {
    var edges: map<string, Edges.UuvEdge>

    ghost predicate Valid()
      reads this, edges.Values
    {
      Owned(edges)
    }

    /** `e` belongs to no filed edge and shares no device with one: it is
        handed over whole, as a `unique_ptr` is. */
    ghost predicate Outside(e: Edges.UuvEdge)
      reads this, edges.Values, e
    {
      e !in edges.Values && forall id :: id in edges ==> e.devices.Values !! edges[id].devices.Values
    }

    constructor ()
      ensures Valid() && edges == map[]
    {
      edges := map[];
    }

    /** appendEdge: a null edge is refused, an id already filed throws, and
        otherwise the edge is filed under its own id. */
    method Append(e: Edges.UuvEdge?) returns (r: AppendOutcome)
      requires Valid()
      requires e != null ==> e.Valid() && Outside(e)
      modifies this
      ensures Valid()
      ensures e == null ==> r == NullRejected && edges == old(edges)
      ensures e != null && e.edgeId in old(edges) ==> r == DuplicateThrown(e.edgeId) && edges == old(edges)
      ensures e != null && e.edgeId !in old(edges) ==> r == Appended && edges == old(edges)[e.edgeId := e]
    {
      if e == null {
        return NullRejected;
      }
      var id := e.edgeId;
      if id in edges {
        return DuplicateThrown(id);
      }
      edges := edges[id := e];
      r := Appended;
    }

    /** deleteEdgeById: `false` when nothing is filed under `id`; otherwise
        that one entry goes and the answer is `true`. */
    method Delete(id: string) returns (ok: bool)
      requires Valid()
      modifies this
      ensures Valid()
      ensures ok <==> id in old(edges)
      ensures edges == old(edges) - {id}
    {
      if id !in edges {
        return false;
      }
      edges := edges - {id};
      ok := true;
    }

    /** getEdgeIds: every filed id, once each, in no particular order. */
    method EdgeIds() returns (ids: seq<string>)
      ensures Distinct(ids)
      ensures forall id :: id in ids <==> id in edges
    {
      ids := [];
      var rest := edges.Keys;
      while rest != {}
        invariant rest <= edges.Keys
        invariant forall id :: id in ids <==> id in edges && id !in rest
        invariant Distinct(ids)
        decreases rest
      {
        var id :| id in rest;
        ids := ids + [id];
        rest := rest - {id};
      }
    }

    /** getEdges: every filed edge, once each, in no particular order. */
    method EdgeList() returns (es: seq<Edges.UuvEdge>)
      requires Valid()
      ensures Distinct(es)
      ensures forall e :: e in es <==> e in edges.Values
    {
      es := [];
      ghost var ids: seq<string> := [];
      var rest := edges.Keys;
      while rest != {}
        invariant rest <= edges.Keys
        invariant |ids| == |es|
        invariant forall i :: 0 <= i < |ids| ==> ids[i] in edges && ids[i] !in rest && es[i] == edges[ids[i]]
        invariant forall id :: id in edges && id !in rest ==> edges[id] in es
        invariant Distinct(ids)
        invariant Distinct(es)
        decreases rest
      {
        var id :| id in rest;
        es := es + [edges[id]];
        ids := ids + [id];
        rest := rest - {id};
      }
    }

    /** startAllEdges: every edge is started, whatever happened to the ones
        before it; the answer is `true` exactly when every Start was. */
    method StartAll() returns (ok: bool)
      requires Valid()
      modifies edges.Values, DevicesOf(edges.Values)
      ensures Valid()
      ensures forall id :: id in edges ==>
                edges[id].runState == AfterStart(old(edges[id].runState), old(Edges.Controlled(edges[id].devices)))
      ensures ok <==> forall id :: id in edges ==>
                old(edges[id].runState) == Ready && old(Edges.Controlled(edges[id].devices))
    {
      ok := StartEdges(edges.Values);
    }

    /** GetHeartbeatInfo: an object with one entry per edge id, holding that
        edge's status snapshot as JSON, which reads back as the snapshot. */
    method HeartbeatInfo() returns (hb: Json)
      ensures hb.Obj? && hb.fields.Keys == edges.Keys
      ensures forall id :: id in edges ==> hb.fields[id] == Status.EdgeToJson(edges[id].Snapshot())
      ensures forall id :: id in edges ==> Status.EdgeFromJson(hb.fields[id]) == edges[id].Snapshot()
    {
      var fields: map<string, Json> := map[];
      var rest := edges.Keys;
      while rest != {}
        invariant rest <= edges.Keys
        invariant fields.Keys == edges.Keys - rest
        invariant forall id :: id in fields ==> fields[id] == Status.EdgeToJson(edges[id].Snapshot())
        invariant forall id :: id in fields ==> Status.EdgeFromJson(fields[id]) == edges[id].Snapshot()
        decreases rest
      {
        var id :| id in rest;
        label before:
        var s := edges[id].GetStatusSnapshot();
        forall k | k in fields
          ensures fields[k] == Status.EdgeToJson(edges[k].Snapshot())
          ensures Status.EdgeFromJson(fields[k]) == edges[k].Snapshot()
        {
          SnapshotKept@before(edges[k]);
        }
        Status.EdgeRoundTrip(s);
        fields := fields[id := Status.EdgeToJson(s)];
        rest := rest - {id};
      }
      hb := Obj(fields);
    }
  }

  /** An edge whose fields, E-Stop flag, status cells and queues did not
      change still has the same snapshot. */
  twostate lemma SnapshotKept(e: Edges.UuvEdge)
    requires unchanged(e, e.estop) && unchanged(Edges.CellsOf(e.devices)) && unchanged(e.queues.Values)
    ensures e.Snapshot() == old(e.Snapshot())
  {
  }

  /** One edge's Start, as startAllEdges sees it: the edge's run state
      moves as `AfterStart` says, and the other edges are left alone. */
  method StartOne(es: set<Edges.UuvEdge>, e: Edges.UuvEdge) returns (ok: bool)
    requires e in es && Separate(es) && AllValid(es)
    modifies e, e.devices.Values
    ensures AllValid(es) && forall x :: x in es ==> x.devices == old(x.devices)
    ensures e.runState == AfterStart(old(e.runState), old(Edges.Controlled(e.devices)))
    ensures ok <==> old(e.runState) == Ready && old(Edges.Controlled(e.devices))
    ensures forall x :: x in es && x != e ==>
              x.runState == old(x.runState) && Edges.Controlled(x.devices) == old(Edges.Controlled(x.devices))
  {
    ghost var controlled := Edges.Controlled(e.devices);
    var err;
    label pre:
    ok, err := e.Start();
    assert Edges.Controlled(e.devices) == controlled;
    forall x | x in es && x != e
      ensures x.runState == old@pre(x.runState) && x.devices == old@pre(x.devices)
      ensures x.Valid() == old@pre(x.Valid())
      ensures Edges.Controlled(x.devices) == old@pre(Edges.Controlled(x.devices))
    {
      Untouched@pre(x);
    }
  }

  /** An edge whose fields and devices did not change keeps its run state,
      its validity and whether all its devices have controls. */
  twostate lemma Untouched(x: Edges.UuvEdge)
    requires unchanged(x) && unchanged(x.devices.Values)
    ensures x.runState == old(x.runState) && x.devices == old(x.devices)
    ensures x.Valid() == old(x.Valid())
    ensures Edges.Controlled(x.devices) == old(Edges.Controlled(x.devices))
  {
  }

  /** The loop of startAllEdges, over the filed edges. */
  method StartEdges(es: set<Edges.UuvEdge>) returns (ok: bool)
    requires Separate(es) && AllValid(es)
    modifies es, DevicesOf(es)
    ensures AllValid(es) && forall e :: e in es ==> e.devices == old(e.devices)
    ensures forall e :: e in es ==> e.runState == AfterStart(old(e.runState), old(Edges.Controlled(e.devices)))
    ensures ok <==> forall e :: e in es ==> old(e.runState) == Ready && old(Edges.Controlled(e.devices))
  {
    ok := true;
    var rest := es;
    while rest != {}
      invariant rest <= es
      invariant AllValid(es) && forall e :: e in es ==> e.devices == old(e.devices)
      invariant forall e :: e in rest ==>
                  e.runState == old(e.runState) && Edges.Controlled(e.devices) == old(Edges.Controlled(e.devices))
      invariant forall e :: e in es && e !in rest ==> e.runState == AfterStart(old(e.runState), old(Edges.Controlled(e.devices)))
      invariant ok <==> forall e :: e in es && e !in rest ==> old(e.runState) == Ready && old(Edges.Controlled(e.devices))
      decreases rest
    {
      var e :| e in rest;
      var started := StartOne(es, e);
      if !started {
        ok := false;
      }
      rest := rest - {e};
    }
  }
}
