/** The three-colour depth-first search that closes every graph construction. */
module CycleDetection {
  import opened Reachability
  import opened GraphTypes
  import opened Wrappers

  datatype Color = Gray | Black

  datatype CycleError =
    | MissingChild(parent: Identifier, child: Identifier)
    | CycleFound(reached: Identifier, via: seq<Identifier>)

  /** The lookup table of the search; a repeated identifier keeps its last node. */
  function NodesById(nodes: seq<Node>): (m: map<Identifier, Node>)
    ensures m.Keys == Ids(nodes)
    ensures forall id :: id in m ==> m[id] in nodes && m[id].id == id
  {
    if nodes == [] then map[] else NodesById(nodes[..|nodes| - 1])[nodes[|nodes| - 1].id := nodes[|nodes| - 1]]
  }

  function TableEdges(byId: map<Identifier, Node>): set<Edge<Identifier>> {
    set id, c | id in byId && c in byId[id].children :: Edge(id, c)
  }

  ghost predicate Closed(byId: map<Identifier, Node>) {
    forall id, c :: id in byId && c in byId[id].children ==> c in byId
  }

  /** What an error of the search claims about the graph. */
  ghost predicate Truthful(byId: map<Identifier, Node>, e: CycleError) {
    match e
    case MissingChild(p, c) => p in byId && c in byId[p].children && c !in byId
    case CycleFound(r, via) =>
      && IsPath(TableEdges(byId), via)
      && r in via
      && Edge(via[|via| - 1], r) in TableEdges(byId)
  }

  lemma TruthfulErrorsRefute(byId: map<Identifier, Node>, e: CycleError)
    requires Truthful(byId, e)
    ensures !(Closed(byId) && Acyclic(TableEdges(byId)))
  {
    if e.CycleFound? {
      ClosedChainIsCycle(TableEdges(byId), e.via, e.reached);
    }
  }

  /** With unique identifiers the lookup table describes exactly the listed nodes. */
  lemma {:induction false} UniqueTableEdges(nodes: seq<Node>)
    requires UniqueIds(nodes)
    ensures TableEdges(NodesById(nodes)) == ChildEdges(nodes)
    ensures forall n :: n in nodes ==> n.id in NodesById(nodes) && NodesById(nodes)[n.id] == n
  {
    var byId := NodesById(nodes);
    RecordedEdges(nodes);
    forall n | n in nodes ensures n.id in byId && byId[n.id] == n {
      assert byId[n.id] in nodes;
    }
    assert forall e :: e in TableEdges(byId) ==> e in ChildEdges(nodes);
    forall e | e in ChildEdges(nodes) ensures e in TableEdges(byId) {
      var n, c :| n in nodes && c in n.children && e == Edge(n.id, c);
      assert byId[n.id] == n;
    }
  }

  lemma TableEdgeIs(byId: map<Identifier, Node>, id: Identifier, c: Identifier)
    requires id in byId && c in byId[id].children
    ensures Edge(id, c) in TableEdges(byId)
  {
  }

  lemma PathCloses(byId: map<Identifier, Node>, path: seq<Identifier>, id: Identifier)
    requires forall i :: 0 <= i < |path| - 1 ==> Edge(path[i], path[i + 1]) in TableEdges(byId)
    requires id in path && Edge(path[|path| - 1], id) in TableEdges(byId)
    ensures Truthful(byId, CycleFound(id, path))
  {
  }

  lemma ChildMisses(byId: map<Identifier, Node>, id: Identifier, c: Identifier)
    requires id in byId && c in byId[id].children && c !in byId
    ensures Truthful(byId, MissingChild(id, c))
  {
  }

  /** An identifier whose children are all finished may finish next. */
  lemma OrderGrows(byId: map<Identifier, Node>, order: seq<Identifier>, id: Identifier)
    requires ReverseTopological(TableEdges(byId), order) && id in byId && id !in order
    requires forall c :: c in byId[id].children ==> c in order
    ensures ReverseTopological(TableEdges(byId), order + [id])
  {
    var now := order + [id];
    forall e | e in TableEdges(byId) && e.from in now
      ensures exists i, j :: 0 <= i < j < |now| && now[i] == e.to && now[j] == e.from
    {
      if e.from == id {
        var i :| 0 <= i < |order| && order[i] == e.to;
        assert now[i] == e.to && now[|order|] == e.from;
      } else {
        assert e.from in order;
        var i, j :| 0 <= i < j < |order| && order[i] == e.to && order[j] == e.from;
        assert now[i] == e.to && now[j] == e.from;
      }
    }
  }

  /** Grey identifiers are exactly the current path, black ones the finish order so far. */
  ghost predicate SearchOk(byId: map<Identifier, Node>, color: map<Identifier, Color>, path: seq<Identifier>, finished: seq<Identifier>) {
    && color.Keys <= byId.Keys
    && (forall id :: id in path <==> id in color && color[id] == Gray)
    && (forall id :: id in finished <==> id in color && color[id] == Black)
    && (forall i :: 0 <= i < |path| - 1 ==> Edge(path[i], path[i + 1]) in TableEdges(byId))
    && ReverseTopological(TableEdges(byId), finished)
    && (forall id, c :: id in finished && c in byId[id].children ==> c in byId)
  }

  lemma ColorsAre(byId: map<Identifier, Node>, color: map<Identifier, Color>, path: seq<Identifier>, finished: seq<Identifier>, id: Identifier)
    requires SearchOk(byId, color, path, finished)
    ensures color.Keys <= byId.Keys
    ensures id in color && color[id] == Black ==> id in finished
    ensures id in color && color[id] == Gray ==> id in path
    ensures id !in color ==> id !in path && id !in finished
    ensures forall i :: 0 <= i < |path| - 1 ==> Edge(path[i], path[i + 1]) in TableEdges(byId)
  {
    hide ReverseTopological, TableEdges;
  }

  lemma Enters(byId: map<Identifier, Node>, color: map<Identifier, Color>, path: seq<Identifier>, finished: seq<Identifier>, id: Identifier)
    requires SearchOk(byId, color, path, finished) && id in byId && id !in color
    requires path != [] ==> Edge(path[|path| - 1], id) in TableEdges(byId)
    ensures SearchOk(byId, color[id := Gray], path + [id], finished)
  {
    hide ReverseTopological, TableEdges;
  }

  class Search {
    const byId: map<Identifier, Node>
    var color: map<Identifier, Color>
    var path: seq<Identifier>
    ghost var finished: seq<Identifier>

    constructor (table: map<Identifier, Node>)
      ensures byId == table && Valid() && path == [] && color == map[]
    {
      byId := table;
      color := map[];
      path := [];
      finished := [];
    }

    ghost predicate Valid()
      reads this
    {
      SearchOk(byId, color, path, finished)
    }

    lemma ValidIs()
      ensures Valid() <==> SearchOk(byId, color, path, finished)
    {
    }

    lemma ColorsWithin()
      requires Valid()
      ensures color.Keys <= byId.Keys
    {
      hide ReverseTopological, TableEdges;
    }

    ghost predicate Entered(id: Identifier)
      reads this
    {
      path != [] ==> Edge(path[|path| - 1], id) in TableEdges(byId)
    }

    lemma EnteredIs(id: Identifier)
      ensures Entered(id) <==> (path != [] ==> Edge(path[|path| - 1], id) in TableEdges(byId))
    {
    }

    method Visit(id: Identifier) returns (err: Option<CycleError>)
      requires Valid() && id in byId && Entered(id)
      modifies this
      ensures err.None? ==> Valid() && path == old(path) && id in finished
      ensures err.None? ==> old(finished) <= finished
      ensures err.None? ==> old(color).Keys <= color.Keys
      ensures err.Some? ==> Truthful(byId, err.value)
      decreases byId.Keys - color.Keys
    {
      hide *;
      ValidIs();
      EnteredIs(id);
      ColorsAre(byId, color, path, finished, id);
      if id in color {
        if color[id] == Black {
          return None;
        }
        PathCloses(byId, path, id);
        return Some(CycleFound(id, path));
      }
      Enters(byId, color, path, finished, id);
      color := color[id := Gray];
      path := path + [id];
      ghost var entered := path;
      ValidIs();
      assert entered[..|entered| - 1] == old(path);

      var children := byId[id].children;
      var i := 0;
      while i < |children|
        invariant 0 <= i <= |children|
        invariant Valid() && path == entered && old(finished) <= finished
        invariant old(color).Keys + {id} <= color.Keys
        invariant forall k :: 0 <= k < i ==> children[k] in finished
      {
        var child := children[i];
        if child !in byId {
          ChildMisses(byId, id, child);
          return Some(MissingChild(id, child));
        }
        TableEdgeIs(byId, id, child);
        EnteredIs(child);
        ColorsWithin();
        err := Visit(child);
        if err.Some? {
          return;
        }
        i := i + 1;
      }
      Finish(id);
      err := None;
    }

    /** Starts a search from every listed identifier that is still white. */
    method VisitAll(nodes: seq<Node>) returns (err: Option<CycleError>)
      requires Valid() && path == []
      requires forall k :: 0 <= k < |nodes| ==> nodes[k].id in byId
      modifies this
      ensures err.None? ==> Valid() && forall k :: 0 <= k < |nodes| ==> nodes[k].id in finished
      ensures err.Some? ==> Truthful(byId, err.value)
    {
      for i := 0 to |nodes|
        invariant Valid() && path == []
        invariant forall k :: 0 <= k < i ==> nodes[k].id in finished
      {
        if nodes[i].id !in color {
          err := Visit(nodes[i].id);
          if err.Some? {
            return;
          }
        }
      }
      err := None;
    }

    /** Blackens the top of the path once all its children are finished. */
    method Finish(id: Identifier)
      requires Valid() && path != [] && id == path[|path| - 1] && id !in path[..|path| - 1] && id in byId
      requires forall c :: c in byId[id].children ==> c in finished
      modifies this
      ensures Valid() && path == old(path[..|path| - 1]) && finished == old(finished) + [id]
      ensures color.Keys == old(color.Keys)
    {
      hide ReverseTopological, TableEdges;
      path := path[..|path| - 1];
      color := color[id := Black];
      OrderGrows(byId, finished, id);
      finished := finished + [id];
    }
  }

  method BuildTable(nodes: seq<Node>) returns (byId: map<Identifier, Node>)
    ensures byId == NodesById(nodes)
  {
    byId := map[];
    for i := 0 to |nodes|
      invariant byId == NodesById(nodes[..i])
    {
      assert nodes[..i + 1][..i] == nodes[..i];
      byId := byId[nodes[i].id := nodes[i]];
    }
    assert nodes[..|nodes|] == nodes;
  }

  /** A search that finished every identifier has certified the whole table. */
  lemma FinishedMeansAcyclic(byId: map<Identifier, Node>, order: seq<Identifier>)
    requires ReverseTopological(TableEdges(byId), order)
    requires forall id :: id in byId ==> id in order
    requires forall id, c :: id in order && id in byId && c in byId[id].children ==> c in byId
    ensures Closed(byId) && Acyclic(TableEdges(byId))
  {
    OrderedMeansAcyclic(TableEdges(byId), order);
  }

  /** Succeeds exactly on closed acyclic graphs; on failure the reported fact is true of the graph. */
  method DetectCycles(nodes: seq<Node>) returns (err: Option<CycleError>, ghost order: seq<Identifier>)
    ensures err.None? <==> Closed(NodesById(nodes)) && Acyclic(TableEdges(NodesById(nodes)))
    ensures err.Some? ==> Truthful(NodesById(nodes), err.value)
    ensures err.None? ==> ReverseTopological(TableEdges(NodesById(nodes)), order)
    ensures err.None? ==> forall id :: id in order <==> id in Ids(nodes)
  {
    order := [];
    var byId := BuildTable(nodes);
    RecordedEdges(nodes);
    assert forall k :: 0 <= k < |nodes| ==> nodes[k].id in byId;
    var search := new Search(byId);
    err := search.VisitAll(nodes);
    if err.Some? {
      TruthfulErrorsRefute(byId, err.value);
    } else {
      order := search.finished;
      FinishedMeansAcyclic(byId, order);
    }
  }
}
