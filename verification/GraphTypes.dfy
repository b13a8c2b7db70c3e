/** Identifiers and nodes of a multi-stamp execution graph. */
module GraphTypes {
  import opened Reachability
  import opened Ordering

  /** The empty value is the unstamped context. */
  datatype Stamp = Stamp(value: string) {
    predicate IsSet() { value != "" }

    /** This stamp when `stamped` holds, the unstamped value otherwise. */
    function If(stamped: bool): Stamp { if stamped then this else Unstamped() }
  }

  function Unstamped(): Stamp { Stamp("") }

  datatype Identifier = Identifier(stamp: Stamp, serviceGroup: string, resourceGroup: string, step: string)

  datatype Node = Node(id: Identifier, children: seq<Identifier>, parents: seq<Identifier>)

  function Ids(nodes: seq<Node>): set<Identifier> {
    if nodes == [] then {} else Ids(nodes[..|nodes| - 1]) + {nodes[|nodes| - 1].id}
  }

  ghost predicate UniqueIds(nodes: seq<Node>) {
    forall i, j :: 0 <= i < j < |nodes| ==> nodes[i].id != nodes[j].id
  }

  function ChildLinks(n: Node): set<Edge<Identifier>> {
    set c | c in n.children :: Edge(n.id, c)
  }

  function ParentLinks(n: Node): set<Edge<Identifier>> {
    set p | p in n.parents :: Edge(p, n.id)
  }

  /** The edges recorded on the parents' side of the nodes. */
  function ChildEdges(nodes: seq<Node>): set<Edge<Identifier>> {
    if nodes == [] then {} else ChildEdges(nodes[..|nodes| - 1]) + ChildLinks(nodes[|nodes| - 1])
  }

  /** The edges recorded on the children's side of the nodes. */
  function ParentEdges(nodes: seq<Node>): set<Edge<Identifier>> {
    if nodes == [] then {} else ParentEdges(nodes[..|nodes| - 1]) + ParentLinks(nodes[|nodes| - 1])
  }

  lemma {:induction false} RecordedEdges(nodes: seq<Node>)
    ensures forall id :: id in Ids(nodes) <==> exists n :: n in nodes && n.id == id
    ensures forall e :: e in ChildEdges(nodes) <==> exists n :: n in nodes && n.id == e.from && e.to in n.children
    ensures forall e :: e in ParentEdges(nodes) <==> exists n :: n in nodes && n.id == e.to && e.from in n.parents
  {
    if nodes != [] {
      var init, last := nodes[..|nodes| - 1], nodes[|nodes| - 1];
      RecordedEdges(init);
      assert nodes == init + [last];
      assert forall n :: n in nodes <==> n in init || n == last;
    }
  }

  /** Two stamps may be joined by an edge when they agree or one side is unstamped. */
  predicate Compatible(s: Stamp, t: Stamp) {
    s.IsSet() && t.IsSet() ==> s == t
  }

  // ----- the order of identifiers and deduplicated lists

  function Fields(id: Identifier): seq<string> {
    [id.stamp.value, id.serviceGroup, id.resourceGroup, id.step]
  }

  predicate IdLess(a: Identifier, b: Identifier) { FieldsLess(Fields(a), Fields(b)) }

  lemma IdLessIsTotal()
    ensures TotalOrder(IdLess)
  {
    forall x, y ensures !IdLess(x, x) && (x == y || IdLess(x, y) || IdLess(y, x)) {
      FieldsLessTotal(Fields(x), Fields(y));
      assert x == y <==> Fields(x)[0] == Fields(y)[0] && Fields(x)[1] == Fields(y)[1] && Fields(x)[2] == Fields(y)[2] && Fields(x)[3] == Fields(y)[3];
    }
    forall x, y, z | IdLess(x, y) && IdLess(y, z) ensures IdLess(x, z) {
      FieldsLessTransitive(Fields(x), Fields(y), Fields(z));
    }
  }

  function Deduplicate(ids: seq<Identifier>): (r: seq<Identifier>)
    ensures forall id :: id in r <==> id in ids
  {
    IdLessIsTotal();
    SortCompact(IdLess, ids)
  }

  /** Deduplication yields one fixed list per set of identifiers, whatever the order of insertion was. */
  lemma DeduplicateIsCanonical(ids: seq<Identifier>, ids': seq<Identifier>)
    requires forall id :: id in ids <==> id in ids'
    ensures Deduplicate(ids) == Deduplicate(ids')
    ensures Ascending(IdLess, Deduplicate(ids))
  {
    IdLessIsTotal();
    AscendingIsCanonical(IdLess, Deduplicate(ids), Deduplicate(ids'));
  }

  lemma {:induction false} SortCompactIsNoLonger(ids: seq<Identifier>)
    ensures |Deduplicate(ids)| <= |ids|
  {
    IdLessIsTotal();
    ShorterOrEqual(ids);
  }

  lemma {:induction false} ShorterOrEqual(ids: seq<Identifier>)
    requires TotalOrder(IdLess)
    ensures |SortCompact(IdLess, ids)| <= |ids|
  {
    hide IdLess, TotalOrder;
    if ids != [] {
      ShorterOrEqual(ids[1..]);
      InsertAddsOne(ids[0], SortCompact(IdLess, ids[1..]));
    }
  }

  lemma {:induction false} InsertAddsOne(x: Identifier, s: seq<Identifier>)
    requires TotalOrder(IdLess) && Ascending(IdLess, s)
    ensures |Insert(IdLess, x, s)| <= |s| + 1
  {
    hide IdLess, TotalOrder;
    if s != [] {
      InsertAddsOne(x, s[1..]);
    }
  }

  /**
    * What a node still sees of its children when one more identifier was appended to their array, which had room for it,
    * and the array was sorted and compacted in place: as many of the first entries as it had children.
    */
  function Overwritten(children: seq<Identifier>, id: Identifier): seq<Identifier> {
    var sorted := Deduplicate(children + [id]);
    if |sorted| <= |children| then sorted else sorted[..|children|]
  }

  /** The children as they were, or the identifier itself among them and at most one other child gone. */
  ghost predicate SeenAs(children: seq<Identifier>, seen: seq<Identifier>, id: Identifier) {
    || (forall c :: c in seen <==> c in children)
    || (id in seen && exists lost :: AtMostOne(children, id, lost) && SeenBut(children, seen, id, lost))
  }

  /** At most one child is lost, and only when the identifier is new among the children. */
  ghost predicate AtMostOne(children: seq<Identifier>, id: Identifier, lost: set<Identifier>) {
    |lost| <= 1 && id !in lost && (lost != {} ==> id !in children)
  }

  ghost predicate SeenBut(children: seq<Identifier>, seen: seq<Identifier>, id: Identifier, lost: set<Identifier>) {
    forall c :: c in seen <==> c == id || (c in children && c !in lost)
  }

  lemma OverwrittenIs(children: seq<Identifier>, id: Identifier)
    ensures SeenAs(children, Overwritten(children, id), id)
  {
    var sorted, seen := Deduplicate(children + [id]), Overwritten(children, id);
    SortCompactIsNoLonger(children + [id]);
    DeduplicateIsCanonical(children + [id], children + [id]);
    IdLessIsTotal();
    hide IdLess, Deduplicate;
    assert forall c :: c in children + [id] <==> c in children || c == id;
    if |sorted| <= |children| {
      assert AtMostOne(children, id, {}) && SeenBut(children, seen, id, {});
    } else {
      var top := sorted[|children|];
      assert sorted == seen + [top];
      OnlyOnce(children, id);
      PushedOut(children, seen, id, top);
    }
  }

  lemma PushedOut(children: seq<Identifier>, seen: seq<Identifier>, id: Identifier, top: Identifier)
    requires forall c :: c in seen + [top] <==> c in children || c == id
    requires top !in seen && id !in children
    ensures SeenAs(children, seen, id)
  {
    assert forall c :: c in seen + [top] <==> c in seen || c == top;
    if top != id {
      assert AtMostOne(children, id, {top}) && SeenBut(children, seen, id, {top});
    }
  }

  /** An identifier that is already listed does not make the list longer. */
  lemma OnlyOnce(children: seq<Identifier>, id: Identifier)
    requires |Deduplicate(children + [id])| > |children|
    ensures id !in children
  {
    if id in children {
      DeduplicateIsCanonical(children + [id], children);
      SortCompactIsNoLonger(children);
    }
  }

  /** Writing the identifier once more changes nothing that is seen. */
  lemma OverwrittenAgain(children: seq<Identifier>, seen: seq<Identifier>, id: Identifier)
    requires SeenAs(children, seen, id)
    ensures SeenAs(children, Overwritten(seen, id), id)
  {
    hide Overwritten, Deduplicate;
    OverwrittenIs(seen, id);
    if id in seen {
      OverwrittenKeeps(seen, id);
    }
    hide SeenBut;
    if lost :| AtMostOne(children, id, lost) && id in seen && SeenBut(children, seen, id, lost) {
      SameBut(children, seen, Overwritten(seen, id), id, lost);
    } else if lost :| AtMostOne(seen, id, lost) && id in Overwritten(seen, id) && SeenBut(seen, Overwritten(seen, id), id, lost) {
      ButSame(children, seen, Overwritten(seen, id), id, lost);
    }
  }

  lemma OverwrittenKeeps(seen: seq<Identifier>, id: Identifier)
    requires id in seen
    ensures forall c :: c in Overwritten(seen, id) <==> c in seen
  {
    if |Deduplicate(seen + [id])| > |seen| {
      OnlyOnce(seen, id);
    }
    hide Deduplicate;
    assert forall c :: c in seen + [id] <==> c in seen;
  }

  lemma SameBut(children: seq<Identifier>, seen: seq<Identifier>, again: seq<Identifier>, id: Identifier, lost: set<Identifier>)
    requires SeenBut(children, seen, id, lost) && forall c :: c in again <==> c in seen
    ensures SeenBut(children, again, id, lost)
  {
  }

  lemma ButSame(children: seq<Identifier>, seen: seq<Identifier>, again: seq<Identifier>, id: Identifier, lost: set<Identifier>)
    requires SeenBut(seen, again, id, lost) && forall c :: c in seen <==> c in children
    ensures SeenBut(children, again, id, lost) && (AtMostOne(seen, id, lost) ==> AtMostOne(children, id, lost))
  {
  }

  /** An identifier before all children pushes the last one out. */
  lemma LargestIsLost(id: Identifier, children: seq<Identifier>)
    requires children != [] && Ascending(IdLess, [id] + children)
    ensures Overwritten(children, id) == [id] + children[..|children| - 1]
  {
    var all := [id] + children;
    IdLessIsTotal();
    DeduplicateIsCanonical(children + [id], children + [id]);
    AscendingIsCanonical(IdLess, Deduplicate(children + [id]), all);
    assert all[..|children|] == [id] + children[..|children| - 1];
  }

  // ----- updates of a node list

  lemma AppendNode(nodes: seq<Node>, n: Node)
    ensures Ids(nodes + [n]) == Ids(nodes) + {n.id}
    ensures ChildEdges(nodes + [n]) == ChildEdges(nodes) + ChildLinks(n)
    ensures ParentEdges(nodes + [n]) == ParentEdges(nodes) + ParentLinks(n)
  {
    assert (nodes + [n])[..|nodes|] == nodes;
  }

  /** Overwriting a node with one that records at least its links adds just the new links. */
  lemma {:induction false} GrowNode(nodes: seq<Node>, i: nat, n: Node)
    requires i < |nodes| && n.id == nodes[i].id
    requires ChildLinks(nodes[i]) <= ChildLinks(n) && ParentLinks(nodes[i]) <= ParentLinks(n)
    ensures Ids(nodes[i := n]) == Ids(nodes)
    ensures ChildEdges(nodes[i := n]) == ChildEdges(nodes) + ChildLinks(n)
    ensures ParentEdges(nodes[i := n]) == ParentEdges(nodes) + ParentLinks(n)
  {
    var init, now := nodes[..|nodes| - 1], nodes[i := n];
    if i < |init| {
      assert now[..|now| - 1] == init[i := n];
      GrowNode(init, i, n);
    } else {
      assert now[..|now| - 1] == init;
    }
  }

  /** Overwriting the only node of an identifier replaces the links it records on the children's side. */
  lemma {:induction false} ReplaceNode(nodes: seq<Node>, i: nat, n: Node)
    requires i < |nodes| && n.id == nodes[i].id && ParentLinks(n) == ParentLinks(nodes[i])
    requires forall k :: 0 <= k < |nodes| && nodes[k].id == n.id ==> k == i
    ensures Ids(nodes[i := n]) == Ids(nodes) && ParentEdges(nodes[i := n]) == ParentEdges(nodes)
    ensures ChildEdges(nodes[i := n]) == ChildEdges(nodes) - ChildLinks(nodes[i]) + ChildLinks(n)
  {
    var init, now := nodes[..|nodes| - 1], nodes[i := n];
    if i < |init| {
      assert now[..|now| - 1] == init[i := n];
      ReplaceNode(init, i, n);
      assert now[|now| - 1] == nodes[|nodes| - 1];
      assert ChildLinks(nodes[|nodes| - 1]) !! ChildLinks(nodes[i]);
    } else {
      assert now[..|now| - 1] == init;
      OthersLinks(init, n.id);
      assert ChildEdges(init) !! ChildLinks(nodes[i]);
    }
  }

  lemma {:induction false} OthersLinks(nodes: seq<Node>, id: Identifier)
    requires forall k :: 0 <= k < |nodes| ==> nodes[k].id != id
    ensures forall e :: e in ChildEdges(nodes) ==> e.from != id
  {
    if nodes != [] {
      OthersLinks(nodes[..|nodes| - 1], id);
    }
  }

  lemma {:induction false} LinksRecorded(nodes: seq<Node>, i: nat)
    requires i < |nodes|
    ensures nodes[i].id in Ids(nodes)
    ensures ChildLinks(nodes[i]) <= ChildEdges(nodes) && ParentLinks(nodes[i]) <= ParentEdges(nodes)
  {
    var init := nodes[..|nodes| - 1];
    if i < |init| {
      LinksRecorded(init, i);
    }
  }

  /** `after` holds the nodes and links of `before` and those of `added`, and nothing else. */
  ghost predicate Grown(before: seq<Node>, added: seq<Node>, after: seq<Node>) {
    && Ids(after) == Ids(before) + Ids(added)
    && ChildEdges(after) == ChildEdges(before) + ChildEdges(added)
    && ParentEdges(after) == ParentEdges(before) + ParentEdges(added)
  }

  lemma GrownNothing(nodes: seq<Node>)
    ensures Grown(nodes, [], nodes)
  {
  }

  lemma GrownEdges(before: seq<Node>, added: seq<Node>, after: seq<Node>)
    requires Grown(before, added, after)
    ensures ChildEdges(after) == ChildEdges(before) + ChildEdges(added)
  {
  }

  lemma GrownTransitive(before: seq<Node>, added: seq<Node>, middle: seq<Node>, n: Node, after: seq<Node>)
    requires Grown(before, added, middle) && Grown(middle, [n], after)
    ensures Grown(before, added + [n], after)
  {
    AppendNode(added, n);
    AppendNode([], n);
    assert [] + [n] == [n];
  }

  /** `merged` has the identifier of `n` and, as sets, the links of `m` and `n`. */
  ghost predicate Merges(m: Node, n: Node, merged: Node) {
    && m.id == n.id == merged.id
    && (forall c :: c in merged.children <==> c in m.children || c in n.children)
    && (forall p :: p in merged.parents <==> p in m.parents || p in n.parents)
  }

  lemma MergeNode(nodes: seq<Node>, i: nat, n: Node, merged: Node)
    requires i < |nodes| && Merges(nodes[i], n, merged)
    ensures Grown(nodes, [n], nodes[i := merged]) && Ids(nodes[i := merged]) == Ids(nodes)
  {
    assert ChildLinks(merged) == ChildLinks(nodes[i]) + ChildLinks(n);
    assert ParentLinks(merged) == ParentLinks(nodes[i]) + ParentLinks(n);
    GrowNode(nodes, i, merged);
    LinksRecorded(nodes, i);
    AppendNode([], n);
    assert [] + [n] == [n];
  }

  lemma MergeFresh(nodes: seq<Node>, n: Node, merged: Node)
    requires Merges(Node(n.id, [], []), n, merged)
    ensures Grown(nodes, [n], nodes + [merged]) && Ids(nodes + [merged]) == Ids(nodes) + {n.id}
  {
    assert ChildLinks(merged) == ChildLinks(n) && ParentLinks(merged) == ParentLinks(n);
    AppendNode(nodes, merged);
    AppendNode([], n);
    assert [] + [n] == [n];
  }
}
