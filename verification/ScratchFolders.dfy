/** Clean-up of scratch folders: which folders belong to one, which dashboards expire, which folders are removed. */
module ScratchFolders {
  import opened Reachability

  /** A search hit: a dashboard or, with kind "dash-folder", a folder; `parent` is the folder that holds it. */
  datatype Board = Board(uid: string, kind: string, parent: string)
  {
    predicate IsFolder() { kind == "dash-folder" }
  }

  type Holding = Edge<string>

  function FolderEdges(folders: seq<Board>): set<Holding> {
    set f | f in folders && f.IsFolder() :: Edge(f.parent, f.uid)
  }

  /** `v` is `u` or lies below it. */
  ghost predicate Within(edges: set<Holding>, u: string, v: string) {
    u == v || Reaches(edges, u, v)
  }

  lemma WithinStep(edges: set<Holding>, u: string, v: string, w: string)
    requires Within(edges, u, v) && Edge(v, w) in edges
    ensures Reaches(edges, u, w)
  {
    ReachesByEdge(edges, v, w);
    if u != v {
      ReachesTrans(edges, u, v, w);
    }
  }

  /** A set that holds `u` and is closed under the edges holds everything below `u`. */
  lemma ClosedHolds(edges: set<Holding>, s: set<string>, u: string, v: string)
    requires u in s && (forall e :: e in edges && e.from in s ==> e.to in s)
    requires Within(edges, u, v)
    ensures v in s
  {
    if u != v {
      var p :| IsPathFromTo(edges, p, u, v) && |p| >= 2;
      var i := 0;
      while i < |p| - 1
        invariant 0 <= i < |p| && p[i] in s
      {
        assert Edge(p[i], p[i + 1]) in edges;
        i := i + 1;
      }
    }
  }

  /** Repeats passes over the folders until nothing is added: exactly the root and what lies below it. */
  method CollectScratchFolderUIDs(root: string, folders: seq<Board>) returns (uids: set<string>)
    ensures forall u :: u in uids <==> Within(FolderEdges(folders), root, u)
  {
    ghost var edges := FolderEdges(folders);
    ghost var all := {root} + set f | f in folders :: f.uid;
    uids := {root};
    var changed := true;
    while changed
      invariant root in uids && uids <= all
      invariant forall u :: u in uids ==> Within(edges, root, u)
      invariant !changed ==> forall e :: e in edges && e.from in uids ==> e.to in uids
      decreases |all| - |uids|, changed
    {
      changed := false;
      ghost var before := uids;
      for i := 0 to |folders|
        invariant before <= uids <= all && (changed ==> before != uids) && (!changed ==> before == uids)
        invariant forall u :: u in uids ==> Within(edges, root, u)
        invariant !changed ==> forall k :: 0 <= k < i && folders[k].IsFolder() && folders[k].parent in uids ==> folders[k].uid in uids
      {
        var f := folders[i];
        if !f.IsFolder() {
          continue;
        }
        if f.parent in uids && f.uid !in uids {
          assert Edge(f.parent, f.uid) in edges;
          WithinStep(edges, root, f.parent, f.uid);
          uids := uids + {f.uid};
          changed := true;
        }
      }
      Smaller(before, uids, all);
      forall e | !changed && e in edges && e.from in uids ensures e.to in uids {
        var f :| f in folders && f.IsFolder() && e == Edge(f.parent, f.uid);
        var k :| 0 <= k < |folders| && folders[k] == f;
      }
    }
    forall u | Within(edges, root, u) ensures u in uids {
      ClosedHolds(edges, uids, root, u);
    }
  }

  lemma Smaller(before: set<string>, after: set<string>, all: set<string>)
    requires before <= after <= all
    ensures |before| <= |after| <= |all| && (before != after ==> |before| < |after|)
  {
    assert after == before + (after - before) && all == after + (all - after);
  }

  // ----- the folder tree

  ghost predicate UniqueFolders(folders: seq<Board>) {
    forall i, j :: 0 <= i < j < |folders| && folders[i].IsFolder() && folders[j].IsFolder() ==> folders[i].uid != folders[j].uid
  }

  predicate IsChild(f: Board, root: string, uids: set<string>) {
    f.IsFolder() && f.uid in uids && f.uid != root
  }

  /** The edges along which folders are deleted: into every collected folder but the root. */
  function TreeEdges(root: string, folders: seq<Board>, uids: set<string>): set<Holding> {
    set f | f in folders && IsChild(f, root, uids) :: Edge(f.parent, f.uid)
  }

  /** Every folder has one parent, no folder is below itself, and the root is nobody's child. */
  ghost predicate IsTree(edges: set<Holding>, root: string) {
    && (forall e, e' :: e in edges && e' in edges && e.to == e'.to ==> e == e')
    && (forall e :: e in edges ==> e.to != root)
    && Acyclic(edges)
  }

  ghost predicate Collected(root: string, folders: seq<Board>, uids: set<string>) {
    forall u :: u in uids <==> Within(FolderEdges(folders), root, u)
  }

  lemma UniqueParent(root: string, folders: seq<Board>, e: Holding, e': Holding)
    requires UniqueFolders(folders) && e in FolderEdges(folders) && e' in FolderEdges(folders) && e.to == e'.to
    ensures e == e'
  {
    var f :| f in folders && f.IsFolder() && e == Edge(f.parent, f.uid);
    var f' :| f' in folders && f'.IsFolder() && e' == Edge(f'.parent, f'.uid);
    var i :| 0 <= i < |folders| && folders[i] == f;
    var j :| 0 <= j < |folders| && folders[j] == f';
  }

  /** With unique identifiers the collected folders form a tree below the root. */
  lemma CollectedIsTree(root: string, folders: seq<Board>, uids: set<string>)
    requires UniqueFolders(folders) && Collected(root, folders, uids)
    ensures IsTree(TreeEdges(root, folders, uids), root)
    ensures forall e :: e in TreeEdges(root, folders, uids) ==> e.from in uids && e.to in uids
    ensures forall u :: u in uids <==> Within(TreeEdges(root, folders, uids), root, u)
  {
    var all, tree := FolderEdges(folders), TreeEdges(root, folders, uids);
    assert tree <= all;
    forall e, e' | e in tree && e' in tree && e.to == e'.to ensures e == e' {
      UniqueParent(root, folders, e, e');
    }
    forall e | e in tree ensures e.from in uids {
      ParentCollected(root, folders, uids, e);
    }
    forall p | IsPath(tree, p) && |p| >= 2 ensures p[0] != p[|p| - 1] {
      if p[0] == p[|p| - 1] {
        NoCycle(root, folders, uids, p);
      }
    }
    forall u | u in uids ensures Within(tree, root, u) {
      BelowRootInTree(root, folders, uids, u);
    }
    forall u | Within(tree, root, u) ensures u in uids {
      ClosedHolds(tree, uids, root, u);
    }
  }

  lemma LastStep(edges: set<Holding>, u: string, v: string) returns (w: string)
    requires Reaches(edges, u, v)
    ensures Edge(w, v) in edges && Within(edges, u, w)
  {
    var p :| IsPathFromTo(edges, p, u, v) && |p| >= 2;
    w := p[|p| - 2];
    assert Edge(p[|p| - 2], p[|p| - 2 + 1]) in edges;
    if |p| > 2 {
      var q := p[..|p| - 1];
      assert IsPathFromTo(edges, q, u, w);
    }
  }

  lemma FirstStep(edges: set<Holding>, u: string, v: string) returns (w: string)
    requires Reaches(edges, u, v)
    ensures Edge(u, w) in edges && Within(edges, w, v)
  {
    var p :| IsPathFromTo(edges, p, u, v) && |p| >= 2;
    w := p[1];
    assert Edge(p[0], p[0 + 1]) in edges;
    if |p| > 2 {
      var q := p[1..];
      forall i | 0 <= i < |q| - 1 ensures Edge(q[i], q[i + 1]) in edges {
        assert Edge(p[i + 1], p[i + 1 + 1]) in edges;
      }
      assert IsPathFromTo(edges, q, w, v);
    }
  }

  lemma ParentCollected(root: string, folders: seq<Board>, uids: set<string>, e: Holding)
    requires UniqueFolders(folders) && Collected(root, folders, uids) && e in TreeEdges(root, folders, uids)
    ensures e.from in uids
  {
    var all := FolderEdges(folders);
    assert e in all && e.to in uids && e.to != root;
    var w := LastStep(all, root, e.to);
    UniqueParent(root, folders, e, Edge(w, e.to));
  }

  /** A cycle of the tree would hold all ancestors of its vertices, hence the root, which is nobody's child. */
  lemma NoCycle(root: string, folders: seq<Board>, uids: set<string>, p: seq<string>)
    requires UniqueFolders(folders) && Collected(root, folders, uids)
    requires IsPath(TreeEdges(root, folders, uids), p) && |p| >= 2
    ensures p[0] != p[|p| - 1]
  {
    var all, tree := FolderEdges(folders), TreeEdges(root, folders, uids);
    if p[0] == p[|p| - 1] {
      assert Edge(p[0], p[0 + 1]) in tree;
      ParentCollected(root, folders, uids, Edge(p[0], p[1]));
      forall e | e in all && e.to in p ensures e.from in p {
        var i :| 0 <= i < |p| && p[i] == e.to;
        var k := if i == 0 then |p| - 2 else i - 1;
        assert Edge(p[k], p[k + 1]) in tree;
        UniqueParent(root, folders, e, Edge(p[k], p[k + 1]));
      }
      forall v | v in p ensures v != root {
        var i :| 0 <= i < |p| && p[i] == v;
        var k := if i == 0 then |p| - 2 else i - 1;
        assert Edge(p[k], p[k + 1]) in tree;
      }
      RootInside(all, root, p[0], set v | v in p);
    }
  }

  /** A set closed under parents that holds something below the root holds the root. */
  lemma RootInside(edges: set<Holding>, root: string, v: string, s: set<string>)
    requires v in s && Within(edges, root, v)
    requires forall e :: e in edges && e.to in s ==> e.from in s
    ensures root in s
  {
    if root != v {
      var q :| IsPathFromTo(edges, q, root, v) && |q| >= 2;
      var i := |q| - 1;
      while i > 0
        invariant 0 <= i < |q| && q[i] in s
      {
        assert Edge(q[i - 1], q[i - 1 + 1]) in edges;
        i := i - 1;
      }
    }
  }

  lemma BelowRootInTree(root: string, folders: seq<Board>, uids: set<string>, u: string)
    requires UniqueFolders(folders) && Collected(root, folders, uids) && u in uids
    ensures Within(TreeEdges(root, folders, uids), root, u)
  {
    var all, tree := FolderEdges(folders), TreeEdges(root, folders, uids);
    if u != root {
      var q :| IsPathFromTo(all, q, root, u) && |q| >= 2;
      var i := 0;
      while i < |q| - 1
        invariant 0 <= i < |q| && Within(tree, root, q[i]) && Within(all, root, q[i])
      {
        var e := Edge(q[i], q[i + 1]);
        assert e in all;
        WithinStep(all, root, q[i], q[i + 1]);
        if q[i + 1] != root {
          var f :| f in folders && f.IsFolder() && e == Edge(f.parent, f.uid);
          assert f.uid in uids;
          assert e in tree;
          WithinStep(tree, root, q[i], q[i + 1]);
        }
        i := i + 1;
      }
    }
  }

  /** Folders above a common one lie above each other. */
  lemma {:induction false} AncestorsCompare(edges: set<Holding>, root: string, a: string, b: string, p: seq<string>)
    requires IsTree(edges, root) && IsPath(edges, p) && p[0] == a && Within(edges, b, p[|p| - 1])
    ensures Within(edges, a, b) || Within(edges, b, a)
    decreases |p|
  {
    var v := p[|p| - 1];
    if b == v {
      if |p| > 1 {
        assert IsPathFromTo(edges, p, a, b);
      }
    } else if |p| > 1 {
      var w := LastStep(edges, b, v);
      assert Edge(p[|p| - 2], p[|p| - 2 + 1]) in edges;
      assert w == p[|p| - 2];
      AncestorsCompare(edges, root, a, b, p[..|p| - 1]);
    }
  }

  lemma SiblingsDisjoint(edges: set<Holding>, root: string, u: string, a: string, b: string, v: string)
    requires IsTree(edges, root) && Edge(u, a) in edges && Edge(u, b) in edges && a != b
    requires Within(edges, a, v)
    ensures !Within(edges, b, v)
  {
    if Within(edges, b, v) {
      var p := [a];
      if a != v {
        p :| IsPathFromTo(edges, p, a, v) && |p| >= 2;
      }
      AncestorsCompare(edges, root, a, b, p);
      if Within(edges, a, b) {
        NotAboveSibling(edges, root, u, a, b);
      } else {
        NotAboveSibling(edges, root, u, b, a);
      }
    }
  }

  lemma NotAboveSibling(edges: set<Holding>, root: string, u: string, a: string, b: string)
    requires IsTree(edges, root) && Edge(u, a) in edges && Edge(u, b) in edges && a != b
    ensures !Within(edges, a, b)
  {
    if Reaches(edges, a, b) {
      var w := LastStep(edges, a, b);
      assert Edge(w, b) == Edge(u, b);
      ChildNotAbove(edges, root, u, a);
    }
  }

  lemma ChildNotAbove(edges: set<Holding>, root: string, u: string, a: string)
    requires IsTree(edges, root) && Edge(u, a) in edges
    ensures !Within(edges, a, u)
  {
    AcyclicMeansIrreflexive(edges);
    if Within(edges, a, u) {
      WithinStep(edges, a, u, a);
    }
  }

  // ----- expiry and deletion

  datatype Dashboard = Dashboard(uid: string, folder: string)

  /** The Grafana instance: which calls succeed, and what has been deleted so far. */
  class Grafana {
    /** The creation times of the dashboards whose metadata can be read. */
    const created: map<string, int>
    const lockedDashboards: set<string>
    const lockedFolders: set<string>
    var deletedDashboards: set<string>
    var deletedFolders: seq<string>

    constructor (created: map<string, int>, lockedDashboards: set<string>, lockedFolders: set<string>)
      ensures this.created == created && this.lockedDashboards == lockedDashboards && this.lockedFolders == lockedFolders
      ensures deletedDashboards == {} && deletedFolders == []
    {
      this.created, this.lockedDashboards, this.lockedFolders := created, lockedDashboards, lockedFolders;
      deletedDashboards, deletedFolders := {}, [];
    }

    method DeleteDashboard(uid: string) returns (ok: bool)
      modifies `deletedDashboards
      ensures ok <==> uid !in lockedDashboards
      ensures deletedDashboards == old(deletedDashboards) + if ok then {uid} else {}
    {
      ok := uid !in lockedDashboards;
      if ok {
        deletedDashboards := deletedDashboards + {uid};
      }
    }

    method DeleteFolder(uid: string) returns (ok: bool)
      modifies `deletedFolders
      ensures ok <==> uid !in lockedFolders
      ensures deletedFolders == old(deletedFolders) + if ok then [uid] else []
    {
      ok := uid !in lockedFolders;
      if ok {
        deletedFolders := deletedFolders + [uid];
      }
    }
  }

  /** A dashboard of the collected folders that is old enough and can be deleted, or would be in a dry run. */
  predicate Expires(d: Dashboard, uids: set<string>, created: map<string, int>, cutoff: int, locked: set<string>, dryRun: bool) {
    d.folder in uids && d.uid in created && created[d.uid] < cutoff && (dryRun || d.uid !in locked)
  }

  method ExpireDashboards(g: Grafana, dashboards: seq<Dashboard>, uids: set<string>, cutoff: int, dryRun: bool)
    returns (expired: set<string>)
    modifies g`deletedDashboards
    ensures expired == set d | d in dashboards && Expires(d, uids, g.created, cutoff, g.lockedDashboards, dryRun) :: d.uid
    ensures g.deletedDashboards == old(g.deletedDashboards) + if dryRun then {} else expired
  {
    expired := {};
    for i := 0 to |dashboards|
      invariant expired == set d | d in dashboards[..i] && Expires(d, uids, g.created, cutoff, g.lockedDashboards, dryRun) :: d.uid
      invariant g.deletedDashboards == old(g.deletedDashboards) + if dryRun then {} else expired
    {
      var d := dashboards[i];
      assert dashboards[..i + 1] == dashboards[..i] + [d];
      if d.folder !in uids {
        continue;
      }
      if d.uid !in g.created {
        continue;
      }
      if g.created[d.uid] >= cutoff {
        continue;
      }
      if dryRun {
        expired := expired + {d.uid};
      } else {
        var ok := g.DeleteDashboard(d.uid);
        if ok {
          expired := expired + {d.uid};
        }
      }
    }
    assert dashboards[..|dashboards|] == dashboards;
  }

  function KidsOf(children: map<string, seq<Board>>, u: string): seq<Board> {
    if u in children then children[u] else []
  }

  /** The collected folders other than the root that name `u` as their parent, in listing order. */
  function ChildrenOf(folders: seq<Board>, root: string, uids: set<string>, u: string): seq<Board> {
    if folders == [] then []
    else
      var n := |folders| - 1;
      ChildrenOf(folders[..n], root, uids, u) + if IsChild(folders[n], root, uids) && folders[n].parent == u then [folders[n]] else []
  }

  ghost predicate ChildTable(children: map<string, seq<Board>>, root: string, folders: seq<Board>, uids: set<string>) {
    forall u :: KidsOf(children, u) == ChildrenOf(folders, root, uids, u)
  }

  lemma NoChildren(root: string, uids: set<string>)
    ensures ChildTable(map[], root, [], uids)
  {
  }

  lemma TableGrows(children: map<string, seq<Board>>, root: string, folders: seq<Board>, uids: set<string>, f: Board)
    requires ChildTable(children, root, folders, uids)
    ensures !IsChild(f, root, uids) ==> ChildTable(children, root, folders + [f], uids)
    ensures IsChild(f, root, uids) ==> ChildTable(children[f.parent := KidsOf(children, f.parent) + [f]], root, folders + [f], uids)
  {
    assert (folders + [f])[..|folders|] == folders;
    forall u ensures ChildrenOf(folders + [f], root, uids, u) ==
      ChildrenOf(folders, root, uids, u) + if IsChild(f, root, uids) && f.parent == u then [f] else []
    {
    }
  }

  method BuildChildren(root: string, folders: seq<Board>, uids: set<string>) returns (children: map<string, seq<Board>>)
    ensures ChildTable(children, root, folders, uids)
  {
    hide ChildTable;
    children := map[];
    NoChildren(root, uids);
    for i := 0 to |folders|
      invariant ChildTable(children, root, folders[..i], uids)
    {
      var f := folders[i];
      assert folders[..i + 1] == folders[..i] + [f];
      TableGrows(children, root, folders[..i], uids, f);
      if !f.IsFolder() || f.uid !in uids || f.uid == root {
        continue;
      }
      children := children[f.parent := KidsOf(children, f.parent) + [f]];
    }
    assert folders[..|folders|] == folders;
  }

  lemma {:induction false} ChildrenAre(folders: seq<Board>, root: string, uids: set<string>, u: string)
    ensures forall f :: f in ChildrenOf(folders, root, uids, u) <==> f in folders && IsChild(f, root, uids) && f.parent == u
  {
    if folders != [] {
      var n := |folders| - 1;
      assert folders == folders[..n] + [folders[n]];
      ChildrenAre(folders[..n], root, uids, u);
    }
  }

  lemma {:induction false} ChildrenDiffer(folders: seq<Board>, root: string, uids: set<string>, u: string)
    requires UniqueFolders(folders)
    ensures DistinctUids(ChildrenOf(folders, root, uids, u))
  {
    if folders != [] {
      var n := |folders| - 1;
      var init, last := folders[..n], folders[n];
      ChildrenDiffer(init, root, uids, u);
      ChildrenAre(init, root, uids, u);
      if IsChild(last, root, uids) && last.parent == u {
        forall f | f in ChildrenOf(init, root, uids, u) ensures f.uid != last.uid {
          var m :| 0 <= m < n && folders[m] == f;
        }
        DistinctGrow(ChildrenOf(init, root, uids, u), last);
      }
    }
  }

  ghost predicate DistinctUids(kids: seq<Board>) {
    forall i, j :: 0 <= i < j < |kids| ==> kids[i].uid != kids[j].uid
  }

  lemma DistinctBefore(kids: seq<Board>, i: nat)
    requires DistinctUids(kids) && i < |kids|
    ensures forall k :: 0 <= k < i ==> kids[k].uid != kids[i].uid
  {
  }

  lemma DistinctGrow(kids: seq<Board>, f: Board)
    requires DistinctUids(kids) && forall k :: k in kids ==> k.uid != f.uid
    ensures DistinctUids(kids + [f])
  {
  }

  // ----- where the descent over the table ends

  /** The descent from `u`, which visits every child of every folder it visits, is nested no deeper than `depth`. */
  ghost predicate EndsIn(children: map<string, seq<Board>>, u: string, depth: nat)
    decreases depth
  {
    depth > 0 && forall f :: f in KidsOf(children, u) ==> EndsIn(children, f.uid, depth - 1)
  }

  /** The descent from `u` ends. */
  ghost predicate Ends(children: map<string, seq<Board>>, u: string) {
    exists depth: nat :: EndsIn(children, u, depth)
  }

  /** The edges the descent follows. */
  function TableEdges(children: map<string, seq<Board>>): set<Holding> {
    set u, f | u in children && f in children[u] :: Edge(u, f.uid)
  }

  /** A folder in or below `u` lies below itself. */
  ghost predicate CycleBelow(edges: set<Holding>, u: string) {
    exists w :: Within(edges, u, w) && Reaches(edges, w, w)
  }

  lemma {:induction false} DeeperEnds(children: map<string, seq<Board>>, u: string, depth: nat, more: nat)
    requires EndsIn(children, u, depth) && depth <= more
    ensures EndsIn(children, u, more)
    decreases depth
  {
    forall f | f in KidsOf(children, u) ensures EndsIn(children, f.uid, more - 1) {
      DeeperEnds(children, f.uid, depth - 1, more - 1);
    }
  }

  lemma {:induction false} CycleIsEndless(children: map<string, seq<Board>>, u: string, w: string, depth: nat)
    requires Within(TableEdges(children), u, w) && Reaches(TableEdges(children), w, w)
    ensures !EndsIn(children, u, depth)
    decreases depth
  {
    hide Reaches;
    if EndsIn(children, u, depth) {
      var c := FirstStep(TableEdges(children), u, w);
      var f :| f in KidsOf(children, u) && f.uid == c;
      CycleIsEndless(children, c, w, depth - 1);
    }
  }

  ghost function Below(edges: set<Holding>, u: string): set<string> {
    {u} + set e | e in edges && Within(edges, u, e.to) :: e.to
  }

  lemma BelowIs(edges: set<Holding>, u: string)
    ensures forall v :: v in Below(edges, u) <==> Within(edges, u, v)
  {
    forall v | Within(edges, u, v) ensures v in Below(edges, u) {
      if v != u {
        var w := LastStep(edges, u, v);
      }
    }
  }

  lemma {:induction false} NoCycleEnds(children: map<string, seq<Board>>, u: string)
    requires !CycleBelow(TableEdges(children), u)
    ensures EndsIn(children, u, |Below(TableEdges(children), u)|)
    decreases |Below(TableEdges(children), u)|
  {
    hide Reaches, Below, EndsIn;
    var edges := TableEdges(children);
    BelowIs(edges, u);
    forall f | f in KidsOf(children, u) ensures |Below(edges, u)| > 0 && EndsIn(children, f.uid, |Below(edges, u)| - 1) {
      assert Edge(u, f.uid) in edges;
      FewerBelow(edges, u, f.uid);
      NoCycleEnds(children, f.uid);
      DeeperEnds(children, f.uid, |Below(edges, f.uid)|, |Below(edges, u)| - 1);
    }
    assert u in Below(edges, u);
    AllChildrenEnd(children, u, |Below(edges, u)|);
  }

  lemma AllChildrenEnd(children: map<string, seq<Board>>, u: string, depth: nat)
    requires forall f :: f in KidsOf(children, u) ==> depth > 0 && EndsIn(children, f.uid, depth - 1)
    requires depth > 0
    ensures EndsIn(children, u, depth)
  {
  }

  lemma FewerBelow(edges: set<Holding>, u: string, c: string)
    requires Edge(u, c) in edges && !CycleBelow(edges, u)
    ensures !CycleBelow(edges, c) && |Below(edges, c)| < |Below(edges, u)|
  {
    hide Reaches, Below;
    ReachesByEdge(edges, u, c);
    BelowIs(edges, u);
    BelowIs(edges, c);
    forall v | Within(edges, c, v) ensures Within(edges, u, v) {
      WithinTrans(edges, u, c, v);
    }
    if Within(edges, c, u) {
      WithinStep(edges, c, u, c);
    }
    assert u in Below(edges, u) && u !in Below(edges, c);
    Smaller(Below(edges, c), Below(edges, u), Below(edges, u));
  }

  /** The descent ends exactly when no folder in or below its start lies below itself. */
  lemma DescentEnds(children: map<string, seq<Board>>, u: string)
    ensures Ends(children, u) <==> !CycleBelow(TableEdges(children), u)
  {
    hide EndsIn, Within, Reaches;
    if CycleBelow(TableEdges(children), u) {
      var w :| Within(TableEdges(children), u, w) && Reaches(TableEdges(children), w, w);
      forall depth: nat ensures !EndsIn(children, u, depth) {
        CycleIsEndless(children, u, w, depth);
      }
    } else {
      NoCycleEnds(children, u);
    }
  }

  lemma TableEdgesAre(children: map<string, seq<Board>>, root: string, folders: seq<Board>, uids: set<string>)
    requires ChildTable(children, root, folders, uids)
    ensures TableEdges(children) == TreeEdges(root, folders, uids)
  {
    var table, tree := TableEdges(children), TreeEdges(root, folders, uids);
    forall e ensures e in table <==> e in tree {
      ChildrenAre(folders, root, uids, e.from);
      assert KidsOf(children, e.from) == ChildrenOf(folders, root, uids, e.from);
      if e in tree {
        var f :| f in folders && IsChild(f, root, uids) && e == Edge(f.parent, f.uid);
        assert f in KidsOf(children, e.from);
      }
    }
  }

  /** With unique identifiers every descent ends. */
  lemma UniqueFoldersEnd(children: map<string, seq<Board>>, root: string, folders: seq<Board>, uids: set<string>, u: string)
    requires UniqueFolders(folders) && Collected(root, folders, uids) && ChildTable(children, root, folders, uids)
    ensures Ends(children, u)
  {
    hide Reaches, ChildTable, UniqueFolders, Ends;
    TableEdgesAre(children, root, folders, uids);
    CollectedIsTree(root, folders, uids);
    AcyclicMeansIrreflexive(TreeEdges(root, folders, uids));
    DescentEnds(children, u);
  }

  /** A listed dashboard of the folder that has not been deleted. */
  predicate Survives(d: Dashboard, folder: string, uids: set<string>, expired: set<string>) {
    d.folder == folder && folder in uids && d.uid !in expired
  }

  ghost predicate Counts(counts: map<string, nat>, dashboards: seq<Dashboard>, uids: set<string>, expired: set<string>) {
    forall u :: (u in counts && counts[u] > 0) <==> exists d :: d in dashboards && Survives(d, u, uids, expired)
  }

  method CountSurvivors(dashboards: seq<Dashboard>, uids: set<string>, expired: set<string>) returns (counts: map<string, nat>)
    ensures Counts(counts, dashboards, uids, expired)
  {
    counts := map[];
    for i := 0 to |dashboards|
      invariant Counts(counts, dashboards[..i], uids, expired)
    {
      var d := dashboards[i];
      assert dashboards[..i + 1] == dashboards[..i] + [d];
      ghost var before := counts;
      if d.folder in uids && d.uid !in expired {
        counts := counts[d.folder := (if d.folder in counts then counts[d.folder] else 0) + 1];
      }
      forall u
        ensures (u in counts && counts[u] > 0) <==> exists d :: d in dashboards[..i + 1] && Survives(d, u, uids, expired)
      {
        if x :| x in dashboards[..i] && Survives(x, u, uids, expired) {
          assert x in dashboards[..i + 1];
        }
        if u == d.folder && d.folder in uids && d.uid !in expired {
          assert Survives(d, u, uids, expired) && d in dashboards[..i + 1];
        }
      }
    }
    assert dashboards[..|dashboards|] == dashboards;
  }

  /** Why a folder stays: a surviving dashboard, or a failing deletion. */
  predicate Stays(u: string, counts: map<string, nat>, locked: set<string>, dryRun: bool) {
    (u in counts && counts[u] > 0) || (!dryRun && u in locked)
  }

  /** Nothing in or below the folder makes it stay. */
  ghost predicate Clean(edges: set<Holding>, u: string, counts: map<string, nat>, locked: set<string>, dryRun: bool) {
    forall v :: Within(edges, u, v) ==> !Stays(v, counts, locked, dryRun)
  }

  /** Folders are listed once each, and never before a folder below them. */
  ghost predicate LeafFirst(edges: set<Holding>, log: seq<string>) {
    && (forall i, j :: 0 <= i < j < |log| ==> log[i] != log[j])
    && (forall i, j :: 0 <= i < j < |log| ==> !Reaches(edges, log[i], log[j]))
  }

  lemma CleanIs(edges: set<Holding>, u: string, counts: map<string, nat>, locked: set<string>, dryRun: bool)
    ensures Clean(edges, u, counts, locked, dryRun) <==>
      !Stays(u, counts, locked, dryRun) && forall c :: Edge(u, c) in edges ==> Clean(edges, c, counts, locked, dryRun)
  {
    if Clean(edges, u, counts, locked, dryRun) {
      forall c, v | Edge(u, c) in edges && Within(edges, c, v) ensures !Stays(v, counts, locked, dryRun) {
        ReachesByEdge(edges, u, c);
        if c != v {
          ReachesTrans(edges, u, c, v);
        }
      }
    } else {
      var v :| Within(edges, u, v) && Stays(v, counts, locked, dryRun);
      if u != v {
        var c := FirstStep(edges, u, v);
        assert !Clean(edges, c, counts, locked, dryRun);
      }
    }
  }

  /** What deleting below the first folders of a list of siblings has removed, in order. */
  ghost predicate SiblingsDone(edges: set<Holding>, uids: set<string>, kids: seq<Board>, counts: map<string, nat>,
                               locked: set<string>, dryRun: bool, removed: seq<string>) {
    && LeafFirst(edges, removed)
    && forall v :: v in removed <==>
         v in uids && Clean(edges, v, counts, locked, dryRun) && exists k :: 0 <= k < |kids| && Within(edges, kids[k].uid, v)
  }

  /** What deleting in and below one folder has removed. */
  ghost predicate FolderDone(edges: set<Holding>, uids: set<string>, u: string, counts: map<string, nat>,
                             locked: set<string>, dryRun: bool, removed: seq<string>) {
    && LeafFirst(edges, removed)
    && forall v :: v in removed <==> v in uids && Clean(edges, v, counts, locked, dryRun) && Within(edges, u, v)
  }

  lemma LeafFirstConcat(edges: set<Holding>, a: seq<string>, b: seq<string>)
    requires LeafFirst(edges, a) && LeafFirst(edges, b)
    requires forall x, y :: x in a && y in b ==> x != y && !Reaches(edges, x, y)
    ensures LeafFirst(edges, a + b)
  {
    hide Reaches;
    var all := a + b;
    forall i, j | 0 <= i < j < |all| ensures all[i] != all[j] && !Reaches(edges, all[i], all[j]) {
      if i < |a| <= j {
        assert a[i] in a && b[j - |a|] in b;
      } else if |a| <= i {
        assert b[i - |a|] == all[i] && b[j - |a|] == all[j];
      } else {
        assert a[i] == all[i] && a[j] == all[j];
      }
    }
  }

  lemma NextSibling(edges: set<Holding>, root: string, uids: set<string>, parent: string, kids: seq<Board>, f: Board,
                    counts: map<string, nat>, locked: set<string>, dryRun: bool, removed: seq<string>, more: seq<string>)
    requires IsTree(edges, root) && Edge(parent, f.uid) in edges
    requires forall k :: 0 <= k < |kids| ==> Edge(parent, kids[k].uid) in edges && kids[k].uid != f.uid
    requires SiblingsDone(edges, uids, kids, counts, locked, dryRun, removed)
    requires FolderDone(edges, uids, f.uid, counts, locked, dryRun, more)
    ensures SiblingsDone(edges, uids, kids + [f], counts, locked, dryRun, removed + more)
  {
    hide IsTree, Clean, LeafFirst;
    forall x, y | x in removed && y in more ensures x != y && !Reaches(edges, x, y) {
      var k :| 0 <= k < |kids| && Within(edges, kids[k].uid, x);
      if x == y || Reaches(edges, x, y) {
        WithinTrans(edges, kids[k].uid, x, y);
        SiblingsDisjoint(edges, root, parent, kids[k].uid, f.uid, y);
      }
    }
    LeafFirstConcat(edges, removed, more);
    var all := kids + [f];
    forall v ensures (exists k :: 0 <= k < |all| && Within(edges, all[k].uid, v)) <==>
      (exists k :: 0 <= k < |kids| && Within(edges, kids[k].uid, v)) || Within(edges, f.uid, v)
    {
      if k :| 0 <= k < |kids| && Within(edges, kids[k].uid, v) {
        assert all[k] == kids[k];
      }
      if Within(edges, f.uid, v) {
        assert all[|kids|] == f;
      }
    }
  }

  lemma WithinTrans(edges: set<Holding>, u: string, v: string, w: string)
    requires Within(edges, u, v) && Within(edges, v, w)
    ensures Within(edges, u, w)
  {
    if u != v && v != w {
      ReachesTrans(edges, u, v, w);
    }
  }

  /** The folders in and below the children of a folder are those strictly below it. */
  lemma ChildrenCover(edges: set<Holding>, u: string, kids: seq<Board>, v: string)
    requires forall k :: 0 <= k < |kids| ==> Edge(u, kids[k].uid) in edges
    requires forall c :: Edge(u, c) in edges ==> exists k :: 0 <= k < |kids| && kids[k].uid == c
    ensures (exists k :: 0 <= k < |kids| && Within(edges, kids[k].uid, v)) <==> Reaches(edges, u, v)
  {
    hide Reaches;
    if k :| 0 <= k < |kids| && Within(edges, kids[k].uid, v) {
      ReachesByEdge(edges, u, kids[k].uid);
      if kids[k].uid != v {
        ReachesTrans(edges, u, kids[k].uid, v);
      }
    }
    if Reaches(edges, u, v) {
      var c := FirstStep(edges, u, v);
      var k :| 0 <= k < |kids| && kids[k].uid == c;
    }
  }

  lemma RemovedBelow(edges: set<Holding>, uids: set<string>, u: string, kids: seq<Board>, counts: map<string, nat>,
                     locked: set<string>, dryRun: bool, removed: seq<string>)
    requires forall k :: 0 <= k < |kids| ==> Edge(u, kids[k].uid) in edges
    requires forall c :: Edge(u, c) in edges ==> exists k :: 0 <= k < |kids| && kids[k].uid == c
    requires SiblingsDone(edges, uids, kids, counts, locked, dryRun, removed)
    ensures LeafFirst(edges, removed)
    ensures forall v :: v in removed <==> v in uids && Clean(edges, v, counts, locked, dryRun) && Reaches(edges, u, v)
  {
    hide Reaches, Within, LeafFirst, Clean;
    forall v ensures v in removed <==> v in uids && Clean(edges, v, counts, locked, dryRun) && Reaches(edges, u, v) {
      ChildrenCover(edges, u, kids, v);
    }
  }

  lemma FolderDoneIs(edges: set<Holding>, uids: set<string>, u: string, counts: map<string, nat>, locked: set<string>,
                     dryRun: bool, removed: seq<string>, own: seq<string>)
    requires u in uids && own == (if Clean(edges, u, counts, locked, dryRun) then [u] else [])
    requires LeafFirst(edges, removed + own)
    requires forall v :: v in removed <==> v in uids && Clean(edges, v, counts, locked, dryRun) && Reaches(edges, u, v)
    ensures FolderDone(edges, uids, u, counts, locked, dryRun, removed + own)
  {
    hide Reaches, LeafFirst, Clean;
  }

  /** All children of a folder are done; the folder itself is removed when it is clean. */
  lemma FolderComplete(edges: set<Holding>, root: string, uids: set<string>, u: string, kids: seq<Board>,
                       counts: map<string, nat>, locked: set<string>, dryRun: bool, removed: seq<string>)
    requires IsTree(edges, root) && u in uids
    requires forall k :: 0 <= k < |kids| ==> Edge(u, kids[k].uid) in edges
    requires forall c :: Edge(u, c) in edges ==> exists k :: 0 <= k < |kids| && kids[k].uid == c
    requires SiblingsDone(edges, uids, kids, counts, locked, dryRun, removed)
    ensures FolderDone(edges, uids, u, counts, locked, dryRun,
                       removed + if Clean(edges, u, counts, locked, dryRun) then [u] else [])
  {
    hide *;
    var own := if Clean(edges, u, counts, locked, dryRun) then [u] else [];
    RemovedBelow(edges, uids, u, kids, counts, locked, dryRun, removed);
    forall x, y | x in removed && y in own ensures x != y && !Reaches(edges, x, y) {
      NotBelowItself(edges, root, u, x);
    }
    SingleLeafFirst(edges, own);
    LeafFirstConcat(edges, removed, own);
    FolderDoneIs(edges, uids, u, counts, locked, dryRun, removed, own);
  }

  lemma SingleLeafFirst(edges: set<Holding>, own: seq<string>)
    requires |own| <= 1
    ensures LeafFirst(edges, own)
  {
  }

  lemma NotBelowItself(edges: set<Holding>, root: string, u: string, x: string)
    requires IsTree(edges, root) && Reaches(edges, u, x)
    ensures x != u && !Reaches(edges, x, u)
  {
    AcyclicMeansIrreflexive(edges);
    if Reaches(edges, x, u) {
      ReachesTrans(edges, u, x, u);
    }
  }

  lemma NothingDone(edges: set<Holding>, uids: set<string>, counts: map<string, nat>, locked: set<string>, dryRun: bool)
    ensures SiblingsDone(edges, uids, [], counts, locked, dryRun, [])
  {
  }

  lemma KidsAre(children: map<string, seq<Board>>, root: string, folders: seq<Board>, uids: set<string>, u: string)
    requires ChildTable(children, root, folders, uids) && UniqueFolders(folders)
    ensures var edges, kids := TreeEdges(root, folders, uids), KidsOf(children, u);
            && (forall k :: 0 <= k < |kids| ==> Edge(u, kids[k].uid) in edges && kids[k].uid in uids)
            && (forall c :: Edge(u, c) in edges ==> exists k :: 0 <= k < |kids| && kids[k].uid == c)
            && DistinctUids(kids)
  {
    hide UniqueFolders;
    ChildrenAre(folders, root, uids, u);
    ChildrenDiffer(folders, root, uids, u);
    assert KidsOf(children, u) == ChildrenOf(folders, root, uids, u);
    var edges, kids := TreeEdges(root, folders, uids), KidsOf(children, u);
    forall k | 0 <= k < |kids| ensures Edge(u, kids[k].uid) in edges && kids[k].uid in uids {
      assert kids[k] in kids;
    }
    forall c | Edge(u, c) in edges ensures exists k :: 0 <= k < |kids| && kids[k].uid == c {
      var f :| f in folders && IsChild(f, root, uids) && Edge(f.parent, f.uid) == Edge(u, c);
      var k :| 0 <= k < |kids| && kids[k] == f;
    }
  }

  lemma ChildEnds(children: map<string, seq<Board>>, u: string, f: Board, depth: nat)
    requires EndsIn(children, u, depth) && f in KidsOf(children, u)
    ensures depth > 0 && EndsIn(children, f.uid, depth - 1)
  {
  }

  lemma DepthOf(children: map<string, seq<Board>>, u: string) returns (depth: nat)
    requires Ends(children, u)
    ensures EndsIn(children, u, depth)
  {
    depth :| EndsIn(children, u, depth);
  }

  /** Deletes clean folders in and below `uid`, leaves first; says whether the folder itself is gone. */
  method DeleteEmptyRecursive(g: Grafana, uid: string, children: map<string, seq<Board>>, counts: map<string, nat>, dryRun: bool,
                              ghost root: string, ghost folders: seq<Board>, ghost uids: set<string>, ghost depth: nat)
    returns (deleted: bool, ghost removed: seq<string>)
    requires ChildTable(children, root, folders, uids) && UniqueFolders(folders)
    requires IsTree(TreeEdges(root, folders, uids), root) && uid in uids && EndsIn(children, uid, depth)
    modifies g`deletedFolders
    ensures deleted <==> Clean(TreeEdges(root, folders, uids), uid, counts, g.lockedFolders, dryRun)
    ensures FolderDone(TreeEdges(root, folders, uids), uids, uid, counts, g.lockedFolders, dryRun, removed)
    ensures g.deletedFolders == old(g.deletedFolders) + if dryRun then [] else removed
    decreases depth
  {
    hide *;
    ghost var edges := TreeEdges(root, folders, uids);
    var kids := KidsOf(children, uid);
    KidsAre(children, root, folders, uids, uid);
    var hasChildren := false;
    removed := [];
    NothingDone(edges, uids, counts, g.lockedFolders, dryRun);
    for i := 0 to |kids|
      invariant hasChildren <==> exists k :: 0 <= k < i && !Clean(edges, kids[k].uid, counts, g.lockedFolders, dryRun)
      invariant SiblingsDone(edges, uids, kids[..i], counts, g.lockedFolders, dryRun, removed)
      invariant g.deletedFolders == old(g.deletedFolders) + if dryRun then [] else removed
    {
      ChildEnds(children, uid, kids[i], depth);
      var gone;
      ghost var more;
      gone, more := DeleteEmptyRecursive(g, kids[i].uid, children, counts, dryRun, root, folders, uids, depth - 1);
      if !gone {
        hasChildren := true;
      }
      DistinctBefore(kids, i);
      NextSibling(edges, root, uids, uid, kids[..i], kids[i], counts, g.lockedFolders, dryRun, removed, more);
      assert kids[..i + 1] == kids[..i] + [kids[i]];
      removed := removed + more;
    }
    assert kids[..|kids|] == kids;
    FolderComplete(edges, root, uids, uid, kids, counts, g.lockedFolders, dryRun, removed);
    CleanIs(edges, uid, counts, g.lockedFolders, dryRun);
    StaysIs(uid, counts, g.lockedFolders, dryRun);
    assert removed + [] == removed;
    if hasChildren || (uid in counts && counts[uid] > 0) {
      return false, removed;
    }
    if dryRun {
      removed := removed + [uid];
      return true, removed;
    }
    deleted := g.DeleteFolder(uid);
    if deleted {
      removed := removed + [uid];
    }
  }

  lemma StaysIs(u: string, counts: map<string, nat>, locked: set<string>, dryRun: bool)
    ensures Stays(u, counts, locked, dryRun) <==> (u in counts && counts[u] > 0) || (!dryRun && u in locked)
  {
  }

  /** The folders removed from below the root: the clean ones, leaves first. */
  ghost predicate CleanedUp(root: string, folders: seq<Board>, uids: set<string>, counts: map<string, nat>,
                            locked: set<string>, dryRun: bool, removed: seq<string>) {
    var edges := TreeEdges(root, folders, uids);
    && LeafFirst(edges, removed)
    && forall v :: v in removed <==> v in uids && v != root && Clean(edges, v, counts, locked, dryRun)
  }

  lemma RootsChildrenDone(root: string, folders: seq<Board>, uids: set<string>, kids: seq<Board>,
                          counts: map<string, nat>, locked: set<string>, dryRun: bool, removed: seq<string>)
    requires UniqueFolders(folders) && Collected(root, folders, uids)
    requires var edges := TreeEdges(root, folders, uids);
             && SiblingsDone(edges, uids, kids, counts, locked, dryRun, removed)
             && (forall k :: 0 <= k < |kids| ==> Edge(root, kids[k].uid) in edges)
             && (forall c :: Edge(root, c) in edges ==> exists k :: 0 <= k < |kids| && kids[k].uid == c)
    ensures CleanedUp(root, folders, uids, counts, locked, dryRun, removed)
  {
    hide Clean, LeafFirst, Collected, UniqueFolders;
    var edges := TreeEdges(root, folders, uids);
    CollectedIsTree(root, folders, uids);
    forall v | v in uids ensures v != root <==> exists k :: 0 <= k < |kids| && Within(edges, kids[k].uid, v) {
      if v != root {
        var c := FirstStep(edges, root, v);
        var k :| 0 <= k < |kids| && kids[k].uid == c;
      }
      if k :| 0 <= k < |kids| && Within(edges, kids[k].uid, v) {
        ChildNotAbove(edges, root, root, kids[k].uid);
      }
    }
  }

  method DeleteEmptySubfolders(g: Grafana, root: string, dashboards: seq<Dashboard>, folders: seq<Board>,
                               uids: set<string>, expired: set<string>, dryRun: bool)
    returns (ghost removed: seq<string>, ghost counts: map<string, nat>)
    requires UniqueFolders(folders) && Collected(root, folders, uids)
    modifies g`deletedFolders
    ensures Counts(counts, dashboards, uids, expired)
    ensures CleanedUp(root, folders, uids, counts, g.lockedFolders, dryRun, removed)
    ensures g.deletedFolders == old(g.deletedFolders) + if dryRun then [] else removed
  {
    hide *;
    ghost var edges := TreeEdges(root, folders, uids);
    var children := BuildChildren(root, folders, uids);
    var dashCount := CountSurvivors(dashboards, uids, expired);
    counts := dashCount;
    CollectedIsTree(root, folders, uids);
    var kids := KidsOf(children, root);
    KidsAre(children, root, folders, uids, root);
    removed := [];
    NothingDone(edges, uids, counts, g.lockedFolders, dryRun);
    for i := 0 to |kids|
      invariant SiblingsDone(edges, uids, kids[..i], counts, g.lockedFolders, dryRun, removed)
      invariant g.deletedFolders == old(g.deletedFolders) + if dryRun then [] else removed
    {
      var gone;
      ghost var more;
      UniqueFoldersEnd(children, root, folders, uids, kids[i].uid);
      ghost var depth := DepthOf(children, kids[i].uid);
      gone, more := DeleteEmptyRecursive(g, kids[i].uid, children, dashCount, dryRun, root, folders, uids, depth);
      DistinctBefore(kids, i);
      NextSibling(edges, root, uids, root, kids[..i], kids[i], counts, g.lockedFolders, dryRun, removed, more);
      assert kids[..i + 1] == kids[..i] + [kids[i]];
      removed := removed + more;
    }
    assert kids[..|kids|] == kids;
    RootsChildrenDone(root, folders, uids, kids, counts, g.lockedFolders, dryRun, removed);
  }

  /** A folder goes exactly when nothing in or below it holds a surviving dashboard or refuses to be deleted. */
  ghost predicate Goes(root: string, folders: seq<Board>, uids: set<string>, dashboards: seq<Dashboard>, expired: set<string>,
                       locked: set<string>, dryRun: bool, v: string) {
    && v in uids && v != root
    && forall w :: Within(TreeEdges(root, folders, uids), v, w) ==>
         (dryRun || w !in locked) && forall d :: d in dashboards ==> !Survives(d, w, uids, expired)
  }

  /**
    * Cleans one scratch folder: expires its old dashboards and removes, leaves first, exactly the folders that go.
    */
  method SyncScratchFolder(g: Grafana, root: string, dashboards: seq<Dashboard>, folders: seq<Board>, cutoff: int, dryRun: bool)
    returns (ghost uids: set<string>, ghost expired: set<string>, ghost removed: seq<string>)
    requires UniqueFolders(folders)
    modifies g
    ensures Collected(root, folders, uids)
    ensures expired == set d | d in dashboards && Expires(d, uids, g.created, cutoff, g.lockedDashboards, dryRun) :: d.uid
    ensures g.deletedDashboards == old(g.deletedDashboards) + if dryRun then {} else expired
    ensures LeafFirst(TreeEdges(root, folders, uids), removed)
    ensures forall v :: v in removed <==> Goes(root, folders, uids, dashboards, expired, g.lockedFolders, dryRun, v)
    ensures g.deletedFolders == old(g.deletedFolders) + if dryRun then [] else removed
    ensures forall d :: d in dashboards && d.folder in uids && d.uid in g.created && g.created[d.uid] < cutoff ==>
      d.uid in expired || (!dryRun && d.uid in g.lockedDashboards)
    ensures forall u :: u in expired ==>
      u in g.created && g.created[u] < cutoff && exists d :: d in dashboards && d.uid == u && Within(FolderEdges(folders), root, d.folder)
    ensures forall d :: d in dashboards && d.folder in removed ==> d.uid in expired
  {
    hide Within, LeafFirst, TreeEdges, UniqueFolders, Expires;
    var scratch := CollectScratchFolderUIDs(root, folders);
    uids := scratch;
    var gone := ExpireDashboards(g, dashboards, scratch, cutoff, dryRun);
    expired := gone;
    ExpiredAreOld(root, dashboards, folders, uids, g.created, cutoff, g.lockedDashboards, dryRun, expired);
    ghost var counts;
    removed, counts := DeleteEmptySubfolders(g, root, dashboards, folders, scratch, gone, dryRun);
    forall v ensures v in removed <==> Goes(root, folders, uids, dashboards, expired, g.lockedFolders, dryRun, v) {
      GoesIfClean(root, folders, uids, dashboards, expired, counts, g.lockedFolders, dryRun, v);
    }
    NothingGoesAlong(root, dashboards, folders, uids, expired, g.lockedFolders, dryRun, removed);
  }

  /** The expired dashboards are old ones of the collected folders, all of them unless their deletion fails. */
  lemma ExpiredAreOld(root: string, dashboards: seq<Dashboard>, folders: seq<Board>, uids: set<string>, created: map<string, int>,
                      cutoff: int, locked: set<string>, dryRun: bool, expired: set<string>)
    requires Collected(root, folders, uids)
    requires expired == set d | d in dashboards && Expires(d, uids, created, cutoff, locked, dryRun) :: d.uid
    ensures forall d :: d in dashboards && d.folder in uids && d.uid in created && created[d.uid] < cutoff ==>
      d.uid in expired || (!dryRun && d.uid in locked)
    ensures forall u :: u in expired ==>
      u in created && created[u] < cutoff && exists d :: d in dashboards && d.uid == u && Within(FolderEdges(folders), root, d.folder)
  {
    hide Within, FolderEdges;
  }

  /** A removed folder holds no dashboard that has not expired. */
  lemma NothingGoesAlong(root: string, dashboards: seq<Dashboard>, folders: seq<Board>, uids: set<string>, expired: set<string>,
                         locked: set<string>, dryRun: bool, removed: seq<string>)
    requires forall v :: v in removed ==> Goes(root, folders, uids, dashboards, expired, locked, dryRun, v)
    ensures forall d :: d in dashboards && d.folder in removed ==> d.uid in expired
  {
    forall d | d in dashboards && d.folder in removed ensures d.uid in expired {
      assert Goes(root, folders, uids, dashboards, expired, locked, dryRun, d.folder);
      assert Within(TreeEdges(root, folders, uids), d.folder, d.folder);
    }
  }

  lemma GoesIfClean(root: string, folders: seq<Board>, uids: set<string>, dashboards: seq<Dashboard>, expired: set<string>,
                    counts: map<string, nat>, locked: set<string>, dryRun: bool, v: string)
    requires Counts(counts, dashboards, uids, expired)
    ensures Goes(root, folders, uids, dashboards, expired, locked, dryRun, v) <==>
      v in uids && v != root && Clean(TreeEdges(root, folders, uids), v, counts, locked, dryRun)
  {
    hide Within, TreeEdges, Survives;
  }

  /** With two folders under one identifier a folder can lie below itself, and the descent does not end. */
  lemma RepeatedIdentifierLoops(children: map<string, seq<Board>>)
    requires var folders := [Board("a", "dash-folder", "root"), Board("a", "dash-folder", "a")];
             ChildTable(children, "root", folders, {"root", "a"})
    ensures var folders := [Board("a", "dash-folder", "root"), Board("a", "dash-folder", "a")];
            Collected("root", folders, {"root", "a"})
    ensures "a" in TableEdgesFrom(children, "root") && !Ends(children, "a")
  {
    var folders := [Board("a", "dash-folder", "root"), Board("a", "dash-folder", "a")];
    var uids := {"root", "a"};
    var edges := FolderEdges(folders);
    assert folders[0] in folders && folders[1] in folders;
    assert edges == {Edge("root", "a"), Edge("a", "a")};
    ReachesByEdge(edges, "root", "a");
    forall u | Within(edges, "root", u) ensures u in uids {
      ClosedHolds(edges, uids, "root", u);
    }
    TableEdgesAre(children, "root", folders, uids);
    assert TreeEdges("root", folders, uids) == edges;
    ReachesByEdge(edges, "a", "a");
    assert Within(edges, "a", "a") && CycleBelow(edges, "a");
    DescentEnds(children, "a");
  }

  function TableEdgesFrom(children: map<string, seq<Board>>, u: string): set<string> {
    set f | f in KidsOf(children, u) :: f.uid
  }
}
