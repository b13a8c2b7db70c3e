/** Everything a service does for its completion happens before anything its children do. */
module ServiceOrdering {
  import opened Reachability
  import opened GraphTypes
  import opened Pipelines
  import opened ServiceTree
  import opened GraphSpec
  import opened ServicePlans
  import opened StampResolution
  import opened BuilderInvariant
  import opened ExecutionGraph
  import opened StampedExpansion

  // ----- within one iteration

  /** From a completion step one can follow completion steps down to a leaf. */
  lemma {:induction false} LeafBelow(it: StampIteration, start: Identifier, current: Identifier, visited: set<Identifier>)
    returns (leaf: Identifier)
    requires WellFormed(it.pipeline) && Acyclic(IterEdges(it))
    requires current in IterCompletion(it) && current in visited && visited <= IterIds(it)
    requires forall x :: x in visited ==> x == current || Reaches(IterEdges(it), x, current)
    requires start == current || Reaches(IterEdges(it), start, current)
    ensures leaf in IterLeaves(it) && (leaf == start || Reaches(IterEdges(it), start, leaf))
    decreases IterIds(it) - visited
  {
    hide WellFormed, IterEdges, Reaches, Acyclic;
    if current in IterLeaves(it) {
      return current;
    }
    var e :| e in IterEdges(it) && e.from == current && e.to in IterCompletion(it);
    var next := e.to;
    CompletionIsNode(it, next);
    Extend1(IterEdges(it), start, visited, e);
    leaf := LeafBelow(it, start, next, visited + {next});
  }

  lemma CompletionIsNode(it: StampIteration, id: Identifier)
    requires id in IterCompletion(it)
    ensures id in IterIds(it)
  {
  }

  /** Following one more edge leads to a vertex that was not on the way so far. */
  lemma Extend1(edges: set<Link>, start: Identifier, visited: set<Identifier>, e: Link)
    requires Acyclic(edges) && e in edges
    requires forall x :: x in visited ==> x == e.from || Reaches(edges, x, e.from)
    requires start == e.from || Reaches(edges, start, e.from)
    ensures e.to !in visited
    ensures forall x :: x in visited ==> Reaches(edges, x, e.to)
    ensures Reaches(edges, start, e.to)
  {
    assert e == Edge(e.from, e.to);
    ReachesByEdge(edges, e.from, e.to);
    forall x | x in visited || x == start ensures Reaches(edges, x, e.to) {
      if x != e.from {
        ReachesTrans(edges, x, e.from, e.to);
      }
    }
    AcyclicMeansIrreflexive(edges);
  }

  ghost predicate IterRoot(it: StampIteration, id: Identifier) {
    id in IterIds(it) && forall e :: e in IterEdges(it) ==> e.to != id
  }

  /** Every node lies below a node without parents in its iteration. */
  lemma {:induction false} RootAbove(it: StampIteration, end: Identifier, current: Identifier, visited: set<Identifier>)
    returns (root: Identifier)
    requires WellFormed(it.pipeline) && Acyclic(IterEdges(it))
    requires current in IterIds(it) && current in visited && visited <= IterIds(it)
    requires forall x :: x in visited ==> x == current || Reaches(IterEdges(it), current, x)
    requires end == current || Reaches(IterEdges(it), current, end)
    ensures IterRoot(it, root) && (root == end || Reaches(IterEdges(it), root, end))
    decreases IterIds(it) - visited
  {
    hide WellFormed, IterEdges, IterIds, Reaches, Acyclic;
    IterEdgesStayInside(it);
    if IterRoot(it, current) {
      return current;
    }
    var e :| e in IterEdges(it) && e.to == current;
    Extend2(IterEdges(it), end, visited, e);
    root := RootAbove(it, end, e.from, visited + {e.from});
  }

  lemma Extend2(edges: set<Link>, end: Identifier, visited: set<Identifier>, e: Link)
    requires Acyclic(edges) && e in edges
    requires forall x :: x in visited ==> x == e.to || Reaches(edges, e.to, x)
    requires end == e.to || Reaches(edges, e.to, end)
    ensures e.from !in visited
    ensures forall x :: x in visited ==> Reaches(edges, e.from, x)
    ensures Reaches(edges, e.from, end)
  {
    assert e == Edge(e.from, e.to);
    ReachesByEdge(edges, e.from, e.to);
    forall x | x in visited || x == end ensures Reaches(edges, e.from, x) {
      if x != e.to {
        ReachesTrans(edges, e.from, e.to, x);
      }
    }
    AcyclicMeansIrreflexive(edges);
  }

  // ----- iterations of one shape

  /** All expansions of a service have one shape. */
  ghost predicate OneShape(its: seq<StampIteration>) {
    && (forall it, it' :: it in its && it' in its ==> SameShape(it.pipeline, it'.pipeline))
    && (forall it :: it in its ==> WellFormed(it.pipeline))
  }

  /** A node without a stamp belongs to every expansion, with the same standing. */
  lemma SharedNode(it: StampIteration, it': StampIteration, id: Identifier)
    requires WellFormed(it.pipeline) && SameShape(it.pipeline, it'.pipeline)
    requires id in IterIds(it) && (id.stamp == Unstamped() || id.stamp == it'.stamp) && it.stamp.IsSet() && it'.stamp.IsSet()
    ensures id in IterIds(it')
    ensures id in IterCompletion(it) ==> id in IterCompletion(it')
  {
    var rg, st :| rg in it.pipeline.resourceGroups && st in rg.steps && StepId(it, rg, st) == id;
    var rg' := SameShapeGroup(it.pipeline, it'.pipeline, rg);
    assert StepId(it', rg', st) == id;
    if id in IterCompletion(it) {
      IterCompletionIs(it, id);
      IterStepIs(it, rg, st);
    }
  }

  lemma RootHasNoDependencies(it: StampIteration, rg: ResourceGroup, st: Step)
    requires WellFormed(it.pipeline) && Has(it, rg, st)
    ensures IterRoot(it, StepId(it, rg, st)) <==> Dependencies(st) == []
  {
    var id := StepId(it, rg, st);
    assert rg in it.pipeline.resourceGroups && st in rg.steps;
    if Dependencies(st) != [] {
      var d := Dependencies(st)[0];
      assert d in Dependencies(st);
      assert Edge(DependencyId(it, d), id) in IterEdges(it);
    } else {
      forall e | e in IterEdges(it) ensures e.to != id {
        var rg', st', d :| Has(it, rg', st') && d in Dependencies(st') && e == Edge(DependencyId(it, d), StepId(it, rg', st'));
        if e.to == id {
          StepIdInjective(it, rg, st, rg', st');
        }
      }
    }
  }

  /** A root of one expansion is a root of the service. */
  lemma RootOfService(its: seq<StampIteration>, it: StampIteration, id: Identifier)
    requires OneShape(its) && it in its && IterRoot(it, id)
    ensures id in ServiceRoots(its)
  {
    forall e | e in ServiceEdges(its) ensures e.to != id {
      var it' :| it' in its && e in IterEdges(it');
      RootEverywhere(it, it', id, e);
    }
    assert id in ServiceIds(its);
  }

  lemma RootEverywhere(it: StampIteration, it': StampIteration, id: Identifier, e: Link)
    requires WellFormed(it.pipeline) && WellFormed(it'.pipeline) && SameShape(it.pipeline, it'.pipeline)
    requires IterRoot(it, id) && e in IterEdges(it')
    ensures e.to != id
  {
    hide WellFormed, SameShape;
    var rg, st :| rg in it.pipeline.resourceGroups && st in rg.steps && StepId(it, rg, st) == id;
    RootHasNoDependencies(it, rg, st);
    var rg', st', d :| rg' in it'.pipeline.resourceGroups && st' in rg'.steps && d in Dependencies(st') &&
      e == Edge(DependencyId(it', d), StepId(it', rg', st'));
    var rg'' := SameShapeGroup(it.pipeline, it'.pipeline, rg);
    if e.to == id {
      NamesDecide(it'.pipeline, rg'', st, rg', st');
    }
  }

  lemma NamesDecide(p: Pipeline, rg: ResourceGroup, st: Step, rg': ResourceGroup, st': Step)
    requires WellFormed(p) && rg in p.resourceGroups && rg' in p.resourceGroups && st in rg.steps && st' in rg'.steps
    requires rg.meta.name == rg'.meta.name && st.name == st'.name
    ensures rg == rg' && st == st'
  {
  }

  // ----- between a service and its child

  /** The stamp under which an iteration was expanded shows on its nodes. */
  lemma IterStamps(it: StampIteration)
    ensures forall id :: id in IterIds(it) ==> id.stamp == it.stamp || id.stamp == Unstamped()
    ensures forall id :: id in IterLeaves(it) ==> id in IterIds(it)
  {
    assert forall id :: id in IterCompletion(it) ==> id in IterIds(it);
  }

  /** Completion steps of `a` come before all nodes of `b` when leaves of `a` are wired to roots of `b`. */
  lemma IterationsOrdered(edges: set<Link>, itsA: seq<StampIteration>, a: StampIteration, itsB: seq<StampIteration>, b: StampIteration,
                          n: Identifier, m: Identifier)
    requires Acyclic(edges) && ServiceEdges(itsA) <= edges && ServiceEdges(itsB) <= edges && WireEdges(itsA, itsB) <= edges
    requires a in itsA && WellFormed(a.pipeline) && b in itsB && OneShape(itsB)
    requires Compatible(a.stamp, b.stamp)
    requires n in IterCompletion(a) && m in IterIds(b)
    ensures Reaches(edges, n, m)
  {
    hide WellFormed, Reaches, SameShape, Acyclic;
    assert IterEdges(a) <= edges && IterEdges(b) <= edges by { IterEdgesInside(itsA, a); IterEdgesInside(itsB, b); }
    AcyclicMonotone(IterEdges(a), edges);
    AcyclicMonotone(IterEdges(b), edges);
    CompletionIsNode(a, n);
    var l := LeafBelow(a, n, n, {n});
    var r := RootAbove(b, m, m, {m});
    RootOfService(itsB, b, r);
    WireBetween(itsA, a, itsB, b, l, r);
    ReachesByEdge(edges, l, r);
    if l != n {
      ReachesMonotone(IterEdges(a), edges, n, l);
      ReachesTrans(edges, n, l, r);
    }
    if r != m {
      ReachesMonotone(IterEdges(b), edges, r, m);
      ReachesTrans(edges, n, r, m);
    }
  }

  lemma IterEdgesInside(its: seq<StampIteration>, it: StampIteration)
    requires it in its
    ensures IterEdges(it) <= ServiceEdges(its)
  {
  }

  lemma WireBetween(itsA: seq<StampIteration>, a: StampIteration, itsB: seq<StampIteration>, b: StampIteration, l: Identifier, r: Identifier)
    requires a in itsA && b in itsB && l in IterLeaves(a) && r in ServiceRoots(itsB) && r in IterIds(b) && Compatible(a.stamp, b.stamp)
    ensures Edge(l, r) in WireEdges(itsA, itsB)
  {
    IterStamps(a);
    IterStamps(b);
    assert l in ServiceLeaves(itsA);
  }

  /** Either one unstamped expansion or one for each of the given set stamps. */
  ghost predicate Layout(its: seq<StampIteration>, stamps: set<Stamp>) {
    || (|its| == 1 && its[0].stamp == Unstamped())
    || ((forall it :: it in its ==> it.stamp in stamps && it.stamp.IsSet()) &&
        (forall s :: s in stamps ==> exists it :: it in its && it.stamp == s))
  }

  lemma ExpandedLayout(t: Service, sp: StampPipelines, its: seq<StampIteration>)
    requires Expanded(t, sp, its)
    ensures Layout(its, SetStampsOf(sp))
  {
  }

  /** A node compatible with a stamp is found in the expansion that goes with that stamp. */
  lemma IterationFor(its: seq<StampIteration>, stamps: set<Stamp>, id: Identifier, s: Stamp) returns (it: StampIteration)
    requires OneShape(its) && Layout(its, stamps) && id in ServiceIds(its)
    requires s in stamps && s.IsSet() && Compatible(id.stamp, s)
    ensures it in its && id in IterIds(it) && (it.stamp == s || it.stamp == Unstamped())
    ensures id in ServiceCompletion(its) ==> id in IterCompletion(it)
  {
    hide WellFormed, SameShape, IterIds, IterCompletion;
    var home :| home in its && id in IterIds(home);
    if |its| == 1 && its[0].stamp == Unstamped() {
      it := home;
    } else {
      it :| it in its && it.stamp == s;
      IterStamps(home);
      SharedNode(home, it, id);
      if id in ServiceCompletion(its) {
        var done :| done in its && id in IterCompletion(done);
        CompletionIsNode(done, id);
        SharedNode(done, it, id);
      }
    }
  }

  function ServiceCompletion(its: seq<StampIteration>): set<Identifier> {
    set it, id | it in its && id in IterCompletion(it) :: id
  }

  lemma CompletionInService(its: seq<StampIteration>)
    ensures ServiceCompletion(its) <= ServiceIds(its)
  {
    forall id | id in ServiceCompletion(its) ensures id in ServiceIds(its) {
      var it :| it in its && id in IterCompletion(it);
      CompletionIsNode(it, id);
    }
  }

  lemma ServicesOrdered(edges: set<Link>, itsA: seq<StampIteration>, itsB: seq<StampIteration>, stamps: set<Stamp>,
                        n: Identifier, m: Identifier)
    requires Acyclic(edges) && ServiceEdges(itsA) <= edges && ServiceEdges(itsB) <= edges && WireEdges(itsA, itsB) <= edges
    requires OneShape(itsA) && OneShape(itsB) && Layout(itsA, stamps) && Layout(itsB, stamps)
    requires n in ServiceCompletion(itsA) && m in ServiceIds(itsB) && Compatible(n.stamp, m.stamp)
    ensures Reaches(edges, n, m)
  {
    hide WellFormed, SameShape, IterIds, IterCompletion, IterEdges, ServiceEdges, WireEdges, Reaches, Acyclic;
    CompletionInService(itsA);
    var a0 :| a0 in itsA && n in IterCompletion(a0);
    var b0 :| b0 in itsB && m in IterIds(b0);
    if a0.stamp == Unstamped() || b0.stamp == Unstamped() {
      IterationsOrdered(edges, itsA, a0, itsB, b0, n, m);
    } else {
      CompletionIsNode(a0, n);
      IterStamps(a0);
      IterStamps(b0);
      var s := if n.stamp.IsSet() then a0.stamp else b0.stamp;
      assert s in stamps;
      var a := IterationFor(itsA, stamps, n, s);
      var b := IterationFor(itsB, stamps, m, s);
      IterationsOrdered(edges, itsA, a, itsB, b, n, m);
    }
  }

  // ----- whole graphs

  /** What a graph shows of one parent-child pair of its topology. */
  lemma EdgesOfPair(tree: set<Service>, plan: Plan, edges: set<Link>, s: Service, c: Service)
    requires s in tree && c in tree && c in s.children && s.serviceGroup in plan && c.serviceGroup in plan
    requires ForestEdges(tree, plan) <= edges
    ensures ServiceEdges(plan[s.serviceGroup]) <= edges && ServiceEdges(plan[c.serviceGroup]) <= edges
    ensures WireEdges(plan[s.serviceGroup], plan[c.serviceGroup]) <= edges
  {
    hide ServiceEdges, WireEdges;
    forall e | e in ServiceEdges(plan[s.serviceGroup]) ensures e in edges {
      assert e in ServiceEdges(PlanOf(plan, s.serviceGroup));
      assert e in StepEdges(tree, plan);
    }
    forall e | e in ServiceEdges(plan[c.serviceGroup]) ensures e in edges {
      assert e in ServiceEdges(PlanOf(plan, c.serviceGroup));
      assert e in StepEdges(tree, plan);
    }
    forall e | e in WireEdges(plan[s.serviceGroup], plan[c.serviceGroup]) ensures e in edges {
      assert e in WireEdges(PlanOf(plan, s.serviceGroup), PlanOf(plan, c.serviceGroup));
      assert e in TopologyEdges(tree, plan);
    }
  }

  /** All pipelines used for one service have one shape. */
  ghost predicate Uniform(tree: set<Service>, plan: Plan) {
    forall t :: t in tree && t.serviceGroup in plan ==> OneShape(plan[t.serviceGroup])
  }

  /**
    * In an acyclic graph a parent service finishes before its child starts: every step that counts for the parent's
    * completion leads to every step of the child with a compatible stamp.
    */
  lemma ParentBeforeChild(roots: seq<Service>, sp: StampPipelines, plan: Plan, gs: map<string, StampedRecord>, g: Graph,
                          s: Service, c: Service, n: Identifier, m: Identifier)
    requires GraphOf(roots, sp, plan, gs, g) && Acyclic(ChildEdges(g.nodes)) && Uniform(ForestSubtrees(roots), plan)
    requires s in ForestSubtrees(roots) && c in s.children
    requires s.serviceGroup in plan && n in ServiceCompletion(plan[s.serviceGroup])
    requires c.serviceGroup in plan && m in ServiceIds(plan[c.serviceGroup])
    requires Compatible(n.stamp, m.stamp)
    ensures Reaches(ChildEdges(g.nodes), n, m)
  {
    hide PlanOk, StepsOk, AllRegistered, AllExternalOk, ForestEdges, ExternalEdges, Expanded, AllIds, TreeRecorded, OneShape,
      Acyclic, Reaches, ServiceCompletion, ServiceIds, EdgesInside, Ids, ChildEdges, Layout;
    BuildsCover(roots, sp, plan, gs, g);
    EdgesOfPair(ForestSubtrees(roots), plan, ChildEdges(g.nodes), s, c);
    ExpandedLayout(s, sp, plan[s.serviceGroup]);
    ExpandedLayout(c, sp, plan[c.serviceGroup]);
    ServicesOrdered(ChildEdges(g.nodes), plan[s.serviceGroup], plan[c.serviceGroup], SetStampsOf(sp), n, m);
  }

  /** A line of services, each a child of the one before. */
  ghost predicate Lineage(line: seq<Service>) {
    |line| >= 2 && forall i :: 0 <= i < |line| - 1 ==> line[i + 1] in line[i].children
  }

  /** A completion step of a service that goes with the stamps of both given nodes. */
  lemma StepBetween(its: seq<StampIteration>, stamps: set<Stamp>, n: Identifier, m: Identifier) returns (c: Identifier)
    requires OneShape(its) && Layout(its, stamps) && ServiceCompletion(its) != {}
    requires Compatible(n.stamp, m.stamp)
    requires n.stamp.IsSet() ==> n.stamp in stamps
    requires m.stamp.IsSet() ==> m.stamp in stamps
    ensures c in ServiceCompletion(its) && Compatible(n.stamp, c.stamp) && Compatible(c.stamp, m.stamp)
  {
    hide WellFormed, SameShape, IterIds, IterCompletion;
    var x :| x in ServiceCompletion(its);
    var home :| home in its && x in IterCompletion(home);
    CompletionIsNode(home, x);
    IterStamps(home);
    var s := if n.stamp.IsSet() then n.stamp else m.stamp;
    if home.stamp == Unstamped() || !s.IsSet() {
      c := x;
    } else {
      var it :| it in its && it.stamp == s;
      c := Twin(home, it, x);
      CompletionIsNode(it, c);
      IterStamps(it);
    }
  }

  /** The completion step of another expansion with the same group and name. */
  lemma Twin(it: StampIteration, it': StampIteration, id: Identifier) returns (id': Identifier)
    requires SameShape(it.pipeline, it'.pipeline) && id in IterCompletion(it)
    ensures id' in IterCompletion(it')
  {
    var rg, st :| rg in it.pipeline.resourceGroups && st in rg.steps && st.completion && StepId(it, rg, st) == id;
    var rg' := SameShapeGroup(it.pipeline, it'.pipeline, rg);
    id' := StepId(it', rg', st);
  }

  /** Recorded stamps are stamps the caller supplied. */
  lemma StampsAreSupplied(its: seq<StampIteration>, stamps: set<Stamp>, id: Identifier)
    requires Layout(its, stamps) && id in ServiceIds(its)
    ensures id.stamp.IsSet() ==> id.stamp in stamps
  {
    var it :| it in its && id in IterIds(it);
    IterStamps(it);
  }

  /**
    * The order extends to all descendants as long as every service in between has a completion step of its own;
    * a service without one wires nothing to its children.
    */
  lemma {:induction false} AncestorBeforeDescendant(
      roots: seq<Service>, sp: StampPipelines, plan: Plan, gs: map<string, StampedRecord>, g: Graph,
      line: seq<Service>, n: Identifier, m: Identifier)
    requires GraphOf(roots, sp, plan, gs, g) && Acyclic(ChildEdges(g.nodes)) && Uniform(ForestSubtrees(roots), plan)
    requires Lineage(line) && line[0] in ForestSubtrees(roots)
    requires forall i :: 0 <= i < |line| ==> line[i].serviceGroup in plan
    requires forall i :: 0 < i < |line| - 1 ==> ServiceCompletion(plan[line[i].serviceGroup]) != {}
    requires n in ServiceCompletion(plan[line[0].serviceGroup]) && m in ServiceIds(plan[line[|line| - 1].serviceGroup])
    requires Compatible(n.stamp, m.stamp)
    ensures Reaches(ChildEdges(g.nodes), n, m)
    decreases |line|
  {
    hide GraphOf, OneShape, Acyclic, Reaches, ServiceCompletion, ServiceIds, Expanded, Layout, ForestSubtrees, Compatible;
    if |line| == 2 {
      ParentBeforeChild(roots, sp, plan, gs, g, line[0], line[1], n, m);
    } else {
      BuildsCover(roots, sp, plan, gs, g);
      var first, next, last := line[0], line[1], line[|line| - 1];
      LineInside(ForestSubtrees(roots), line);
      ExpandedLayout(first, sp, plan[first.serviceGroup]);
      ExpandedLayout(next, sp, plan[next.serviceGroup]);
      ExpandedLayout(last, sp, plan[last.serviceGroup]);
      CompletionInService(plan[first.serviceGroup]);
      CompletionInService(plan[next.serviceGroup]);
      StampsAreSupplied(plan[first.serviceGroup], SetStampsOf(sp), n);
      StampsAreSupplied(plan[last.serviceGroup], SetStampsOf(sp), m);
      var c := StepBetween(plan[next.serviceGroup], SetStampsOf(sp), n, m);
      ParentBeforeChild(roots, sp, plan, gs, g, first, next, n, c);
      AncestorBeforeDescendant(roots, sp, plan, gs, g, line[1..], c, m);
      ReachesTrans(ChildEdges(g.nodes), n, c, m);
    }
  }

  lemma {:induction false} LineInside(tree: set<Service>, line: seq<Service>)
    requires Lineage(line) && line[0] in tree
    requires forall t, c :: t in tree && c in t.children ==> c in tree
    ensures forall i :: 0 <= i < |line| ==> line[i] in tree
  {
    if |line| > 2 {
      LineInside(tree, line[1..]);
      assert forall i :: 1 <= i < |line| ==> line[i] == line[1..][i - 1];
    }
  }

  /** No edge of any graph joins nodes of two different stamps. */
  lemma StampsStayApart(roots: seq<Service>, sp: StampPipelines, plan: Plan, gs: map<string, StampedRecord>, g: Graph, e: Link)
    requires GraphOf(roots, sp, plan, gs, g) && e in ParentEdges(g.nodes)
    ensures Compatible(e.from.stamp, e.to.stamp)
  {
    hide PlanOk, StepsOk, AllRegistered, AllExternalOk, Expanded, AllIds, TreeRecorded, ServiceLeaves, ServiceRoots, Ids, ChildEdges, ParentEdges;
    var tree := ForestSubtrees(roots);
    if e in StepEdges(tree, plan) {
      var t :| t in tree && e in ServiceEdges(PlanOf(plan, t.serviceGroup));
      var it :| it in PlanOf(plan, t.serviceGroup) && e in IterEdges(it);
    }
  }
}
