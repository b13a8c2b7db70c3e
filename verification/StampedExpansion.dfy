/** Expanding stamped services copies the flat graph once per stamp, and adds or loses nothing. */
module StampedExpansion {
  import opened Reachability
  import opened GraphTypes
  import opened Pipelines
  import opened ServiceTree
  import opened GraphSpec
  import opened ServicePlans
  import opened StampResolution
  import opened BuilderInvariant
  import opened ExecutionGraph

  /** Two pipelines declare the same groups with the same steps; their metadata may differ. */
  ghost predicate SameShape(p: Pipeline, q: Pipeline) {
    && p.serviceGroup == q.serviceGroup
    && |p.resourceGroups| == |q.resourceGroups|
    && forall i :: 0 <= i < |p.resourceGroups| ==>
         && p.resourceGroups[i].meta.name == q.resourceGroups[i].meta.name
         && p.resourceGroups[i].meta.stamped == q.resourceGroups[i].meta.stamped
         && p.resourceGroups[i].steps == q.resourceGroups[i].steps
  }

  /** The copy of a node for a stamp: nodes in stamped resource groups take it, the others are shared. */
  function Lift(gs: map<string, StampedRecord>, id: Identifier, s: Stamp): Identifier {
    id.(stamp := s.If(id.resourceGroup in gs && gs[id.resourceGroup].stamped))
  }

  function LiftIds(gs: map<string, StampedRecord>, ids: set<Identifier>, s: Stamp): set<Identifier> {
    set id | id in ids :: Lift(gs, id, s)
  }

  function LiftEdges(gs: map<string, StampedRecord>, edges: set<Link>, stamps: set<Stamp>): set<Link> {
    set e, s | e in edges && s in stamps :: Edge(Lift(gs, e.from, s), Lift(gs, e.to, s))
  }

  function Flatten(id: Identifier): Identifier { id.(stamp := Unstamped()) }

  // ----- one iteration

  /** The group declarations of a pipeline agree with the record. */
  ghost predicate Declares(gs: map<string, StampedRecord>, p: Pipeline) {
    forall rg :: rg in p.resourceGroups ==> rg.meta.name in gs && gs[rg.meta.name].stamped == rg.meta.stamped
  }

  /** `it` is the copy of `flat` for the stamp `s`. */
  ghost predicate Copies(gs: map<string, StampedRecord>, flat: StampIteration, it: StampIteration, s: Stamp) {
    && flat.stamp == Unstamped()
    && SameShape(flat.pipeline, it.pipeline)
    && Declares(gs, flat.pipeline) && UniqueGroups(flat.pipeline)
    && forall rg :: rg in it.pipeline.resourceGroups ==> it.stamp.If(rg.meta.stamped) == s.If(rg.meta.stamped)
  }

  lemma SameShapeGroup(p: Pipeline, q: Pipeline, rg: ResourceGroup) returns (rg': ResourceGroup)
    requires SameShape(p, q) && rg in p.resourceGroups
    ensures rg' in q.resourceGroups && rg'.meta.name == rg.meta.name && rg'.meta.stamped == rg.meta.stamped && rg'.steps == rg.steps
  {
    var i :| 0 <= i < |p.resourceGroups| && p.resourceGroups[i] == rg;
    rg' := q.resourceGroups[i];
  }

  lemma SameShapeSymmetric(p: Pipeline, q: Pipeline)
    requires SameShape(p, q)
    ensures SameShape(q, p)
  {
  }

  lemma SameShapeStamped(p: Pipeline, q: Pipeline, name: string)
    requires SameShape(p, q)
    ensures GroupStamped(p, name) == GroupStamped(q, name)
  {
    if rg :| rg in p.resourceGroups && rg.meta.name == name && rg.meta.stamped {
      var rg' := SameShapeGroup(p, q, rg);
    }
    if rg :| rg in q.resourceGroups && rg.meta.name == name && rg.meta.stamped {
      SameShapeSymmetric(p, q);
      var rg' := SameShapeGroup(q, p, rg);
    }
  }

  lemma CopyStepId(gs: map<string, StampedRecord>, flat: StampIteration, it: StampIteration, s: Stamp,
                   rg: ResourceGroup, rg': ResourceGroup, st: Step)
    requires Copies(gs, flat, it, s) && Has(flat, rg, st) && Has(it, rg', st)
    requires rg'.meta.name == rg.meta.name && rg'.meta.stamped == rg.meta.stamped
    ensures StepId(it, rg', st) == Lift(gs, StepId(flat, rg, st), s)
    ensures StepId(flat, rg, st) == Flatten(StepId(it, rg', st))
  {
  }

  lemma CopyDependencyId(gs: map<string, StampedRecord>, flat: StampIteration, it: StampIteration, s: Stamp, d: StepDependency)
    requires Copies(gs, flat, it, s) && WellFormed(flat.pipeline) && DependencyExists(flat.pipeline, d)
    ensures DependencyId(it, d) == Lift(gs, DependencyId(flat, d), s)
  {
    var rg :| rg in flat.pipeline.resourceGroups && rg.meta.name == d.resourceGroup && HasStep(rg, d.step);
    GroupStampedIs(flat.pipeline, rg);
    SameShapeStamped(flat.pipeline, it.pipeline, d.resourceGroup);
    var rg' := SameShapeGroup(flat.pipeline, it.pipeline, rg);
  }

  lemma CopyIds(gs: map<string, StampedRecord>, flat: StampIteration, it: StampIteration, s: Stamp)
    requires Copies(gs, flat, it, s)
    ensures IterIds(it) == LiftIds(gs, IterIds(flat), s)
    ensures IterCompletion(it) == LiftIds(gs, IterCompletion(flat), s)
  {
    SameShapeSymmetric(flat.pipeline, it.pipeline);
    forall id | id in IterIds(it) ensures id in LiftIds(gs, IterIds(flat), s) {
      var rg', st :| rg' in it.pipeline.resourceGroups && st in rg'.steps && StepId(it, rg', st) == id;
      var rg := SameShapeGroup(it.pipeline, flat.pipeline, rg');
      CopyStepId(gs, flat, it, s, rg, rg', st);
      assert StepId(flat, rg, st) in IterIds(flat);
    }
    forall id | id in IterIds(flat) ensures Lift(gs, id, s) in IterIds(it) {
      var rg, st :| rg in flat.pipeline.resourceGroups && st in rg.steps && StepId(flat, rg, st) == id;
      var rg' := SameShapeGroup(flat.pipeline, it.pipeline, rg);
      CopyStepId(gs, flat, it, s, rg, rg', st);
    }
    forall id | id in IterCompletion(it) ensures id in LiftIds(gs, IterCompletion(flat), s) {
      var rg', st :| rg' in it.pipeline.resourceGroups && st in rg'.steps && st.completion && StepId(it, rg', st) == id;
      var rg := SameShapeGroup(it.pipeline, flat.pipeline, rg');
      CopyStepId(gs, flat, it, s, rg, rg', st);
      assert StepId(flat, rg, st) in IterCompletion(flat);
    }
    forall id | id in IterCompletion(flat) ensures Lift(gs, id, s) in IterCompletion(it) {
      var rg, st :| rg in flat.pipeline.resourceGroups && st in rg.steps && st.completion && StepId(flat, rg, st) == id;
      var rg' := SameShapeGroup(flat.pipeline, it.pipeline, rg);
      CopyStepId(gs, flat, it, s, rg, rg', st);
    }
  }

  lemma CopyEdges(gs: map<string, StampedRecord>, flat: StampIteration, it: StampIteration, s: Stamp)
    requires Copies(gs, flat, it, s) && WellFormed(flat.pipeline)
    ensures IterEdges(it) == LiftEdges(gs, IterEdges(flat), {s})
  {
    SameShapeSymmetric(flat.pipeline, it.pipeline);
    forall e | e in IterEdges(it) ensures e in LiftEdges(gs, IterEdges(flat), {s}) {
      var rg', st, d :| rg' in it.pipeline.resourceGroups && st in rg'.steps && d in Dependencies(st) &&
        e == Edge(DependencyId(it, d), StepId(it, rg', st));
      var rg := SameShapeGroup(it.pipeline, flat.pipeline, rg');
      CopyStepId(gs, flat, it, s, rg, rg', st);
      CopyDependencyId(gs, flat, it, s, d);
      assert Edge(DependencyId(flat, d), StepId(flat, rg, st)) in IterEdges(flat);
    }
    forall e | e in IterEdges(flat) ensures Edge(Lift(gs, e.from, s), Lift(gs, e.to, s)) in IterEdges(it) {
      var rg, st, d :| rg in flat.pipeline.resourceGroups && st in rg.steps && d in Dependencies(st) &&
        e == Edge(DependencyId(flat, d), StepId(flat, rg, st));
      var rg' := SameShapeGroup(flat.pipeline, it.pipeline, rg);
      CopyStepId(gs, flat, it, s, rg, rg', st);
      CopyDependencyId(gs, flat, it, s, d);
    }
  }

  lemma FlatIds(flat: StampIteration)
    requires flat.stamp == Unstamped()
    ensures forall id :: id in IterIds(flat) ==> id.stamp == Unstamped()
    ensures forall e :: e in IterEdges(flat) ==> e.from.stamp == Unstamped() && e.to.stamp == Unstamped()
  {
  }

  /** On flat nodes lifting to one stamp is undone by flattening. */
  lemma LiftFlatten(gs: map<string, StampedRecord>, id: Identifier, s: Stamp)
    ensures Flatten(Lift(gs, id, s)) == Flatten(id)
    ensures id.stamp == Unstamped() ==> Flatten(id) == id
  {
  }

  lemma CopyLeaves(gs: map<string, StampedRecord>, flat: StampIteration, it: StampIteration, s: Stamp)
    requires Copies(gs, flat, it, s) && WellFormed(flat.pipeline)
    ensures IterLeaves(it) == LiftIds(gs, IterLeaves(flat), s)
  {
    CopyIds(gs, flat, it, s);
    CopyEdges(gs, flat, it, s);
    FlatIds(flat);
    IterEdgesStayInside(flat);
    forall id | id in IterCompletion(flat) ensures Lift(gs, id, s) in IterLeaves(it) <==> id in IterLeaves(flat) {
      CopyLeaf(gs, flat, it, s, id);
    }
    forall l | l in IterLeaves(it) ensures l in LiftIds(gs, IterLeaves(flat), s) {
      var id :| id in IterCompletion(flat) && l == Lift(gs, id, s);
    }
  }

  lemma CompletionInside(flat: StampIteration)
    ensures IterCompletion(flat) <= IterIds(flat)
  {
  }

  /** An unstamped identifier belongs to a set of unstamped ones exactly when its copy belongs to their copies. */
  lemma CopyCompletes(gs: map<string, StampedRecord>, ids: set<Identifier>, x: Identifier, s: Stamp)
    requires x.stamp == Unstamped() && forall y :: y in ids ==> y.stamp == Unstamped()
    ensures Lift(gs, x, s) in LiftIds(gs, ids, s) <==> x in ids
  {
    hide Lift;
    LiftFlatten(gs, x, s);
    if y :| y in ids && Lift(gs, x, s) == Lift(gs, y, s) {
      LiftFlatten(gs, y, s);
    }
  }

  lemma LeafHasNoCompletionChild(it: StampIteration, id: Identifier)
    requires id in IterCompletion(it)
    ensures id in IterLeaves(it) <==> !exists e :: e in IterEdges(it) && e.from == id && e.to in IterCompletion(it)
  {
    hide IterEdges, IterCompletion;
  }

  lemma EdgeLiftIn(gs: map<string, StampedRecord>, edges: set<Link>, e: Link, s: Stamp)
    requires e in edges
    ensures Edge(Lift(gs, e.from, s), Lift(gs, e.to, s)) in LiftEdges(gs, edges, {s})
  {
    hide Lift;
    assert s in {s};
  }

  lemma EdgeLiftedFrom(gs: map<string, StampedRecord>, edges: set<Link>, lifted: Link, s: Stamp) returns (e: Link)
    requires lifted in LiftEdges(gs, edges, {s})
    ensures e in edges && lifted == Edge(Lift(gs, e.from, s), Lift(gs, e.to, s))
  {
    hide Lift;
    var t;
    e, t :| e in edges && t in {s} && lifted == Edge(Lift(gs, e.from, t), Lift(gs, e.to, t));
    assert t == s;
  }

  lemma CopyLeaf(gs: map<string, StampedRecord>, flat: StampIteration, it: StampIteration, s: Stamp, id: Identifier)
    requires IterCompletion(it) == LiftIds(gs, IterCompletion(flat), s) && IterEdges(it) == LiftEdges(gs, IterEdges(flat), {s})
    requires flat.stamp == Unstamped() && id in IterCompletion(flat)
    ensures Lift(gs, id, s) in IterLeaves(it) <==> id in IterLeaves(flat)
  {
    hide *;
    FlatIds(flat);
    CompletionInside(flat);
    LeafHasNoCompletionChild(flat, id);
    LiftIn(gs, IterCompletion(flat), id, s);
    LeafHasNoCompletionChild(it, Lift(gs, id, s));
    if e :| e in IterEdges(flat) && e.from == id && e.to in IterCompletion(flat) {
      EdgeLiftIn(gs, IterEdges(flat), e, s);
      LiftIn(gs, IterCompletion(flat), e.to, s);
      assert Edge(Lift(gs, e.from, s), Lift(gs, e.to, s)) in IterEdges(it);
    }
    if e' :| e' in IterEdges(it) && e'.from == Lift(gs, id, s) && e'.to in IterCompletion(it) {
      var e := EdgeLiftedFrom(gs, IterEdges(flat), e', s);
      LiftFlatten(gs, e.from, s);
      LiftFlatten(gs, id, s);
      CopyCompletes(gs, IterCompletion(flat), e.to, s);
    }
  }

  lemma CopyStep(gs: map<string, StampedRecord>, flat: StampIteration, it: StampIteration, s: Stamp, id: Identifier)
    requires Copies(gs, flat, it, s) && WellFormed(flat.pipeline) && WellFormed(it.pipeline) && id in IterIds(flat)
    ensures Lift(gs, id, s) in IterIds(it) && IterStep(it, Lift(gs, id, s)) == IterStep(flat, id)
  {
    var rg, st :| rg in flat.pipeline.resourceGroups && st in rg.steps && StepId(flat, rg, st) == id;
    var rg' := SameShapeGroup(flat.pipeline, it.pipeline, rg);
    CopyStepId(gs, flat, it, s, rg, rg', st);
    IterStepIs(flat, rg, st);
    IterStepIs(it, rg', st);
  }

  // ----- one service

  function LiftAll(gs: map<string, StampedRecord>, ids: set<Identifier>, stamps: set<Stamp>): set<Identifier> {
    set id, s | id in ids && s in stamps :: Lift(gs, id, s)
  }

  /** The expansions of a service are copies of its flat expansion, at least one for every stamp. */
  ghost predicate ServiceCopies(gs: map<string, StampedRecord>, flat: StampIteration, its: seq<StampIteration>, stamps: set<Stamp>) {
    && WellFormed(flat.pipeline)
    && (forall s :: s in stamps ==> s.IsSet())
    && (forall it :: it in its ==> WellFormed(it.pipeline) && exists s :: s in stamps && Copies(gs, flat, it, s))
    && (forall s :: s in stamps ==> exists it :: it in its && Copies(gs, flat, it, s))
  }

  lemma CopiedFor(gs: map<string, StampedRecord>, flat: StampIteration, its: seq<StampIteration>, stamps: set<Stamp>, it: StampIteration)
    returns (s: Stamp)
    requires ServiceCopies(gs, flat, its, stamps) && it in its
    ensures s in stamps && Copies(gs, flat, it, s) && WellFormed(flat.pipeline)
  {
    hide Copies, WellFormed;
    s :| s in stamps && Copies(gs, flat, it, s);
  }

  lemma CopyAt(gs: map<string, StampedRecord>, flat: StampIteration, its: seq<StampIteration>, stamps: set<Stamp>, s: Stamp)
    returns (it: StampIteration)
    requires ServiceCopies(gs, flat, its, stamps) && s in stamps
    ensures it in its && Copies(gs, flat, it, s) && WellFormed(flat.pipeline)
  {
    hide Copies, WellFormed;
    it :| it in its && Copies(gs, flat, it, s);
  }

  /** Copies for one stamp are among the copies for all. */
  lemma LiftedForOne(gs: map<string, StampedRecord>, ids: set<Identifier>, stamps: set<Stamp>, s: Stamp, id: Identifier)
    requires s in stamps && id in LiftIds(gs, ids, s)
    ensures id in LiftAll(gs, ids, stamps)
  {
    hide Lift;
  }

  lemma EdgeLiftedForOne(gs: map<string, StampedRecord>, edges: set<Link>, stamps: set<Stamp>, s: Stamp, e: Link)
    requires s in stamps && e in LiftEdges(gs, edges, {s})
    ensures e in LiftEdges(gs, edges, stamps)
  {
    hide Lift;
    var e0, t :| e0 in edges && t in {s} && e == Edge(Lift(gs, e0.from, t), Lift(gs, e0.to, t));
    assert t == s;
  }

  lemma LiftIn(gs: map<string, StampedRecord>, ids: set<Identifier>, id: Identifier, s: Stamp)
    requires id in ids
    ensures Lift(gs, id, s) in LiftIds(gs, ids, s)
  {
  }

  lemma InServiceIds(its: seq<StampIteration>, id: Identifier) returns (it: StampIteration)
    requires id in ServiceIds(its)
    ensures it in its && id in IterIds(it)
  {
    hide IterIds;
    it :| it in its && id in IterIds(it);
  }

  lemma ServiceIdsHas(its: seq<StampIteration>, it: StampIteration, id: Identifier)
    requires it in its && id in IterIds(it)
    ensures id in ServiceIds(its)
  {
    hide IterIds;
  }

  lemma InServiceLeaves(its: seq<StampIteration>, id: Identifier) returns (it: StampIteration)
    requires id in ServiceLeaves(its)
    ensures it in its && id in IterLeaves(it)
  {
    hide IterLeaves;
    it :| it in its && id in IterLeaves(it);
  }

  lemma ServiceLeavesHas(its: seq<StampIteration>, it: StampIteration, id: Identifier)
    requires it in its && id in IterLeaves(it)
    ensures id in ServiceLeaves(its)
  {
    hide IterLeaves;
  }

  lemma ServiceLiftIds(gs: map<string, StampedRecord>, flat: StampIteration, its: seq<StampIteration>, stamps: set<Stamp>)
    requires ServiceCopies(gs, flat, its, stamps)
    ensures ServiceIds(its) == LiftAll(gs, IterIds(flat), stamps)
  {
    hide *;
    forall id | id in ServiceIds(its) ensures id in LiftAll(gs, IterIds(flat), stamps) {
      var it := InServiceIds(its, id);
      var s := CopiedFor(gs, flat, its, stamps, it);
      CopyIds(gs, flat, it, s);
      LiftedForOne(gs, IterIds(flat), stamps, s, id);
    }
    forall id, s | id in IterIds(flat) && s in stamps ensures Lift(gs, id, s) in ServiceIds(its) {
      var it := CopyAt(gs, flat, its, stamps, s);
      CopyIds(gs, flat, it, s);
      LiftIn(gs, IterIds(flat), id, s);
      ServiceIdsHas(its, it, Lift(gs, id, s));
    }
    LiftAllInside(gs, IterIds(flat), stamps, ServiceIds(its));
  }

  lemma ServiceLiftLeaves(gs: map<string, StampedRecord>, flat: StampIteration, its: seq<StampIteration>, stamps: set<Stamp>)
    requires ServiceCopies(gs, flat, its, stamps)
    ensures ServiceLeaves(its) == LiftAll(gs, IterLeaves(flat), stamps)
  {
    hide *;
    forall id | id in ServiceLeaves(its) ensures id in LiftAll(gs, IterLeaves(flat), stamps) {
      var it := InServiceLeaves(its, id);
      var s := CopiedFor(gs, flat, its, stamps, it);
      CopyLeaves(gs, flat, it, s);
      LiftedForOne(gs, IterLeaves(flat), stamps, s, id);
    }
    forall id, s | id in IterLeaves(flat) && s in stamps ensures Lift(gs, id, s) in ServiceLeaves(its) {
      var it := CopyAt(gs, flat, its, stamps, s);
      CopyLeaves(gs, flat, it, s);
      LiftIn(gs, IterLeaves(flat), id, s);
      ServiceLeavesHas(its, it, Lift(gs, id, s));
    }
    LiftAllInside(gs, IterLeaves(flat), stamps, ServiceLeaves(its));
  }

  lemma InServiceEdges(its: seq<StampIteration>, e: Link) returns (it: StampIteration)
    requires e in ServiceEdges(its)
    ensures it in its && e in IterEdges(it)
  {
    hide IterEdges;
    it :| it in its && e in IterEdges(it);
  }

  lemma ServiceEdgeIsLifted(gs: map<string, StampedRecord>, flat: StampIteration, its: seq<StampIteration>, stamps: set<Stamp>, e: Link)
    requires ServiceCopies(gs, flat, its, stamps) && e in ServiceEdges(its)
    ensures e in LiftEdges(gs, IterEdges(flat), stamps)
  {
    hide *;
    var it := InServiceEdges(its, e);
    var s := CopiedFor(gs, flat, its, stamps, it);
    CopyEdges(gs, flat, it, s);
    EdgeLiftedForOne(gs, IterEdges(flat), stamps, s, e);
  }

  lemma LiftedEdgeIsServiceEdge(gs: map<string, StampedRecord>, flat: StampIteration, its: seq<StampIteration>, stamps: set<Stamp>,
                                e: Link, s: Stamp)
    requires ServiceCopies(gs, flat, its, stamps) && e in IterEdges(flat) && s in stamps
    ensures Edge(Lift(gs, e.from, s), Lift(gs, e.to, s)) in ServiceEdges(its)
  {
    hide IterEdges, Copies, WellFormed, Lift;
    var it :| it in its && Copies(gs, flat, it, s);
    CopyEdges(gs, flat, it, s);
    assert s in {s};
    assert Edge(Lift(gs, e.from, s), Lift(gs, e.to, s)) in LiftEdges(gs, IterEdges(flat), {s});
  }

  lemma ServiceLiftEdges(gs: map<string, StampedRecord>, flat: StampIteration, its: seq<StampIteration>, stamps: set<Stamp>)
    requires ServiceCopies(gs, flat, its, stamps)
    ensures ServiceEdges(its) == LiftEdges(gs, IterEdges(flat), stamps)
  {
    hide IterEdges, ServiceCopies, ServiceEdges, Lift;
    forall e | e in ServiceEdges(its) ensures e in LiftEdges(gs, IterEdges(flat), stamps) {
      ServiceEdgeIsLifted(gs, flat, its, stamps, e);
    }
    forall e, s | e in IterEdges(flat) && s in stamps
      ensures Edge(Lift(gs, e.from, s), Lift(gs, e.to, s)) in ServiceEdges(its)
    {
      LiftedEdgeIsServiceEdge(gs, flat, its, stamps, e, s);
    }
  }

  lemma SingleService(flat: StampIteration)
    ensures ServiceIds([flat]) == IterIds(flat) && ServiceEdges([flat]) == IterEdges(flat) && ServiceLeaves([flat]) == IterLeaves(flat)
  {
  }

  lemma RootIsLifted(gs: map<string, StampedRecord>, flat: StampIteration, its: seq<StampIteration>, stamps: set<Stamp>, r: Identifier)
    requires ServiceIds(its) == LiftAll(gs, IterIds(flat), stamps) && ServiceEdges(its) == LiftEdges(gs, IterEdges(flat), stamps)
    requires r in ServiceRoots(its)
    ensures r in LiftAll(gs, ServiceRoots([flat]), stamps)
  {
    hide IterEdges, IterIds, Lift, ServiceIds, ServiceEdges;
    SingleService(flat);
    var f, s :| f in IterIds(flat) && s in stamps && r == Lift(gs, f, s);
    forall e | e in IterEdges(flat) ensures e.to != f {
      assert Edge(Lift(gs, e.from, s), Lift(gs, e.to, s)) in ServiceEdges(its);
    }
  }

  lemma LiftedRootIsRoot(gs: map<string, StampedRecord>, flat: StampIteration, its: seq<StampIteration>, stamps: set<Stamp>,
                         f: Identifier, s: Stamp)
    requires ServiceIds(its) == LiftAll(gs, IterIds(flat), stamps) && ServiceEdges(its) == LiftEdges(gs, IterEdges(flat), stamps)
    requires f in ServiceRoots([flat]) && s in stamps && flat.stamp == Unstamped()
    ensures Lift(gs, f, s) in ServiceRoots(its)
  {
    hide IterEdges, IterIds, Lift, ServiceIds, ServiceEdges;
    SingleService(flat);
    FlatIds(flat);
    forall e | e in ServiceEdges(its) ensures e.to != Lift(gs, f, s) {
      var e0, s0 :| e0 in IterEdges(flat) && s0 in stamps && e == Edge(Lift(gs, e0.from, s0), Lift(gs, e0.to, s0));
      LiftFlatten(gs, e0.to, s0);
      LiftFlatten(gs, f, s);
    }
  }

  lemma ServiceLiftRoots(gs: map<string, StampedRecord>, flat: StampIteration, its: seq<StampIteration>, stamps: set<Stamp>)
    requires ServiceCopies(gs, flat, its, stamps) && flat.stamp == Unstamped()
    ensures ServiceRoots(its) == LiftAll(gs, ServiceRoots([flat]), stamps)
  {
    hide *;
    ServiceLiftIds(gs, flat, its, stamps);
    ServiceLiftEdges(gs, flat, its, stamps);
    forall r | r in ServiceRoots(its) ensures r in LiftAll(gs, ServiceRoots([flat]), stamps) {
      RootIsLifted(gs, flat, its, stamps, r);
    }
    forall f, s | f in ServiceRoots([flat]) && s in stamps ensures Lift(gs, f, s) in ServiceRoots(its) {
      LiftedRootIsRoot(gs, flat, its, stamps, f, s);
    }
    LiftAllInside(gs, ServiceRoots([flat]), stamps, ServiceRoots(its));
  }

  lemma LiftAllInside(gs: map<string, StampedRecord>, ids: set<Identifier>, stamps: set<Stamp>, target: set<Identifier>)
    requires forall f, s :: f in ids && s in stamps ==> Lift(gs, f, s) in target
    ensures LiftAll(gs, ids, stamps) <= target
  {
    hide Lift;
  }

  /** Stamp-compatible copies of two flat nodes are copies for one common stamp. */
  lemma CommonStamp(gs: map<string, StampedRecord>, a: Identifier, s: Stamp, b: Identifier, t: Stamp) returns (u: Stamp)
    requires s.IsSet() && t.IsSet() && Compatible(Lift(gs, a, s).stamp, Lift(gs, b, t).stamp)
    ensures u == s || u == t
    ensures Lift(gs, a, s) == Lift(gs, a, u) && Lift(gs, b, t) == Lift(gs, b, u)
  {
    u := if Lift(gs, a, s).stamp.IsSet() then s else t;
  }

  lemma LiftCompatible(gs: map<string, StampedRecord>, a: Identifier, b: Identifier, s: Stamp)
    ensures Compatible(Lift(gs, a, s).stamp, Lift(gs, b, s).stamp)
  {
  }

  lemma WireLift(gs: map<string, StampedRecord>, flatS: StampIteration, itsS: seq<StampIteration>,
                 flatC: StampIteration, itsC: seq<StampIteration>, stamps: set<Stamp>)
    requires ServiceCopies(gs, flatS, itsS, stamps) && ServiceCopies(gs, flatC, itsC, stamps)
    requires flatS.stamp == Unstamped() && flatC.stamp == Unstamped()
    ensures WireEdges(itsS, itsC) == LiftEdges(gs, WireEdges([flatS], [flatC]), stamps)
  {
    hide *;
    SingleService(flatS);
    ServiceLiftLeaves(gs, flatS, itsS, stamps);
    ServiceLiftRoots(gs, flatC, itsC, stamps);
    FlatLeaves(flatS);
    StampsSet(gs, flatS, itsS, stamps);
    var ls, rs := IterLeaves(flatS), ServiceRoots([flatC]);
    var flat, wires := WireEdges([flatS], [flatC]), WireEdges(itsS, itsC);
    WiresAre([flatS], [flatC]);
    WiresAre(itsS, itsC);
    forall e | e in wires ensures e in LiftEdges(gs, flat, stamps) {
      WireIsLifted(gs, ls, rs, flat, stamps, e);
    }
    forall e, s | e in flat && s in stamps ensures Edge(Lift(gs, e.from, s), Lift(gs, e.to, s)) in wires {
      LiftCompatible(gs, e.from, e.to, s);
      LiftIsThere(gs, ls, e.from, stamps, s);
      LiftIsThere(gs, rs, e.to, stamps, s);
    }
    LiftEdgesInside(gs, flat, stamps, wires);
  }

  lemma WiresAre(parent: seq<StampIteration>, child: seq<StampIteration>)
    ensures forall e :: e in WireEdges(parent, child) <==>
      e.from in ServiceLeaves(parent) && e.to in ServiceRoots(child) && Compatible(e.from.stamp, e.to.stamp)
  {
    hide ServiceLeaves, ServiceRoots, Compatible;
  }

  lemma LiftIsThere(gs: map<string, StampedRecord>, ids: set<Identifier>, id: Identifier, stamps: set<Stamp>, s: Stamp)
    requires id in ids && s in stamps
    ensures Lift(gs, id, s) in LiftAll(gs, ids, stamps)
  {
    hide Lift;
  }

  lemma LiftEdgesInside(gs: map<string, StampedRecord>, edges: set<Link>, stamps: set<Stamp>, target: set<Link>)
    requires forall e, s :: e in edges && s in stamps ==> Edge(Lift(gs, e.from, s), Lift(gs, e.to, s)) in target
    ensures LiftEdges(gs, edges, stamps) <= target
  {
    hide Lift;
  }

  /** A wire between copies of a flat leaf and a flat root is a copy of the wire between them. */
  lemma WireIsLifted(gs: map<string, StampedRecord>, ls: set<Identifier>, rs: set<Identifier>, flat: set<Link>, stamps: set<Stamp>, e: Link)
    requires e.from in LiftAll(gs, ls, stamps) && e.to in LiftAll(gs, rs, stamps) && Compatible(e.from.stamp, e.to.stamp)
    requires forall f :: f in flat <==> f.from in ls && f.to in rs && Compatible(f.from.stamp, f.to.stamp)
    requires forall a :: a in ls ==> a.stamp == Unstamped()
    requires forall s :: s in stamps ==> s.IsSet()
    ensures e in LiftEdges(gs, flat, stamps)
  {
    hide Lift, Compatible;
    var a, s :| a in ls && s in stamps && e.from == Lift(gs, a, s);
    var b, t :| b in rs && t in stamps && e.to == Lift(gs, b, t);
    var u := CommonStamp(gs, a, s, b, t);
    FlatCompatible(a, b);
    assert Edge(a, b) in flat;
    assert e == Edge(Lift(gs, Edge(a, b).from, u), Lift(gs, Edge(a, b).to, u));
  }

  lemma FlatCompatible(a: Identifier, b: Identifier)
    requires a.stamp == Unstamped()
    ensures Compatible(a.stamp, b.stamp)
  {
  }

  lemma StampsSet(gs: map<string, StampedRecord>, flat: StampIteration, its: seq<StampIteration>, stamps: set<Stamp>)
    requires ServiceCopies(gs, flat, its, stamps)
    ensures forall s :: s in stamps ==> s.IsSet()
  {
  }

  lemma FlatLeaves(flat: StampIteration)
    requires flat.stamp == Unstamped()
    ensures forall id :: id in IterLeaves(flat) ==> id.stamp == Unstamped()
  {
    FlatIds(flat);
    assert IterCompletion(flat) <= IterIds(flat);
  }

  // ----- all services

  /** One plan expands every service of the tree to copies of what the other plan has, for the given stamps. */
  ghost predicate PlanCopies(gs: map<string, StampedRecord>, tree: set<Service>, flat: Plan, plan: Plan, stamps: set<Stamp>) {
    && stamps != {}
    && (forall t, c :: t in tree && c in t.children ==> c in tree)
    && forall t :: t in tree ==>
         && t.serviceGroup in flat && t.serviceGroup in plan && |flat[t.serviceGroup]| == 1
         && flat[t.serviceGroup][0].stamp == Unstamped()
         && ServiceCopies(gs, flat[t.serviceGroup][0], plan[t.serviceGroup], stamps)
  }

  lemma StepEdgesLift(gs: map<string, StampedRecord>, tree: set<Service>, flat: Plan, plan: Plan, stamps: set<Stamp>)
    requires PlanCopies(gs, tree, flat, plan, stamps)
    ensures StepEdges(tree, plan) == LiftEdges(gs, StepEdges(tree, flat), stamps)
  {
    hide ServiceEdges, ServiceCopies, IterEdges;
    forall t | t in tree
      ensures ServiceEdges(PlanOf(plan, t.serviceGroup)) == LiftEdges(gs, ServiceEdges(PlanOf(flat, t.serviceGroup)), stamps)
    {
      var f := flat[t.serviceGroup][0];
      SingleService(f);
      assert flat[t.serviceGroup] == [f];
      ServiceLiftEdges(gs, f, plan[t.serviceGroup], stamps);
    }
    forall e | e in StepEdges(tree, plan) ensures e in LiftEdges(gs, StepEdges(tree, flat), stamps) {
      var t :| t in tree && e in ServiceEdges(PlanOf(plan, t.serviceGroup));
      var e0, s :| e0 in ServiceEdges(PlanOf(flat, t.serviceGroup)) && s in stamps && e == Edge(Lift(gs, e0.from, s), Lift(gs, e0.to, s));
      assert e0 in StepEdges(tree, flat);
    }
    forall e, s | e in StepEdges(tree, flat) && s in stamps ensures Edge(Lift(gs, e.from, s), Lift(gs, e.to, s)) in StepEdges(tree, plan) {
      var t :| t in tree && e in ServiceEdges(PlanOf(flat, t.serviceGroup));
      assert Edge(Lift(gs, e.from, s), Lift(gs, e.to, s)) in ServiceEdges(PlanOf(plan, t.serviceGroup));
    }
  }

  lemma TopologyEdgesLift(gs: map<string, StampedRecord>, tree: set<Service>, flat: Plan, plan: Plan, stamps: set<Stamp>)
    requires PlanCopies(gs, tree, flat, plan, stamps)
    ensures TopologyEdges(tree, plan) == LiftEdges(gs, TopologyEdges(tree, flat), stamps)
  {
    hide WireEdges, ServiceCopies, IterEdges;
    forall t, c | t in tree && c in t.children
      ensures WireEdges(PlanOf(plan, t.serviceGroup), PlanOf(plan, c.serviceGroup)) ==
        LiftEdges(gs, WireEdges(PlanOf(flat, t.serviceGroup), PlanOf(flat, c.serviceGroup)), stamps)
    {
      var f, g := flat[t.serviceGroup][0], flat[c.serviceGroup][0];
      assert flat[t.serviceGroup] == [f] && flat[c.serviceGroup] == [g];
      WireLift(gs, f, plan[t.serviceGroup], g, plan[c.serviceGroup], stamps);
    }
    forall e | e in TopologyEdges(tree, plan) ensures e in LiftEdges(gs, TopologyEdges(tree, flat), stamps) {
      var t, c :| t in tree && c in t.children && e in WireEdges(PlanOf(plan, t.serviceGroup), PlanOf(plan, c.serviceGroup));
      var e0, s :| e0 in WireEdges(PlanOf(flat, t.serviceGroup), PlanOf(flat, c.serviceGroup)) && s in stamps &&
        e == Edge(Lift(gs, e0.from, s), Lift(gs, e0.to, s));
      assert e0 in TopologyEdges(tree, flat);
    }
    forall e, s | e in TopologyEdges(tree, flat) && s in stamps
      ensures Edge(Lift(gs, e.from, s), Lift(gs, e.to, s)) in TopologyEdges(tree, plan)
    {
      var t, c :| t in tree && c in t.children && e in WireEdges(PlanOf(flat, t.serviceGroup), PlanOf(flat, c.serviceGroup));
      assert Edge(Lift(gs, e.from, s), Lift(gs, e.to, s)) in WireEdges(PlanOf(plan, t.serviceGroup), PlanOf(plan, c.serviceGroup));
    }
  }

  // ----- external dependencies

  lemma {:induction false} FinalStepIs(its: seq<StampIteration>, id: Identifier) returns (it: StampIteration)
    requires id in ServiceIds(its)
    ensures it in its && id in IterIds(it) && FinalStep(its, id) == IterStep(it, id)
  {
    it := its[|its| - 1];
    if id !in IterIds(it) {
      assert its == its[..|its| - 1] + [it];
      it := FinalStepIs(its[..|its| - 1], id);
    }
  }

  /** The copies of a step have its dependencies. */
  lemma StepLift(gs: map<string, StampedRecord>, flat: StampIteration, its: seq<StampIteration>, stamps: set<Stamp>, id: Identifier, s: Stamp)
    requires ServiceCopies(gs, flat, its, stamps) && flat.stamp == Unstamped() && id in IterIds(flat) && s in stamps
    ensures Lift(gs, id, s) in ServiceIds(its) && FinalStep(its, Lift(gs, id, s)) == IterStep(flat, id)
  {
    hide IterIds, Copies, WellFormed, Lift;
    ServiceLiftIds(gs, flat, its, stamps);
    assert Lift(gs, id, s) in LiftAll(gs, IterIds(flat), stamps);
    var it := FinalStepIs(its, Lift(gs, id, s));
    var t :| t in stamps && Copies(gs, flat, it, t);
    CopyIds(gs, flat, it, t);
    var id' :| id' in IterIds(flat) && Lift(gs, id, s) == Lift(gs, id', t);
    FlatIds(flat);
    LiftFlatten(gs, id, s);
    LiftFlatten(gs, id', t);
    CopyStep(gs, flat, it, t, id);
  }

  /** Two records agree on the stamped declaration of every group the flat plan uses. */
  ghost predicate RecordsAgree(flat: Plan, gs: map<string, StampedRecord>, gs': map<string, StampedRecord>) {
    forall id :: id in AllIds(flat) ==>
      id.resourceGroup in gs && id.resourceGroup in gs' && gs[id.resourceGroup].stamped == gs'[id.resourceGroup].stamped
  }

  lemma ExternalParentLift(flat: Plan, gs: map<string, StampedRecord>, gs': map<string, StampedRecord>,
                           steps: map<Identifier, Step>, id: Identifier, d: ExternalDependency, s: Stamp)
    requires steps.Keys == AllIds(flat) && RecordsAgree(flat, gs, gs')
    requires id in steps && ExternalOk(steps, gs, id, d) && id.stamp == Unstamped()
    ensures ExternalParent(gs', Lift(gs, id, s), d) == Lift(gs, ExternalParent(gs, id, d), s)
  {
    hide AllIds;
    assert ExternalParent(gs, id, d) in AllIds(flat);
  }

  /** Both plans cover exactly the services of the tree. */
  ghost predicate Covers(tree: set<Service>, plan: Plan) {
    forall sg :: sg in plan ==> exists t :: t in tree && t.serviceGroup == sg
  }

  lemma FlatNode(gs: map<string, StampedRecord>, tree: set<Service>, flat: Plan, plan: Plan, stamps: set<Stamp>,
                 stepsF: map<Identifier, Step>, id: Identifier) returns (t: Service)
    requires PlanCopies(gs, tree, flat, plan, stamps) && Covers(tree, flat) && StepsOk(flat, stepsF) && id in AllIds(flat)
    ensures t in tree && id in IterIds(flat[t.serviceGroup][0]) && stepsF[id] == IterStep(flat[t.serviceGroup][0], id)
    ensures id.stamp == Unstamped()
  {
    hide ServiceCopies, IterIds;
    var sg :| sg in flat && id in ServiceIds(flat[sg]);
    t :| t in tree && t.serviceGroup == sg;
    var f := flat[sg][0];
    assert flat[sg] == [f];
    SingleService(f);
    FlatIds(f);
    var it := FinalStepIs([f], id);
    assert ServiceStepsOk(flat[sg], stepsF);
  }

  lemma CopiedNode(gs: map<string, StampedRecord>, tree: set<Service>, flat: Plan, plan: Plan, stamps: set<Stamp>,
                   stepsF: map<Identifier, Step>, stepsS: map<Identifier, Step>, id: Identifier, s: Stamp)
    requires PlanCopies(gs, tree, flat, plan, stamps) && Covers(tree, flat)
    requires StepsOk(flat, stepsF) && StepsOk(plan, stepsS) && id in AllIds(flat) && s in stamps
    ensures Lift(gs, id, s) in stepsS && stepsS[Lift(gs, id, s)] == stepsF[id]
  {
    hide ServiceCopies, IterIds, Lift;
    var t := FlatNode(gs, tree, flat, plan, stamps, stepsF, id);
    StepLift(gs, flat[t.serviceGroup][0], plan[t.serviceGroup], stamps, id, s);
    assert ServiceStepsOk(plan[t.serviceGroup], stepsS);
  }

  lemma UncopiedNode(gs: map<string, StampedRecord>, tree: set<Service>, flat: Plan, plan: Plan, stamps: set<Stamp>, id': Identifier)
    returns (id: Identifier, s: Stamp)
    requires PlanCopies(gs, tree, flat, plan, stamps) && Covers(tree, plan) && id' in AllIds(plan)
    ensures id in AllIds(flat) && s in stamps && id' == Lift(gs, id, s)
  {
    hide ServiceCopies, IterIds, Lift;
    var sg :| sg in plan && id' in ServiceIds(plan[sg]);
    var t :| t in tree && t.serviceGroup == sg;
    var f := flat[sg][0];
    ServiceLiftIds(gs, f, plan[sg], stamps);
    id, s :| id in IterIds(f) && s in stamps && id' == Lift(gs, id, s);
    assert f in flat[sg];
    assert id in ServiceIds(flat[sg]);
  }

  lemma ExternalEdgesLift(gs: map<string, StampedRecord>, gs': map<string, StampedRecord>, tree: set<Service>, flat: Plan, plan: Plan,
                          stamps: set<Stamp>, stepsF: map<Identifier, Step>, stepsS: map<Identifier, Step>)
    requires PlanCopies(gs, tree, flat, plan, stamps) && Covers(tree, flat) && Covers(tree, plan)
    requires StepsOk(flat, stepsF) && StepsOk(plan, stepsS) && RecordsAgree(flat, gs, gs')
    requires AllExternalOk(stepsF, gs)
    ensures ExternalEdges(stepsS, gs') == LiftEdges(gs, ExternalEdges(stepsF, gs), stamps)
  {
    hide PlanCopies, Covers, ServiceStepsOk, RecordsAgree, AllIds, Lift, ExternalOk, ExternalParent;
    forall e | e in ExternalEdges(stepsS, gs') ensures e in LiftEdges(gs, ExternalEdges(stepsF, gs), stamps) {
      var d :| d in stepsS[e.to].externalDependsOn && e.from == ExternalParent(gs', e.to, d);
      var id, s := UncopiedNode(gs, tree, flat, plan, stamps, e.to);
      var t := FlatNode(gs, tree, flat, plan, stamps, stepsF, id);
      CopiedNode(gs, tree, flat, plan, stamps, stepsF, stepsS, id, s);
      ExternalParentLift(flat, gs, gs', stepsF, id, d, s);
      assert Edge(ExternalParent(gs, id, d), id) in ExternalInto(gs, id, stepsF[id].externalDependsOn);
      assert Edge(ExternalParent(gs, id, d), id) in ExternalEdges(stepsF, gs);
    }
    forall e, s | e in ExternalEdges(stepsF, gs) && s in stamps
      ensures Edge(Lift(gs, e.from, s), Lift(gs, e.to, s)) in ExternalEdges(stepsS, gs')
    {
      var d :| d in stepsF[e.to].externalDependsOn && e.from == ExternalParent(gs, e.to, d);
      var t := FlatNode(gs, tree, flat, plan, stamps, stepsF, e.to);
      CopiedNode(gs, tree, flat, plan, stamps, stepsF, stepsS, e.to, s);
      ExternalParentLift(flat, gs, gs', stepsF, e.to, d, s);
      var id' := Lift(gs, e.to, s);
      assert Edge(ExternalParent(gs', id', d), id') in ExternalInto(gs', id', stepsS[id'].externalDependsOn);
    }
  }

  // ----- whole graphs

  lemma LiftUnion(gs: map<string, StampedRecord>, a: set<Link>, b: set<Link>, stamps: set<Stamp>)
    ensures LiftEdges(gs, a + b, stamps) == LiftEdges(gs, a, stamps) + LiftEdges(gs, b, stamps)
  {
    hide Lift;
  }

  /** Copies for one stamp are equal only if the flat nodes are. */
  lemma LiftWithoutLoops(gs: map<string, StampedRecord>, edges: set<Link>, stamps: set<Stamp>)
    requires forall e :: e in edges ==> e.from.stamp == Unstamped() && e.to.stamp == Unstamped()
    ensures WithoutLoops(LiftEdges(gs, edges, stamps)) == LiftEdges(gs, WithoutLoops(edges), stamps)
  {
    forall e, s | e in edges && s in stamps ensures Lift(gs, e.from, s) == Lift(gs, e.to, s) <==> e.from == e.to {
      LiftFlatten(gs, e.from, s);
      LiftFlatten(gs, e.to, s);
    }
  }

  /** The two plans of one tree: stamped pipelines have the shape of the flat ones. */
  ghost predicate SameShapes(tree: set<Service>, flat: Plan, plan: Plan) {
    forall t, it, f ::
      (t in tree && t.serviceGroup in flat && t.serviceGroup in plan && it in plan[t.serviceGroup] && f in flat[t.serviceGroup])
      ==> SameShape(f.pipeline, it.pipeline)
  }

  function SetStampsOf(sp: StampPipelines): set<Stamp> {
    set st | st in sp && st.IsSet()
  }

  lemma ServiceIsCopied(t: Service, pipelines: map<string, Pipeline>, sp: StampPipelines, flat: seq<StampIteration>, its: seq<StampIteration>,
                        gs: map<string, StampedRecord>, groups: map<GroupKey, GroupMeta>)
    requires Expanded(t, map[Unstamped() := pipelines], flat) && Expanded(t, sp, its) && SomeStampSet(sp)
    requires forall it :: it in flat || it in its ==> WellFormed(it.pipeline)
    requires forall it, f :: it in its && f in flat ==> SameShape(f.pipeline, it.pipeline)
    requires forall f :: f in flat ==> Registered(gs, groups, f)
    ensures |flat| == 1 && flat[0].stamp == Unstamped() && ServiceCopies(gs, flat[0], its, SetStampsOf(sp))
  {
    hide WellFormed, SameShape;
    var f := flat[0];
    assert f in flat;
    DeclaredByRecord(gs, groups, f);
    if t.IsStamped() {
      forall it | it in its ensures Copies(gs, f, it, it.stamp) {
        SameShapeUnique(f);
      }
    } else {
      var it := its[0];
      assert it in its;
      forall s | s in SetStampsOf(sp) ensures Copies(gs, f, it, s) {
        SameShapeUnique(f);
      }
      var st :| st in sp && st.IsSet();
      assert st in SetStampsOf(sp);
    }
  }

  lemma SameShapeUnique(f: StampIteration)
    requires WellFormed(f.pipeline)
    ensures UniqueGroups(f.pipeline)
  {
  }

  lemma DeclaredByRecord(gs: map<string, StampedRecord>, groups: map<GroupKey, GroupMeta>, f: StampIteration)
    requires Registered(gs, groups, f)
    ensures Declares(gs, f.pipeline)
  {
  }

  /** The two builds of one tree that the theorems below compare. */
  ghost predicate TwoBuilds(roots: seq<Service>, pipelines: map<string, Pipeline>, sp: StampPipelines,
                            flat: Plan, gs: map<string, StampedRecord>, g: Graph,
                            plan: Plan, gs': map<string, StampedRecord>, g': Graph) {
    && GraphOf(roots, map[Unstamped() := pipelines], flat, gs, g)
    && GraphOf(roots, sp, plan, gs', g')
    && SomeStampSet(sp)
    && SameShapes(ForestSubtrees(roots), flat, plan)
  }

  lemma BuildsCover(roots: seq<Service>, sp: StampPipelines, plan: Plan, gs: map<string, StampedRecord>, g: Graph)
    requires GraphOf(roots, sp, plan, gs, g)
    ensures Covers(ForestSubtrees(roots), plan)
    ensures forall t :: t in ForestSubtrees(roots) ==> t.serviceGroup in plan && Expanded(t, sp, plan[t.serviceGroup])
    ensures forall t, c :: t in ForestSubtrees(roots) && c in t.children ==> c in ForestSubtrees(roots)
  {
    hide PlanOk, StepsOk, AllRegistered, AllExternalOk, ForestEdges, ExternalEdges, Expanded, AllIds;
    ForestGroupsAreNames(roots);
    ForestClosed(roots);
  }

  lemma TwoBuildsAre(roots: seq<Service>, pipelines: map<string, Pipeline>, sp: StampPipelines,
                     flat: Plan, gs: map<string, StampedRecord>, g: Graph, plan: Plan, gs': map<string, StampedRecord>, g': Graph)
    requires TwoBuilds(roots, pipelines, sp, flat, gs, g, plan, gs', g')
    ensures GraphOf(roots, map[Unstamped() := pipelines], flat, gs, g) && GraphOf(roots, sp, plan, gs', g')
    ensures SomeStampSet(sp) && SameShapes(ForestSubtrees(roots), flat, plan)
  {
  }

  lemma BuildParts(roots: seq<Service>, sp: StampPipelines, plan: Plan, gs: map<string, StampedRecord>, g: Graph)
    requires GraphOf(roots, sp, plan, gs, g)
    ensures PlanOk(plan) && AllRegistered(gs, g.resourceGroups, plan)
  {
  }

  lemma PlanPart(plan: Plan, gs: map<string, StampedRecord>, groups: map<GroupKey, GroupMeta>, sg: string)
    requires PlanOk(plan) && AllRegistered(gs, groups, plan) && sg in plan
    ensures forall it :: it in plan[sg] ==> WellFormed(it.pipeline) && Registered(gs, groups, it)
  {
    hide WellFormed, Registered;
  }

  lemma ShapesOf(tree: set<Service>, flat: Plan, plan: Plan, t: Service)
    requires SameShapes(tree, flat, plan) && t in tree && t.serviceGroup in flat && t.serviceGroup in plan
    ensures forall it, f :: it in plan[t.serviceGroup] && f in flat[t.serviceGroup] ==> SameShape(f.pipeline, it.pipeline)
  {
    hide SameShape;
  }

  lemma CopiesOf(gs: map<string, StampedRecord>, tree: set<Service>, flat: Plan, plan: Plan, sp: StampPipelines)
    requires SomeStampSet(sp) && Covers(tree, flat) && Covers(tree, plan)
    requires forall t :: t in tree ==> t.serviceGroup in flat && t.serviceGroup in plan
    requires forall t :: t in tree ==> |flat[t.serviceGroup]| == 1 && flat[t.serviceGroup][0].stamp == Unstamped()
    requires forall t :: t in tree ==> ServiceCopies(gs, flat[t.serviceGroup][0], plan[t.serviceGroup], SetStampsOf(sp))
    requires forall t, c :: t in tree && c in t.children ==> c in tree
    ensures PlanCopies(gs, tree, flat, plan, SetStampsOf(sp))
  {
    hide ServiceCopies;
    var st :| st in sp && st.IsSet();
    assert st in SetStampsOf(sp);
  }

  lemma BuildsCopy(roots: seq<Service>, pipelines: map<string, Pipeline>, sp: StampPipelines,
                   flat: Plan, gs: map<string, StampedRecord>, g: Graph, plan: Plan, gs': map<string, StampedRecord>, g': Graph)
    requires TwoBuilds(roots, pipelines, sp, flat, gs, g, plan, gs', g')
    ensures PlanCopies(gs, ForestSubtrees(roots), flat, plan, SetStampsOf(sp))
  {
    hide *;
    var one: StampPipelines := map[Unstamped() := pipelines];
    var tree, stamps := ForestSubtrees(roots), SetStampsOf(sp);
    TwoBuildsAre(roots, pipelines, sp, flat, gs, g, plan, gs', g');
    BuildsCover(roots, one, flat, gs, g);
    BuildsCover(roots, sp, plan, gs', g');
    BuildParts(roots, one, flat, gs, g);
    BuildParts(roots, sp, plan, gs', g');
    forall t | t in ForestSubtrees(roots)
      ensures |flat[t.serviceGroup]| == 1 && flat[t.serviceGroup][0].stamp == Unstamped()
      ensures ServiceCopies(gs, flat[t.serviceGroup][0], plan[t.serviceGroup], SetStampsOf(sp))
    {
      PlanPart(flat, gs, g.resourceGroups, t.serviceGroup);
      PlanPart(plan, gs', g'.resourceGroups, t.serviceGroup);
      ShapesOf(tree, flat, plan, t);
      ServiceIsCopied(t, pipelines, sp, flat[t.serviceGroup], plan[t.serviceGroup], gs, g.resourceGroups);
    }
    CopiesOf(gs, tree, flat, plan, sp);
  }

  lemma GroupAgrees(f: StampIteration, it: StampIteration, s: Stamp, gs: map<string, StampedRecord>, gs': map<string, StampedRecord>, id: Identifier)
    requires Copies(gs, f, it, s) && Declares(gs', it.pipeline) && id in IterIds(f)
    ensures id.resourceGroup in gs && id.resourceGroup in gs' && gs[id.resourceGroup].stamped == gs'[id.resourceGroup].stamped
  {
    var rg, step :| rg in f.pipeline.resourceGroups && step in rg.steps && StepId(f, rg, step) == id;
    var rg' := SameShapeGroup(f.pipeline, it.pipeline, rg);
  }

  lemma CopyFor(gs: map<string, StampedRecord>, f: StampIteration, its: seq<StampIteration>, stamps: set<Stamp>, s: Stamp)
    returns (it: StampIteration)
    requires ServiceCopies(gs, f, its, stamps) && s in stamps
    ensures it in its && Copies(gs, f, it, s)
  {
    hide Copies, WellFormed;
    it :| it in its && Copies(gs, f, it, s);
  }

  lemma BuildsAgree(tree: set<Service>, flat: Plan, plan: Plan, stamps: set<Stamp>,
                    gs: map<string, StampedRecord>, gs': map<string, StampedRecord>,
                    groups': map<GroupKey, GroupMeta>, steps: map<Identifier, Step>)
    requires PlanCopies(gs, tree, flat, plan, stamps) && Covers(tree, flat) && StepsOk(flat, steps)
    requires AllRegistered(gs', groups', plan)
    ensures RecordsAgree(flat, gs, gs')
  {
    hide AllRegistered, IterIds, Copies, Declares, ServiceCopies, Covers, AllIds, ServiceStepsOk;
    var s :| s in stamps;
    forall id | id in AllIds(flat)
      ensures id.resourceGroup in gs && id.resourceGroup in gs' && gs[id.resourceGroup].stamped == gs'[id.resourceGroup].stamped
    {
      var t := FlatNode(gs, tree, flat, plan, stamps, steps, id);
      var f := flat[t.serviceGroup][0];
      var it := CopyFor(gs, f, plan[t.serviceGroup], stamps, s);
      RegisteredIn(gs', groups', plan, t.serviceGroup, it);
      GroupAgrees(f, it, s, gs, gs', id);
    }
  }

  lemma RegisteredIn(gs: map<string, StampedRecord>, groups: map<GroupKey, GroupMeta>, plan: Plan, sg: string, it: StampIteration)
    requires AllRegistered(gs, groups, plan) && sg in plan && it in plan[sg]
    ensures Declares(gs, it.pipeline)
  {
    assert Registered(gs, groups, it);
  }

  /**
    * The stamped graph is the lift of the flat one: its edges are the pairs of copies, for one common stamp, of the
    * two ends of a flat edge.
    */
  lemma StampedGraphIsLift(roots: seq<Service>, pipelines: map<string, Pipeline>, sp: StampPipelines,
                           flat: Plan, gs: map<string, StampedRecord>, g: Graph,
                           plan: Plan, gs': map<string, StampedRecord>, g': Graph)
    requires TwoBuilds(roots, pipelines, sp, flat, gs, g, plan, gs', g')
    ensures ParentEdges(g'.nodes) == LiftEdges(gs, ParentEdges(g.nodes), SetStampsOf(sp))
    ensures ChildEdges(g'.nodes) == LiftEdges(gs, ChildEdges(g.nodes), SetStampsOf(sp))
  {
    hide WellFormed, SameShape, Expanded, ServiceCopies, TreeRecorded, StepEdges, TopologyEdges, ExternalEdges,
      AllExternalOk, AllRegistered, AllIds, StepsOk, PlanOk, SameShapes, EdgesInside, Ids, Lift, PlanCopies;
    var tree, stamps := ForestSubtrees(roots), SetStampsOf(sp);
    BuildsCopy(roots, pipelines, sp, flat, gs, g, plan, gs', g');
    BuildsCover(roots, map[Unstamped() := pipelines], flat, gs, g);
    BuildsCover(roots, sp, plan, gs', g');
    BuildsAgree(tree, flat, plan, stamps, gs, gs', g'.resourceGroups, g.steps);
    StepEdgesLift(gs, tree, flat, plan, stamps);
    TopologyEdgesLift(gs, tree, flat, plan, stamps);
    ExternalEdgesLift(gs, gs', tree, flat, plan, stamps, g.steps, g'.steps);
    FlatExternal(gs, tree, flat, plan, stamps, g.steps);
    var ext := ExternalEdges(g.steps, gs);
    LiftWithoutLoops(gs, ext, stamps);
    LiftUnion(gs, StepEdges(tree, flat), TopologyEdges(tree, flat), stamps);
    LiftUnion(gs, ForestEdges(tree, flat), ext, stamps);
    LiftUnion(gs, ForestEdges(tree, flat), WithoutLoops(ext), stamps);
  }

  lemma FlatExternal(gs: map<string, StampedRecord>, tree: set<Service>, flat: Plan, plan: Plan, stamps: set<Stamp>, steps: map<Identifier, Step>)
    requires PlanCopies(gs, tree, flat, plan, stamps) && Covers(tree, flat) && StepsOk(flat, steps)
    ensures forall e :: e in ExternalEdges(steps, gs) ==> e.from.stamp == Unstamped() && e.to.stamp == Unstamped()
  {
    hide PlanCopies, Covers, ServiceStepsOk, AllIds;
    forall e | e in ExternalEdges(steps, gs) ensures e.from.stamp == Unstamped() && e.to.stamp == Unstamped() {
      var t := FlatNode(gs, tree, flat, plan, stamps, steps, e.to);
    }
  }

  /** Every edge of a flat graph joins unstamped nodes. */
  lemma FlatGraphUnstamped(roots: seq<Service>, pipelines: map<string, Pipeline>, sp: StampPipelines,
                           flat: Plan, gs: map<string, StampedRecord>, g: Graph, plan: Plan, gs': map<string, StampedRecord>, g': Graph)
    requires TwoBuilds(roots, pipelines, sp, flat, gs, g, plan, gs', g')
    ensures forall id :: id in Ids(g.nodes) ==> id.stamp == Unstamped()
    ensures forall e :: e in ChildEdges(g.nodes) ==> e.from.stamp == Unstamped() && e.to.stamp == Unstamped()
  {
    hide WellFormed, SameShape, Expanded, ServiceCopies, TreeRecorded, ForestEdges, ExternalEdges,
      AllExternalOk, AllRegistered, AllIds, StepsOk, PlanOk, SameShapes, EdgesInside, Ids, Lift, PlanCopies;
    BuildsCopy(roots, pipelines, sp, flat, gs, g, plan, gs', g');
    BuildsCover(roots, map[Unstamped() := pipelines], flat, gs, g);
    NodesPassLookup(roots, map[Unstamped() := pipelines], flat, gs, g);
    forall id | id in Ids(g.nodes) ensures id.stamp == Unstamped() {
      var t := FlatNode(gs, ForestSubtrees(roots), flat, plan, SetStampsOf(sp), g.steps, id);
    }
  }

  function Image(p: seq<Identifier>, f: Identifier -> Identifier): seq<Identifier> {
    seq(|p|, i requires 0 <= i < |p| => f(p[i]))
  }

  /** A map that sends edges to edges sends closed paths to closed paths. */
  lemma CyclesMap(edges: set<Link>, edges': set<Link>, f: Identifier -> Identifier)
    requires forall e :: e in edges ==> Edge(f(e.from), f(e.to)) in edges'
    requires Acyclic(edges')
    ensures Acyclic(edges)
  {
    forall p | IsPath(edges, p) && |p| >= 2 ensures p[0] != p[|p| - 1] {
      var q := Image(p, f);
      forall i | 0 <= i < |q| - 1 ensures Edge(q[i], q[i + 1]) in edges' {
        assert Edge(p[i], p[i + 1]) in edges;
      }
      assert IsPath(edges', q);
    }
  }

  /** Stamping a graph neither creates nor hides a cycle. */
  lemma StampingKeepsAcyclicity(roots: seq<Service>, pipelines: map<string, Pipeline>, sp: StampPipelines,
                                flat: Plan, gs: map<string, StampedRecord>, g: Graph,
                                plan: Plan, gs': map<string, StampedRecord>, g': Graph)
    requires TwoBuilds(roots, pipelines, sp, flat, gs, g, plan, gs', g')
    ensures Acyclic(ChildEdges(g'.nodes)) <==> Acyclic(ChildEdges(g.nodes))
  {
    StampedGraphIsLift(roots, pipelines, sp, flat, gs, g, plan, gs', g');
    FlatGraphUnstamped(roots, pipelines, sp, flat, gs, g, plan, gs', g');
    LiftKeepsAcyclicity(gs, ChildEdges(g.nodes), sp);
  }

  lemma LiftKeepsAcyclicity(gs: map<string, StampedRecord>, edges: set<Link>, sp: StampPipelines)
    requires SomeStampSet(sp)
    requires forall e :: e in edges ==> e.from.stamp == Unstamped() && e.to.stamp == Unstamped()
    ensures Acyclic(LiftEdges(gs, edges, SetStampsOf(sp))) <==> Acyclic(edges)
  {
    var lifted := LiftEdges(gs, edges, SetStampsOf(sp));
    var s :| s in sp && s.IsSet();
    if Acyclic(lifted) {
      assert s in SetStampsOf(sp);
      assert forall e :: e in edges ==> Edge(Lift(gs, e.from, s), Lift(gs, e.to, s)) in lifted;
      CyclesMap(edges, lifted, id => Lift(gs, id, s));
    }
    if Acyclic(edges) {
      forall e | e in lifted ensures Edge(Flatten(e.from), Flatten(e.to)) in edges {
        var e0, t :| e0 in edges && t in SetStampsOf(sp) && e == Edge(Lift(gs, e0.from, t), Lift(gs, e0.to, t));
        LiftFlatten(gs, e0.from, t);
        LiftFlatten(gs, e0.to, t);
      }
      CyclesMap(lifted, edges, Flatten);
    }
  }
}
