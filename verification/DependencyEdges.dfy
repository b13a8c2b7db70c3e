/** The edges of a graph in terms of the lists that the steps carry and of the service trees. */
module DependencyEdges {
  import opened Reachability
  import opened GraphTypes
  import opened Wrappers
  import opened Pipelines
  import opened ServiceTree
  import opened GraphSpec
  import opened ServicePlans
  import opened StampResolution
  import opened BuilderInvariant
  import opened ExecutionGraph

  /** `id` is the node of a step in one of the expansions of its service. */
  ghost predicate Placed(plan: Plan, sg: string, it: StampIteration, rg: ResourceGroup, st: Step, id: Identifier) {
    && sg in plan && it in plan[sg] && rg in it.pipeline.resourceGroups && st in rg.steps
    && id == Identifier(if rg.meta.stamped then it.stamp else Unstamped(), sg, rg.meta.name, st.name)
  }

  /** In one expansion the step at the end lists the one at the beginning. */
  ghost predicate InnerEdge(plan: Plan, e: Link) {
    exists sg, it, rg, st, rg', st' ::
      && Placed(plan, sg, it, rg, st, e.to) && Placed(plan, sg, it, rg', st', e.from)
      && Lists(st, rg'.meta.name, st'.name)
  }

  /** A completion step that no completion step of its expansion lists. */
  ghost predicate Final(plan: Plan, sg: string, id: Identifier) {
    exists it, rg, st ::
      && Placed(plan, sg, it, rg, st, id) && st.completion
      && forall rg', st' :: rg' in it.pipeline.resourceGroups && st' in rg'.steps && st'.completion ==>
           !Lists(st', rg.meta.name, st.name)
  }

  /** A node whose step has empty lists in every expansion that has it. */
  ghost predicate Initial(plan: Plan, sg: string, id: Identifier) {
    && (exists it, rg, st :: Placed(plan, sg, it, rg, st, id))
    && forall it, rg, st :: Placed(plan, sg, it, rg, st, id) ==> st.dependsOn == [] && st.requiredInputs == []
  }

  /** From a final step of a service to an initial step of one of its children, within one stamp. */
  ghost predicate ServiceEdge(roots: seq<Service>, plan: Plan, e: Link) {
    && (e.from.stamp == Unstamped() || e.to.stamp == Unstamped() || e.from.stamp == e.to.stamp)
    && exists s, c ::
         && s in ForestSubtrees(roots) && c in s.children
         && Final(plan, s.serviceGroup, e.from) && Initial(plan, c.serviceGroup, e.to)
  }

  /** From the step an external dependency names, in the stamp of the step that has it if the named group is stamped. */
  ghost predicate ExternalEdge(plan: Plan, steps: map<Identifier, Step>, e: Link) {
    && e.to in steps
    && exists d, it, rg, st ::
         && d in steps[e.to].externalDependsOn
         && Placed(plan, d.serviceGroup, it, rg, st, e.from) && rg.meta.name == d.resourceGroup && st.name == d.step
         && (rg.meta.stamped ==> e.from.stamp == e.to.stamp)
  }

  // ----- edges inside a service

  lemma PlacedIs(plan: Plan, sg: string, it: StampIteration, rg: ResourceGroup, st: Step, id: Identifier)
    requires PlanOk(plan) && Placed(plan, sg, it, rg, st, id)
    ensures WellFormed(it.pipeline) && it.pipeline.serviceGroup == sg && it in PlanOf(plan, sg)
    ensures Has(it, rg, st) && id == StepId(it, rg, st) && id in IterIds(it) && id in ServiceIds(plan[sg]) && id in AllIds(plan)
  {
  }

  lemma PlacedBy(plan: Plan, id: Identifier) returns (sg: string, it: StampIteration, rg: ResourceGroup, st: Step)
    requires PlanOk(plan) && id in AllIds(plan)
    ensures Placed(plan, sg, it, rg, st, id)
  {
    hide WellFormed;
    sg :| sg in plan && id in ServiceIds(plan[sg]);
    it :| it in plan[sg] && id in IterIds(it);
    rg, st :| rg in it.pipeline.resourceGroups && st in rg.steps && StepId(it, rg, st) == id;
  }

  lemma ServiceEdgeIsInner(plan: Plan, sg: string, e: Link)
    requires PlanOk(plan) && sg in plan && e in ServiceEdges(plan[sg])
    ensures InnerEdge(plan, e)
  {
    hide WellFormed, IterEdges;
    var it :| it in plan[sg] && e in IterEdges(it);
    var rg, st, rg', st' := EdgeIsListed(it, e);
    assert Placed(plan, sg, it, rg, st, e.to) && Placed(plan, sg, it, rg', st', e.from);
  }

  lemma InnerEdgesAre(roots: seq<Service>, plan: Plan, e: Link)
    requires PlanOk(plan) && forall sg :: sg in plan <==> exists t :: t in ForestSubtrees(roots) && t.serviceGroup == sg
    ensures e in StepEdges(ForestSubtrees(roots), plan) <==> InnerEdge(plan, e)
  {
    if e in StepEdges(ForestSubtrees(roots), plan) {
      hide InnerEdge, ForestSubtrees, ServiceEdges;
      var s :| s in ForestSubtrees(roots) && e in ServiceEdges(PlanOf(plan, s.serviceGroup));
      ServiceEdgeIsInner(plan, s.serviceGroup, e);
    }
    if InnerEdge(plan, e) {
      hide WellFormed, ForestSubtrees, IterEdges, InnerEdge;
      var sg, it, rg, st, rg', st' := InnerEdgeBy(plan, e);
      InnerEdgeIn(plan, sg, it, rg, st, rg', st', e);
      var t :| t in ForestSubtrees(roots) && t.serviceGroup == sg;
      assert e in ServiceEdges(PlanOf(plan, t.serviceGroup));
    }
  }

  lemma InnerEdgeBy(plan: Plan, e: Link)
    returns (sg: string, it: StampIteration, rg: ResourceGroup, st: Step, rg': ResourceGroup, st': Step)
    requires InnerEdge(plan, e)
    ensures Placed(plan, sg, it, rg, st, e.to) && Placed(plan, sg, it, rg', st', e.from) && Lists(st, rg'.meta.name, st'.name)
  {
    sg, it, rg, st, rg', st' :|
      Placed(plan, sg, it, rg, st, e.to) && Placed(plan, sg, it, rg', st', e.from) && Lists(st, rg'.meta.name, st'.name);
  }

  lemma InnerEdgeIn(plan: Plan, sg: string, it: StampIteration, rg: ResourceGroup, st: Step, rg': ResourceGroup, st': Step, e: Link)
    requires PlanOk(plan) && Placed(plan, sg, it, rg, st, e.to) && Placed(plan, sg, it, rg', st', e.from)
    requires Lists(st, rg'.meta.name, st'.name)
    ensures e in IterEdges(it)
  {
    var rg2, st2 := ListedStep(it, rg, st, StepDependency(rg'.meta.name, st'.name));
    PlacedIs(plan, sg, it, rg, st, e.to);
    PlacedIs(plan, sg, it, rg', st', e.from);
    GroupStampedIs(it.pipeline, rg2);
    GroupStampedIs(it.pipeline, rg');
    assert e == Edge(StepId(it, rg2, st2), StepId(it, rg, st));
  }

  // ----- edges between services

  lemma LeafIsFinal(plan: Plan, sg: string, it: StampIteration, id: Identifier)
    requires PlanOk(plan) && sg in plan && it in plan[sg] && id in IterLeaves(it)
    ensures Final(plan, sg, id)
  {
    hide WellFormed, IterEdges;
    var rg, st :| rg in it.pipeline.resourceGroups && st in rg.steps && st.completion && StepId(it, rg, st) == id;
    assert Placed(plan, sg, it, rg, st, id);
    forall rg', st' | rg' in it.pipeline.resourceGroups && st' in rg'.steps && st'.completion
      ensures !Lists(st', rg.meta.name, st.name)
    {
      var below := StepId(it, rg', st');
      assert below in IterCompletion(it) && Placed(plan, sg, it, rg', st', below);
      if Lists(st', rg.meta.name, st.name) {
        InnerEdgeIn(plan, sg, it, rg', st', rg, st, Edge(id, below));
        assert false;
      }
    }
  }

  lemma FinalIsLeaf(plan: Plan, sg: string, id: Identifier) returns (it: StampIteration)
    requires PlanOk(plan) && Final(plan, sg, id)
    ensures sg in plan && it in plan[sg] && id in IterLeaves(it)
  {
    hide WellFormed, IterEdges;
    var rg, st;
    it, rg, st :|
      && Placed(plan, sg, it, rg, st, id) && st.completion
      && forall rg', st' :: rg' in it.pipeline.resourceGroups && st' in rg'.steps && st'.completion ==>
           !Lists(st', rg.meta.name, st.name);
    PlacedIs(plan, sg, it, rg, st, id);
    assert id in IterCompletion(it);
    forall e | e in IterEdges(it) && e.from == id ensures e.to !in IterCompletion(it) {
      var rg', st', rg2, st2 := EdgeIsListed(it, e);
      StepIdInjective(it, rg, st, rg2, st2);
      if e.to in IterCompletion(it) {
        var rg3, st3 :| rg3 in it.pipeline.resourceGroups && st3 in rg3.steps && st3.completion && StepId(it, rg3, st3) == e.to;
        StepIdInjective(it, rg', st', rg3, st3);
        assert false;
      }
    }
  }

  lemma NothingAboveRoot(its: seq<StampIteration>, it: StampIteration, above: Identifier, id: Identifier)
    requires it in its && id in ServiceRoots(its)
    ensures Edge(above, id) !in IterEdges(it)
  {
    assert Edge(above, id) in IterEdges(it) ==> Edge(above, id) in ServiceEdges(its);
  }

  lemma RootIsInitial(plan: Plan, sg: string, id: Identifier)
    requires PlanOk(plan) && sg in plan && id in ServiceRoots(plan[sg])
    ensures Initial(plan, sg, id)
  {
    hide WellFormed, IterEdges;
    var it :| it in plan[sg] && id in IterIds(it);
    var rg, st :| rg in it.pipeline.resourceGroups && st in rg.steps && StepId(it, rg, st) == id;
    assert Placed(plan, sg, it, rg, st, id);
    forall it, rg, st | Placed(plan, sg, it, rg, st, id) ensures st.dependsOn == [] && st.requiredInputs == [] {
      PlacedIs(plan, sg, it, rg, st, id);
      if st.dependsOn != [] {
        var rg', st' := ListedStep(it, rg, st, st.dependsOn[0]);
        NothingAboveRoot(plan[sg], it, StepId(it, rg', st'), id);
      } else if st.requiredInputs != [] {
        var rg', st' := ListedStep(it, rg, st, st.requiredInputs[0]);
        NothingAboveRoot(plan[sg], it, StepId(it, rg', st'), id);
      }
    }
  }

  lemma InitialIsRoot(plan: Plan, sg: string, id: Identifier)
    requires PlanOk(plan) && Initial(plan, sg, id)
    ensures sg in plan && id in ServiceRoots(plan[sg])
  {
    hide WellFormed, IterEdges;
    var it, rg, st :| Placed(plan, sg, it, rg, st, id);
    PlacedIs(plan, sg, it, rg, st, id);
    forall e | e in ServiceEdges(plan[sg]) ensures e.to != id {
      var it' :| it' in plan[sg] && e in IterEdges(it');
      var rg1, st1, rg2, st2 := EdgeIsListed(it', e);
      assert Placed(plan, sg, it', rg1, st1, e.to);
    }
  }

  lemma ServiceEdgesAre(roots: seq<Service>, plan: Plan, e: Link)
    requires PlanOk(plan) && Planned(ForestSubtrees(roots), plan)
    ensures e in TopologyEdges(ForestSubtrees(roots), plan) <==> ServiceEdge(roots, plan, e)
  {
    hide PlanOk, IterLeaves, ServiceRoots, Final, Initial, ForestSubtrees;
    if e in TopologyEdges(ForestSubtrees(roots), plan) {
      var s, c :|
        && s in ForestSubtrees(roots) && c in s.children
        && e in WireEdges(PlanOf(plan, s.serviceGroup), PlanOf(plan, c.serviceGroup));
      var it :| it in plan[s.serviceGroup] && e.from in IterLeaves(it);
      LeafIsFinal(plan, s.serviceGroup, it, e.from);
      RootIsInitial(plan, c.serviceGroup, e.to);
    }
    if ServiceEdge(roots, plan, e) {
      var s, c :|
        && s in ForestSubtrees(roots) && c in s.children
        && Final(plan, s.serviceGroup, e.from) && Initial(plan, c.serviceGroup, e.to);
      var it := FinalIsLeaf(plan, s.serviceGroup, e.from);
      InitialIsRoot(plan, c.serviceGroup, e.to);
      assert e.from in ServiceLeaves(plan[s.serviceGroup]);
      assert e == Edge(e.from, e.to);
      assert e in WireEdges(PlanOf(plan, s.serviceGroup), PlanOf(plan, c.serviceGroup));
    }
  }

  // ----- external dependencies

  lemma TargetIsPlaced(plan: Plan, gs: map<string, StampedRecord>, groups: map<GroupKey, GroupMeta>, id: Identifier, d: ExternalDependency)
    returns (it: StampIteration, rg: ResourceGroup, st: Step)
    requires PlanOk(plan) && AllRegistered(gs, groups, plan) && ExternalParent(gs, id, d) in AllIds(plan)
    ensures var from := ExternalParent(gs, id, d);
            && Placed(plan, d.serviceGroup, it, rg, st, from) && rg.meta.name == d.resourceGroup && st.name == d.step
            && (rg.meta.stamped ==> from.stamp == id.stamp)
  {
    hide WellFormed, MetaEqual;
    var sg;
    sg, it, rg, st := PlacedBy(plan, ExternalParent(gs, id, d));
    assert Registered(gs, groups, it);
  }

  lemma PlacedIsTarget(plan: Plan, gs: map<string, StampedRecord>, groups: map<GroupKey, GroupMeta>, id: Identifier, d: ExternalDependency,
                       it: StampIteration, rg: ResourceGroup, st: Step, from: Identifier)
    requires AllRegistered(gs, groups, plan)
    requires Placed(plan, d.serviceGroup, it, rg, st, from) && rg.meta.name == d.resourceGroup && st.name == d.step
    requires rg.meta.stamped ==> from.stamp == id.stamp
    ensures from == ExternalParent(gs, id, d)
  {
    hide MetaEqual;
    assert Registered(gs, groups, it);
  }

  lemma ExternalEdgesMean(plan: Plan, gs: map<string, StampedRecord>, groups: map<GroupKey, GroupMeta>, steps: map<Identifier, Step>, e: Link)
    requires PlanOk(plan) && AllRegistered(gs, groups, plan) && StepsOk(plan, steps) && AllExternalOk(steps, gs)
    ensures e in ExternalEdges(steps, gs) <==> ExternalEdge(plan, steps, e)
  {
    hide PlanOk, AllRegistered, ServiceStepsOk, AllIds, Placed, ExternalParent;
    if e in ExternalEdges(steps, gs) {
      var d := DependencyOf(steps, gs, e);
      assert ExternalOk(steps, gs, e.to, d);
      var it, rg, st := TargetIsPlaced(plan, gs, groups, e.to, d);
    }
    if ExternalEdge(plan, steps, e) {
      var d, it, rg, st :|
        && d in steps[e.to].externalDependsOn
        && Placed(plan, d.serviceGroup, it, rg, st, e.from) && rg.meta.name == d.resourceGroup && st.name == d.step
        && (rg.meta.stamped ==> e.from.stamp == e.to.stamp);
      PlacedIsTarget(plan, gs, groups, e.to, d, it, rg, st, e.from);
      assert e == Edge(ExternalParent(gs, e.to, d), e.to);
      assert e in ExternalInto(gs, e.to, steps[e.to].externalDependsOn);
    }
  }

  // ----- whole graphs

  lemma PartsOf(roots: seq<Service>, sp: StampPipelines, plan: Plan, gs: map<string, StampedRecord>, g: Graph)
    requires GraphParts(roots, sp, plan, gs, g)
    ensures PlanOk(plan) && StepsOk(plan, g.steps) && AllRegistered(gs, g.resourceGroups, plan) && AllExternalOk(g.steps, gs)
    ensures forall sg :: sg in plan <==> exists t :: t in ForestSubtrees(roots) && t.serviceGroup == sg
    ensures Planned(ForestSubtrees(roots), plan)
    ensures ParentEdges(g.nodes) ==
      StepEdges(ForestSubtrees(roots), plan) + TopologyEdges(ForestSubtrees(roots), plan) + ExternalEdges(g.steps, gs)
  {
    hide PlanOk, StepsOk, AllRegistered, AllExternalOk, StepEdges, TopologyEdges, ExternalEdges, Expanded, NoDuplicates;
    ForestGroupsAreNames(roots);
    ForestClosed(roots);
  }

  lemma ChildrenOf(roots: seq<Service>, sp: StampPipelines, plan: Plan, gs: map<string, StampedRecord>, g: Graph,
                   loops: set<Link>, lost: set<Link>, e: Link)
    requires GraphUpTo(roots, sp, plan, gs, g, loops, lost)
    ensures var inner := e in StepEdges(ForestSubtrees(roots), plan) || e in TopologyEdges(ForestSubtrees(roots), plan);
            e in ChildEdges(g.nodes) <==> e in loops || (e !in lost && (inner || (e in ExternalEdges(g.steps, gs) && e.from != e.to)))
  {
    hide GraphParts, Displaced, StepEdges, TopologyEdges, ExternalEdges;
  }

  lemma ExactIsUpToNothing(roots: seq<Service>, sp: StampPipelines, plan: Plan, gs: map<string, StampedRecord>, g: Graph)
    requires GraphOf(roots, sp, plan, gs, g)
    ensures GraphUpTo(roots, sp, plan, gs, g, {}, {})
  {
    hide GraphParts, ForestEdges, ExternalEdges, WithoutLoops;
  }

  /** The parents' side has the edges inside services, from services to their children, and of external dependencies, and no others. */
  lemma ParentsAre(roots: seq<Service>, sp: StampPipelines, plan: Plan, gs: map<string, StampedRecord>, g: Graph, e: Link)
    requires GraphParts(roots, sp, plan, gs, g)
    ensures e in ParentEdges(g.nodes) <==> InnerEdge(plan, e) || ServiceEdge(roots, plan, e) || ExternalEdge(plan, g.steps, e)
  {
    PartsOf(roots, sp, plan, gs, g);
    hide *;
    InnerEdgesAre(roots, plan, e);
    ServiceEdgesAre(roots, plan, e);
    ExternalEdgesMean(plan, gs, g.resourceGroups, g.steps, e);
  }

  /** The children's side has the same, without the loops of external dependencies and up to the displaced edges. */
  lemma ChildrenAre(roots: seq<Service>, sp: StampPipelines, plan: Plan, gs: map<string, StampedRecord>, g: Graph,
                    loops: set<Link>, lost: set<Link>, e: Link)
    requires GraphUpTo(roots, sp, plan, gs, g, loops, lost)
    ensures e in ChildEdges(g.nodes) <==>
      e in loops || (e !in lost && (InnerEdge(plan, e) || ServiceEdge(roots, plan, e) || (ExternalEdge(plan, g.steps, e) && e.from != e.to)))
  {
    PartsOf(roots, sp, plan, gs, g);
    ChildrenOf(roots, sp, plan, gs, g, loops, lost, e);
    hide *;
    InnerEdgesAre(roots, plan, e);
    ServiceEdgesAre(roots, plan, e);
    ExternalEdgesMean(plan, gs, g.resourceGroups, g.steps, e);
  }

  /** Whatever a step lists, be it a dependency or a required input, is a node of the graph and comes before the step on both sides. */
  lemma ListedComesFirst(roots: seq<Service>, sp: StampPipelines, plan: Plan, gs: map<string, StampedRecord>, g: Graph,
                         sg: string, it: StampIteration, rg: ResourceGroup, st: Step, id: Identifier, d: StepDependency)
    returns (rg': ResourceGroup, st': Step, from: Identifier)
    requires GraphParts(roots, sp, plan, gs, g)
    requires Placed(plan, sg, it, rg, st, id) && (d in st.dependsOn || d in st.requiredInputs)
    ensures Placed(plan, sg, it, rg', st', from) && rg'.meta.name == d.resourceGroup && st'.name == d.step
    ensures Edge(from, id) in ParentEdges(g.nodes)
    ensures forall loops, lost :: GraphUpTo(roots, sp, plan, gs, g, loops, lost) ==> Edge(from, id) in ChildEdges(g.nodes) + lost
    ensures GraphOf(roots, sp, plan, gs, g) ==> Edge(from, id) in ChildEdges(g.nodes)
  {
    PartsOf(roots, sp, plan, gs, g);
    rg', st', from := ListedIsInner(plan, sg, it, rg, st, id, d);
    hide *;
    var e := Edge(from, id);
    ParentsAre(roots, sp, plan, gs, g, e);
    forall loops, lost | GraphUpTo(roots, sp, plan, gs, g, loops, lost) ensures e in ChildEdges(g.nodes) + lost {
      ChildrenAre(roots, sp, plan, gs, g, loops, lost, e);
    }
    if GraphOf(roots, sp, plan, gs, g) {
      ExactIsUpToNothing(roots, sp, plan, gs, g);
      ChildrenAre(roots, sp, plan, gs, g, {}, {}, e);
    }
  }

  lemma ListedIsInner(plan: Plan, sg: string, it: StampIteration, rg: ResourceGroup, st: Step, id: Identifier, d: StepDependency)
    returns (rg': ResourceGroup, st': Step, from: Identifier)
    requires PlanOk(plan) && Placed(plan, sg, it, rg, st, id) && (d in st.dependsOn || d in st.requiredInputs)
    ensures Placed(plan, sg, it, rg', st', from) && rg'.meta.name == d.resourceGroup && st'.name == d.step
    ensures InnerEdge(plan, Edge(from, id))
  {
    PlacedIs(plan, sg, it, rg, st, id);
    hide PlanOk, WellFormed, IterEdges;
    rg', st' := ListedStep(it, rg, st, d);
    from := Identifier(if rg'.meta.stamped then it.stamp else Unstamped(), sg, rg'.meta.name, st'.name);
    var e := Edge(from, id);
    assert Placed(plan, sg, it, rg, st, e.to) && Placed(plan, sg, it, rg', st', e.from);
    assert Lists(st, rg'.meta.name, st'.name);
  }

  lemma ExternalTarget(plan: Plan, gs: map<string, StampedRecord>, groups: map<GroupKey, GroupMeta>, steps: map<Identifier, Step>,
                       id: Identifier, d: ExternalDependency)
    returns (it: StampIteration, rg: ResourceGroup, st: Step, from: Identifier)
    requires PlanOk(plan) && AllRegistered(gs, groups, plan) && StepsOk(plan, steps) && AllExternalOk(steps, gs)
    requires id in steps && d in steps[id].externalDependsOn
    ensures Placed(plan, d.serviceGroup, it, rg, st, from) && rg.meta.name == d.resourceGroup && st.name == d.step
    ensures (rg.meta.stamped ==> from.stamp == id.stamp) && ExternalEdge(plan, steps, Edge(from, id))
  {
    hide PlanOk, AllRegistered, AllIds, ServiceStepsOk, Placed;
    assert ExternalOk(steps, gs, id, d);
    from := ExternalParent(gs, id, d);
    it, rg, st := TargetIsPlaced(plan, gs, groups, id, d);
    assert Edge(from, id).to == id && Edge(from, id).from == from;
  }

  /** The step an external dependency names is a node of the graph, in the right stamp, and comes before the step that has it. */
  lemma ExternalComesFirst(roots: seq<Service>, sp: StampPipelines, plan: Plan, gs: map<string, StampedRecord>, g: Graph,
                           id: Identifier, d: ExternalDependency)
    returns (it: StampIteration, rg: ResourceGroup, st: Step, from: Identifier)
    requires GraphParts(roots, sp, plan, gs, g) && id in g.steps && d in g.steps[id].externalDependsOn
    ensures Placed(plan, d.serviceGroup, it, rg, st, from) && rg.meta.name == d.resourceGroup && st.name == d.step
    ensures rg.meta.stamped ==> from.stamp == id.stamp
    ensures Edge(from, id) in ParentEdges(g.nodes)
    ensures GraphOf(roots, sp, plan, gs, g) && from != id ==> Edge(from, id) in ChildEdges(g.nodes)
  {
    PartsOf(roots, sp, plan, gs, g);
    it, rg, st, from := ExternalTarget(plan, gs, g.resourceGroups, g.steps, id, d);
    var e := Edge(from, id);
    hide *;
    ParentsAre(roots, sp, plan, gs, g, e);
    if GraphOf(roots, sp, plan, gs, g) {
      ExactIsUpToNothing(roots, sp, plan, gs, g);
      ChildrenAre(roots, sp, plan, gs, g, {}, {}, e);
    }
  }

  lemma {:induction false} FinalStepIs(its: seq<StampIteration>, id: Identifier) returns (i: nat, rg: ResourceGroup, st: Step)
    requires id in ServiceIds(its) && forall it :: it in its ==> WellFormed(it.pipeline)
    ensures i < |its| && Has(its[i], rg, st) && StepId(its[i], rg, st) == id && FinalStep(its, id) == st
    ensures forall j :: i < j < |its| ==> id !in IterIds(its[j])
  {
    hide WellFormed;
    var init, last := its[..|its| - 1], its[|its| - 1];
    if id in IterIds(last) {
      i := |its| - 1;
      rg, st :| rg in last.pipeline.resourceGroups && st in rg.steps && StepId(last, rg, st) == id;
      IterStepIs(last, rg, st);
    } else {
      assert its == init + [last];
      i, rg, st := FinalStepIs(init, id);
    }
  }

  /** The step of the last expansion of the service that has the node. */
  ghost predicate LastStep(plan: Plan, sg: string, i: nat, id: Identifier, st: Step) {
    && sg in plan && i < |plan[sg]|
    && (exists rg :: Placed(plan, sg, plan[sg][i], rg, st, id))
    && forall j, rg', st' :: i < j < |plan[sg]| ==> !Placed(plan, sg, plan[sg][j], rg', st', id)
  }

  lemma LastStepIs(plan: Plan, steps: map<Identifier, Step>, id: Identifier) returns (sg: string, i: nat)
    requires PlanOk(plan) && StepsOk(plan, steps) && id in steps
    ensures LastStep(plan, sg, i, id, steps[id])
  {
    hide WellFormed, FinalStep, IterIds;
    var it, rg, st;
    sg, it, rg, st := PlacedBy(plan, id);
    PlacedIs(plan, sg, it, rg, st, id);
    assert ServiceStepsOk(plan[sg], steps);
    i, rg, st := FinalStepIs(plan[sg], id);
    assert Placed(plan, sg, plan[sg][i], rg, st, id);
    forall j, rg', st' | i < j < |plan[sg]| ensures !Placed(plan, sg, plan[sg][j], rg', st', id) {
      if Placed(plan, sg, plan[sg][j], rg', st', id) {
        PlacedIs(plan, sg, plan[sg][j], rg', st', id);
      }
    }
  }

  /** The recorded step of a node is the one of the last expansion that has it. */
  lemma RecordedStepIs(roots: seq<Service>, sp: StampPipelines, plan: Plan, gs: map<string, StampedRecord>, g: Graph, id: Identifier)
    returns (sg: string, i: nat)
    requires GraphParts(roots, sp, plan, gs, g) && id in g.steps
    ensures LastStep(plan, sg, i, id, g.steps[id])
  {
    PartsOf(roots, sp, plan, gs, g);
    hide *;
    sg, i := LastStepIs(plan, g.steps, id);
  }

  /** An edge within one service that is no external dependency comes from a list of the step at its end. */
  lemma InnerComesFromLists(roots: seq<Service>, sp: StampPipelines, plan: Plan, gs: map<string, StampedRecord>, g: Graph, e: Link)
    requires GraphParts(roots, sp, plan, gs, g)
    requires e in ParentEdges(g.nodes) && e.from.serviceGroup == e.to.serviceGroup && !ExternalEdge(plan, g.steps, e)
    ensures InnerEdge(plan, e)
  {
    ParentsAre(roots, sp, plan, gs, g, e);
    if ServiceEdge(roots, plan, e) {
      var s, c := ServiceEdgeBy(roots, plan, e);
      NamesDiffer(roots, sp, plan, gs, g, s, c);
      assert false;
    }
  }

  /** Services occur once, so a child never has the name of its parent. */
  lemma NamesDiffer(roots: seq<Service>, sp: StampPipelines, plan: Plan, gs: map<string, StampedRecord>, g: Graph, s: Service, c: Service)
    requires GraphParts(roots, sp, plan, gs, g) && s in ForestSubtrees(roots) && c in s.children
    ensures s.serviceGroup != c.serviceGroup
  {
    hide PlanOk, StepsOk, AllRegistered, AllExternalOk, ForestEdges, ExternalEdges, Expanded, NoDuplicates, ForestSubtrees, ForestGroups;
    ForestClosed(roots);
    assert g.services[s.serviceGroup] == s && g.services[c.serviceGroup] == c;
    var i :| 0 <= i < |s.children| && s.children[i] == c;
    assert c < s;
  }

  lemma ServiceEdgeBy(roots: seq<Service>, plan: Plan, e: Link) returns (s: Service, c: Service)
    requires ServiceEdge(roots, plan, e)
    ensures s in ForestSubtrees(roots) && c in s.children && e.from.serviceGroup == s.serviceGroup && e.to.serviceGroup == c.serviceGroup
  {
    s, c :|
        && s in ForestSubtrees(roots) && c in s.children
        && Final(plan, s.serviceGroup, e.from) && Initial(plan, c.serviceGroup, e.to);
  }

  // ----- resource groups declared more than once

  /** The same resource group with the same constraints, each naming the same clouds, environments and regions in any order. */
  ghost predicate SameMeta(a: GroupMeta, b: GroupMeta) {
    && a.name == b.name && a.resourceGroup == b.resourceGroup && a.subscription == b.subscription && a.stamped == b.stamped
    && |a.constraints| == |b.constraints|
    && forall i :: 0 <= i < |a.constraints| ==> SameConstraint(a.constraints[i], b.constraints[i])
  }

  ghost predicate SameConstraint(a: ExecutionConstraint, b: ExecutionConstraint) {
    && a.singleton == b.singleton
    && (forall c :: c in a.clouds <==> c in b.clouds)
    && (forall e :: e in a.environments <==> e in b.environments)
    && (forall r :: r in a.regions <==> r in b.regions)
  }

  lemma SameElements(s: seq<string>, t: seq<string>)
    ensures Elements(s) == Elements(t) <==> forall x :: x in s <==> x in t
  {
    if Elements(s) == Elements(t) {
      forall x ensures x in s <==> x in t {
        assert x in s <==> x in Elements(s);
        assert x in t <==> x in Elements(t);
      }
    }
  }

  lemma MetaEqualIs(a: GroupMeta, b: GroupMeta)
    ensures MetaEqual(a, b) <==> SameMeta(a, b)
  {
    forall x: ExecutionConstraint, y: ExecutionConstraint ensures ConstraintEqual(x, y) <==> SameConstraint(x, y) {
      SameElements(x.clouds, y.clouds);
      SameElements(x.environments, y.environments);
      SameElements(x.regions, y.regions);

    }
  }

  /** Two declarations of one name agree on its stamping, and within one stamp on everything else. */
  lemma GroupsAgree(roots: seq<Service>, sp: StampPipelines, plan: Plan, gs: map<string, StampedRecord>, g: Graph,
                    a: StampIteration, rg: ResourceGroup, b: StampIteration, rg': ResourceGroup)
    requires GraphParts(roots, sp, plan, gs, g)
    requires (exists sg :: sg in plan && a in plan[sg]) && (exists sg :: sg in plan && b in plan[sg])
    requires rg in a.pipeline.resourceGroups && rg' in b.pipeline.resourceGroups && rg.meta.name == rg'.meta.name
    ensures rg.meta.stamped == rg'.meta.stamped
    ensures !rg.meta.stamped || a.stamp == b.stamp ==> SameMeta(rg.meta, rg'.meta)
  {
    PartsOf(roots, sp, plan, gs, g);
    hide GraphParts, PlanOk, StepsOk, AllExternalOk, MetaEqual;
    assert Registered(gs, g.resourceGroups, a) && Registered(gs, g.resourceGroups, b);
    if !rg.meta.stamped || a.stamp == b.stamp {
      var recorded := g.resourceGroups[GroupKey(a.stamp.If(rg.meta.stamped), rg.meta.name)];
      MetaEqualEquivalence(rg'.meta, recorded, rg.meta);
      MetaEqualEquivalence(rg.meta, recorded, rg'.meta);
      MetaEqualIs(rg.meta, rg'.meta);
    }
  }

  /** Two expansions clash over a name only if they disagree on its stamping or, within one stamp, on something else. */
  lemma ClashMeans(a: StampIteration, b: StampIteration)
    ensures Clash(a, b) <==>
      || (exists rg, rg' :: rg in a.pipeline.resourceGroups && rg' in b.pipeline.resourceGroups && Disagree(a, rg.meta, b, rg'.meta))
      || (Provides(a) && Provides(b))
  {
    hide MetaEqual, SameMeta;
    forall rg: ResourceGroup, rg': ResourceGroup ensures GroupsClash(a, rg, b, rg') <==> Disagree(a, rg.meta, b, rg'.meta) {
      MetaEqualIs(rg.meta, rg'.meta);
    }
  }

  ghost predicate Disagree(a: StampIteration, meta: GroupMeta, b: StampIteration, meta': GroupMeta) {
    && meta.name == meta'.name
    && (meta.stamped != meta'.stamped || ((!meta.stamped || a.stamp == b.stamp) && !SameMeta(meta, meta')))
  }
}
