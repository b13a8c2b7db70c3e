/** Whole execution graphs: entrypoint lookup, accumulation, external dependencies and the cycle check. */
module ExecutionGraph {
  import opened Wrappers
  import opened Reachability
  import opened GraphTypes
  import opened Pipelines
  import opened ServiceTree
  import opened GraphSpec
  import opened ServicePlans
  import opened PipelineNodes
  import opened StampResolution
  import opened BuilderInvariant
  import opened GraphBuilder
  import opened CycleDetection

  datatype Graph = Graph(
    services: map<string, Service>,
    resourceGroups: map<GroupKey, GroupMeta>,
    subscription: Option<Subscription>,
    steps: map<Identifier, Step>,
    nodes: seq<Node>,
    validationSteps: map<Identifier, Step>)

  datatype Outcome =
    | EntrypointNotFound(group: string)
    | Rejected(error: BuildError)
    | BadDependency(error: BuildError)
    | Cyclic(graph: Graph, cycle: CycleError)
    | Built(graph: Graph)

  /** The services the entrypoints select. */
  ghost predicate Selects(topology: seq<Service>, entrypoints: seq<string>, roots: seq<Service>) {
    && |roots| == |entrypoints|
    && forall i :: 0 <= i < |roots| ==> FindInForest(topology, entrypoints[i]) == Some(roots[i])
  }

  /** `g` has the services, steps, nodes and parents of the trees at `roots`, expanded as `plan` says. */
  ghost predicate GraphParts(roots: seq<Service>, sp: StampPipelines, plan: Plan, gs: map<string, StampedRecord>, g: Graph) {
    && TreeRecorded(map[], map[], ForestGroups(roots), ForestSubtrees(roots), sp, g.services, plan)
    && PlanOk(plan)
    && UniqueIds(g.nodes)
    && Ids(g.nodes) == AllIds(plan)
    && StepsOk(plan, g.steps)
    && AllRegistered(gs, g.resourceGroups, plan) && OneProvider(plan)
    && SubscriptionSourced(g.subscription, plan) && g.validationSteps.Keys == AllValidationIds(plan)
    && AllExternalOk(g.steps, gs)
    && EdgesInside(ForestEdges(ForestSubtrees(roots), plan), AllIds(plan))
    && ParentEdges(g.nodes) == ForestEdges(ForestSubtrees(roots), plan) + ExternalEdges(g.steps, gs)
  }

  /** `g` is the graph of the trees at `roots`, expanded as `plan` says. */
  ghost predicate GraphOf(roots: seq<Service>, sp: StampPipelines, plan: Plan, gs: map<string, StampedRecord>, g: Graph) {
    && GraphParts(roots, sp, plan, gs, g)
    && ChildEdges(g.nodes) == ForestEdges(ForestSubtrees(roots), plan) + WithoutLoops(ExternalEdges(g.steps, gs))
  }

  /** The same, except that some loops are among the children, each of them possibly in the place of another child. */
  ghost predicate GraphUpTo(roots: seq<Service>, sp: StampPipelines, plan: Plan, gs: map<string, StampedRecord>, g: Graph,
                            loops: set<Link>, lost: set<Link>) {
    && GraphParts(roots, sp, plan, gs, g)
    && Displaced(ExternalEdges(g.steps, gs), loops, lost)
    && ChildEdges(g.nodes) == ForestEdges(ForestSubtrees(roots), plan) + WithoutLoops(ExternalEdges(g.steps, gs)) - lost + loops
  }

  /** A loop among the children is a cycle, so an acyclic graph has all its edges. */
  lemma AcyclicIsExact(roots: seq<Service>, sp: StampPipelines, plan: Plan, gs: map<string, StampedRecord>, g: Graph,
                       loops: set<Link>, lost: set<Link>)
    requires GraphUpTo(roots, sp, plan, gs, g, loops, lost)
    requires Acyclic(ChildEdges(g.nodes)) || loops == {}
    ensures GraphOf(roots, sp, plan, gs, g)
  {
    hide GraphParts, ForestEdges, ExternalEdges, WithoutLoops, Acyclic;
    var edges := ChildEdges(g.nodes);
    AcyclicMeansIrreflexive(edges);
    forall e | e in loops ensures false {
      assert e == Edge(e.from, e.from) && e in edges;
      ReachesByEdge(edges, e.from, e.from);
    }
    assert loops == {} && lost == {};
    assert edges == ForestEdges(ForestSubtrees(roots), plan) + WithoutLoops(ExternalEdges(g.steps, gs));
  }

  lemma DependencyOf(steps: map<Identifier, Step>, gs: map<string, StampedRecord>, e: Link) returns (d: ExternalDependency)
    requires e in ExternalEdges(steps, gs)
    ensures e.to in steps && d in steps[e.to].externalDependsOn && e.from == ExternalParent(gs, e.to, d)
  {
    d :| d in steps[e.to].externalDependsOn && e.from == ExternalParent(gs, e.to, d);
  }

  /** Without a step that names itself as an external dependency, all edges are there whether or not there is a cycle. */
  lemma NoSelfDependencyIsExact(roots: seq<Service>, sp: StampPipelines, plan: Plan, gs: map<string, StampedRecord>, g: Graph,
                                loops: set<Link>, lost: set<Link>)
    requires GraphUpTo(roots, sp, plan, gs, g, loops, lost)
    requires forall id, d :: id in g.steps && d in g.steps[id].externalDependsOn ==> ExternalParent(gs, id, d) != id
    ensures GraphOf(roots, sp, plan, gs, g)
  {
    hide GraphParts, ForestEdges, WithoutLoops, ExternalParent;
    forall e | e in loops ensures false {
      var d := DependencyOf(g.steps, gs, e);
    }
    assert loops == {};
    AcyclicIsExact(roots, sp, plan, gs, g, loops, lost);
  }

  /**
    * All services are recorded, with the resource groups the expansions declare and no others, but some external
    * dependency cannot be wired.
    */
  ghost predicate Dangling(roots: seq<Service>, sp: StampPipelines, plan: Plan, gs: map<string, StampedRecord>) {
    exists steps, services, groups ::
      && TreeRecorded(map[], map[], ForestGroups(roots), ForestSubtrees(roots), sp, services, plan)
      && AllRegistered(gs, groups, plan) && Sourced(gs, groups, plan)
      && StepsOk(plan, steps) && !AllExternalOk(steps, gs)
  }

  lemma DanglingIs(roots: seq<Service>, sp: StampPipelines, plan: Plan, gs: map<string, StampedRecord>,
                   steps: map<Identifier, Step>, services: map<string, Service>, groups: map<GroupKey, GroupMeta>)
    requires TreeRecorded(map[], map[], ForestGroups(roots), ForestSubtrees(roots), sp, services, plan)
    requires AllRegistered(gs, groups, plan) && Sourced(gs, groups, plan)
    requires StepsOk(plan, steps) && !AllExternalOk(steps, gs)
    ensures Dangling(roots, sp, plan, gs)
  {
  }

  /** A dependency that cannot be wired is a defect of the expansions: no graph of theirs exists. */
  lemma DanglingRefutes(roots: seq<Service>, sp: StampPipelines, plan: Plan, gs: map<string, StampedRecord>,
                        gs': map<string, StampedRecord>, g: Graph)
    requires Dangling(roots, sp, plan, gs)
    ensures !GraphParts(roots, sp, plan, gs', g)
  {
    if GraphParts(roots, sp, plan, gs', g) {
      hide TreeRecorded, PlanOk, UniqueIds, OneProvider, EdgesInside, ForestEdges, ExternalEdges, ParentEdges, ChildEdges, Sourced, GraphParts;
      var steps, groups := DanglingBy(roots, sp, plan, gs);
      var groups' := PartsAre(roots, sp, plan, gs', g);
      SameSteps(plan, steps, g.steps);
      hide *;
      SameWiring(plan, steps, gs, groups, gs', groups');
    }
  }

  lemma DanglingBy(roots: seq<Service>, sp: StampPipelines, plan: Plan, gs: map<string, StampedRecord>)
    returns (steps: map<Identifier, Step>, groups: map<GroupKey, GroupMeta>)
    requires Dangling(roots, sp, plan, gs)
    ensures AllRegistered(gs, groups, plan) && StepsOk(plan, steps) && !AllExternalOk(steps, gs)
  {
    hide TreeRecorded, AllRegistered, Sourced, StepsOk, AllExternalOk;
    var services;
    steps, services, groups :|
      && TreeRecorded(map[], map[], ForestGroups(roots), ForestSubtrees(roots), sp, services, plan)
      && AllRegistered(gs, groups, plan) && Sourced(gs, groups, plan)
      && StepsOk(plan, steps) && !AllExternalOk(steps, gs);
  }

  lemma PartsAre(roots: seq<Service>, sp: StampPipelines, plan: Plan, gs: map<string, StampedRecord>, g: Graph)
    returns (groups: map<GroupKey, GroupMeta>)
    requires GraphParts(roots, sp, plan, gs, g)
    ensures groups == g.resourceGroups && AllRegistered(gs, groups, plan) && StepsOk(plan, g.steps) && AllExternalOk(g.steps, gs)
  {
    hide TreeRecorded, AllRegistered, StepsOk, AllExternalOk;
    groups := g.resourceGroups;
  }

  lemma SameSteps(plan: Plan, steps: map<Identifier, Step>, steps': map<Identifier, Step>)
    requires StepsOk(plan, steps) && StepsOk(plan, steps')
    ensures steps == steps'
  {
    hide FinalStep;
    forall id | id in steps ensures steps[id] == steps'[id] {
      var sg :| sg in plan && id in ServiceIds(plan[sg]);
      assert ServiceStepsOk(plan[sg], steps) && ServiceStepsOk(plan[sg], steps');
    }
  }

  /** Two records of the declared groups agree on what can be wired. */
  lemma SameWiring(plan: Plan, steps: map<Identifier, Step>, gs: map<string, StampedRecord>, groups: map<GroupKey, GroupMeta>,
                   gs': map<string, StampedRecord>, groups': map<GroupKey, GroupMeta>)
    requires AllRegistered(gs, groups, plan) && AllRegistered(gs', groups', plan) && StepsOk(plan, steps)
    requires AllExternalOk(steps, gs')
    ensures AllExternalOk(steps, gs)
  {
    hide ExternalOk, StepsOk, AllRegistered;
    forall id, d | id in steps && d in steps[id].externalDependsOn ensures ExternalOk(steps, gs, id, d) {
      assert ExternalOk(steps, gs', id, d);
      StepGroupRecorded(plan, steps, gs, groups, gs', groups', id);
      StepGroupRecorded(plan, steps, gs, groups, gs', groups', WiredTo(steps, gs', id, d));
      SameTarget(steps, gs, gs', id, d);
    }
  }

  function WiredTo(steps: map<Identifier, Step>, gs: map<string, StampedRecord>, id: Identifier, d: ExternalDependency): (parent: Identifier)
    requires ExternalOk(steps, gs, id, d)
    ensures parent in steps && parent.resourceGroup == d.resourceGroup
  {
    ExternalParent(gs, id, d)
  }

  lemma StepGroupRecorded(plan: Plan, steps: map<Identifier, Step>, gs: map<string, StampedRecord>, groups: map<GroupKey, GroupMeta>,
                          gs': map<string, StampedRecord>, groups': map<GroupKey, GroupMeta>, id: Identifier)
    requires AllRegistered(gs, groups, plan) && AllRegistered(gs', groups', plan) && StepsOk(plan, steps) && id in steps
    ensures id.resourceGroup in gs && id.resourceGroup in gs' && gs[id.resourceGroup].stamped == gs'[id.resourceGroup].stamped
  {
    hide MetaEqual, ServiceStepsOk;
    var sg :| sg in plan && id in ServiceIds(plan[sg]);
    var it :| it in plan[sg] && id in IterIds(it);
    assert Registered(gs, groups, it) && Registered(gs', groups', it);
  }

  lemma SameTarget(steps: map<Identifier, Step>, gs: map<string, StampedRecord>, gs': map<string, StampedRecord>,
                   id: Identifier, d: ExternalDependency)
    requires ExternalOk(steps, gs', id, d)
    requires id.resourceGroup in gs && gs[id.resourceGroup].stamped == gs'[id.resourceGroup].stamped
    requires d.resourceGroup in gs && gs[d.resourceGroup].stamped == gs'[d.resourceGroup].stamped
    ensures ExternalOk(steps, gs, id, d)
  {
  }

  method SelectRoots(topology: seq<Service>, entrypoints: seq<string>) returns (r: Result<seq<Service>, string>)
    ensures r.Ok? ==> Selects(topology, entrypoints, r.value)
    ensures r.Err? ==> r.error in entrypoints && FindInForest(topology, r.error).None?
  {
    var roots := [];
    for i := 0 to |entrypoints|
      invariant Selects(topology, entrypoints[..i], roots)
    {
      var found := FindInForest(topology, entrypoints[i]);
      if found.None? {
        return Err(entrypoints[i]);
      }
      roots := roots + [found.value];
    }
    assert entrypoints[..|entrypoints|] == entrypoints;
    r := Ok(roots);
  }

  lemma RootRecorded(roots: seq<Service>, root: Service, sp: StampPipelines, services1: map<string, Service>, plan1: Plan,
                     services2: map<string, Service>, plan2: Plan)
    requires TreeRecorded(map[], map[], ForestGroups(roots), ForestSubtrees(roots), sp, services1, plan1)
    requires TreeRecorded(services1, plan1, Groups(root), Subtrees(root), sp, services2, plan2)
    ensures TreeRecorded(map[], map[], ForestGroups(roots + [root]), ForestSubtrees(roots + [root]), sp, services2, plan2)
    ensures ForestEdges(ForestSubtrees(roots + [root]), plan2) ==
      ForestEdges(ForestSubtrees(roots), plan1) + ForestEdges(Subtrees(root), plan2)
  {
    hide *;
    RecordedTwice(ForestGroups(roots), ForestSubtrees(roots), Groups(root), Subtrees(root), sp,
                  map[], map[], services1, plan1, services2, plan2);
    ForestConcat(roots, [root]);
    ForestSingle(root);
    RecordedPlanned(roots, map[], map[], sp, services1, plan1);
    RecordedPlanned([root], services1, plan1, sp, services2, plan2);
    ForestEdgesFrame(ForestSubtrees(roots), plan1, plan2);
    ForestEdgesUnion(ForestSubtrees(roots), Subtrees(root), plan2);
  }

  lemma NoRoots(sp: StampPipelines)
    ensures TreeRecorded(map[], map[], ForestGroups([]), ForestSubtrees([]), sp, map[], map[])
    ensures ForestEdges(ForestSubtrees([]), map[]) == {} && ChildEdges([]) == {}
  {
    NothingRecorded(map[], map[], sp);
    assert StepEdges({}, map[]) == {} && TopologyEdges({}, map[]) == {};
  }

  lemma NoCandidates(sp: StampPipelines)
    ensures CandidatesOnly(map[], map[], sp)
  {
  }

  lemma NothingRepeats(plan: Plan, names: seq<string>)
    requires plan == map[]
    ensures Repeats(plan.Keys, names) ==> !NoDuplicates(names)
  {
  }

  method AccumulateRoots(roots: seq<Service>, sp: StampPipelines) returns (b: Builder, err: Option<BuildError>)
    requires PipelinesOk(sp)
    ensures fresh(b)
    ensures err.Some? ==> !NoDuplicates(ForestGroups(roots)) || SomeFault(ForestSubtrees(roots), sp)
    ensures err.None? ==> b.Valid()
    ensures err.None? ==>
      TreeRecorded(map[], map[], ForestGroups(roots), ForestSubtrees(roots), sp, b.services, b.plan)
    ensures err.None? ==> ChildEdges(b.nodes) == ForestEdges(ForestSubtrees(roots), b.plan)
  {
    hide *;
    b := new Builder();
    NoRoots(sp);
    NoCandidates(sp);
    ghost var known := ForestSubtrees(roots);
    for i := 0 to |roots|
      invariant fresh(b) && b.Valid()
      invariant CandidatesOnly(b.services, b.plan, sp) && forall g :: g in b.services ==> b.services[g] in known
      invariant TreeRecorded(map[], map[], ForestGroups(roots[..i]), ForestSubtrees(roots[..i]), sp, b.services, b.plan)
      invariant ChildEdges(b.nodes) == ForestEdges(ForestSubtrees(roots[..i]), b.plan)
    {
      ghost var services1, plan1 := b.services, b.plan;
      ChildInForest(roots, i, known);
      err := b.Accumulate(roots[i], sp, known);
      if err.Some? {
        LaterRepeats(map[], map[], roots, i, sp, services1, plan1);
        NothingRepeats(map[], ForestGroups(roots));
        return;
      }
      RootRecorded(roots[..i], roots[i], sp, services1, plan1, b.services, b.plan);
      assert roots[..i + 1] == roots[..i] + [roots[i]];
    }
    assert roots[..|roots|] == roots;
    err := None;
  }

  lemma ChildrenClosed(nodes: seq<Node>)
    requires UniqueIds(nodes) && EdgesInside(ChildEdges(nodes), Ids(nodes))
    ensures Closed(NodesById(nodes)) && TableEdges(NodesById(nodes)) == ChildEdges(nodes)
  {
    UniqueTableEdges(nodes);
    var byId := NodesById(nodes);
    forall id, c | id in byId && c in byId[id].children ensures c in byId {
      assert Edge(id, c) in TableEdges(byId);
    }
  }

  /** External edges end at recorded nodes. */
  lemma ExternalInside(steps: map<Identifier, Step>, gs: map<string, StampedRecord>)
    requires AllExternalOk(steps, gs)
    ensures EdgesInside(ExternalEdges(steps, gs), steps.Keys)
  {
    forall e | e in ExternalEdges(steps, gs) ensures e.from in steps && e.to in steps {
      var d :| d in steps[e.to].externalDependsOn && e.from == ExternalParent(gs, e.to, d);
      assert ExternalOk(steps, gs, e.to, d);
    }
  }

  /**
    * Builds the graph of the sub-trees selected by the entrypoints. The result is acyclic on success; a reported
    * cycle is a cycle of the graph.
    */
  method ForEntrypoints(topology: seq<Service>, entrypoints: seq<string>, sp: StampPipelines)
    returns (outcome: Outcome, ghost roots: seq<Service>, ghost plan: Plan, ghost gs: map<string, StampedRecord>,
             ghost loops: set<Link>, ghost lost: set<Link>)
    requires PipelinesOk(sp)
    ensures outcome.EntrypointNotFound? ==> outcome.group in entrypoints && FindInForest(topology, outcome.group).None?
    ensures !outcome.EntrypointNotFound? ==> Selects(topology, entrypoints, roots)
    ensures outcome.Rejected? ==> !NoDuplicates(ForestGroups(roots)) || SomeFault(ForestSubtrees(roots), sp)
    ensures outcome.BadDependency? ==> Dangling(roots, sp, plan, gs)
    ensures outcome.Built? ==> GraphOf(roots, sp, plan, gs, outcome.graph) && Acyclic(ChildEdges(outcome.graph.nodes))
    ensures outcome.Cyclic? ==> GraphUpTo(roots, sp, plan, gs, outcome.graph, loops, lost) && !Acyclic(ChildEdges(outcome.graph.nodes))
  {
    plan, gs, roots, loops, lost := map[], map[], [], {}, {};
    var selected := SelectRoots(topology, entrypoints);
    if selected.Err? {
      return EntrypointNotFound(selected.error), roots, plan, gs, loops, lost;
    }
    roots := selected.value;
    outcome, plan, gs, loops, lost := ForRoots(selected.value, sp);
  }

  method ForRoots(roots: seq<Service>, sp: StampPipelines)
    returns (outcome: Outcome, ghost plan: Plan, ghost gs: map<string, StampedRecord>, ghost loops: set<Link>, ghost lost: set<Link>)
    requires PipelinesOk(sp)
    ensures !outcome.EntrypointNotFound?
    ensures outcome.Rejected? ==> !NoDuplicates(ForestGroups(roots)) || SomeFault(ForestSubtrees(roots), sp)
    ensures outcome.BadDependency? ==> Dangling(roots, sp, plan, gs)
    ensures outcome.Built? ==> GraphOf(roots, sp, plan, gs, outcome.graph) && Acyclic(ChildEdges(outcome.graph.nodes))
    ensures outcome.Cyclic? ==> GraphUpTo(roots, sp, plan, gs, outcome.graph, loops, lost) && !Acyclic(ChildEdges(outcome.graph.nodes))
  {
    hide *;
    plan, gs, loops, lost := map[], map[], {}, {};
    var b, err := AccumulateRoots(roots, sp);
    if err.Some? {
      return Rejected(err.value), plan, gs, loops, lost;
    }
    b.ValidParts();
    StateParts(b.plan, b.nodes, b.nodeIndex, b.steps);
    ghost var nodes0 := b.nodes;
    plan, gs := b.plan, b.groupStamped;
    err, loops, lost := b.AddExternalDependencyEdges();
    if err.Some? {
      DanglingIs(roots, sp, plan, gs, b.steps, b.services, b.resourceGroups);
      return BadDependency(err.value), plan, gs, loops, lost;
    }
    var g := Graph(b.services, b.resourceGroups, b.subscription, b.steps, b.nodes, b.validationSteps);
    GraphComplete(roots, sp, plan, gs, g, nodes0, b.nodeIndex, loops, lost);
    var cycle, order := DetectCycles(b.nodes);
    if cycle.None? {
      AcyclicIsExact(roots, sp, plan, gs, g, loops, lost);
    }
    outcome := if cycle.Some? then Cyclic(g, cycle.value) else Built(g);
  }

  lemma GraphComplete(roots: seq<Service>, sp: StampPipelines, plan: Plan, gs: map<string, StampedRecord>, g: Graph,
                      nodes0: seq<Node>, nodeIndex: map<Identifier, nat>, loops: set<Link>, lost: set<Link>)
    requires TreeRecorded(map[], map[], ForestGroups(roots), ForestSubtrees(roots), sp, g.services, plan)
    requires PlanOk(plan) && StepsOk(plan, g.steps) && Ids(nodes0) == AllIds(plan) == g.steps.Keys && ChildEdges(nodes0) == ParentEdges(nodes0)
    requires EdgesInside(ChildEdges(nodes0), AllIds(plan))
    requires ChildEdges(nodes0) == ForestEdges(ForestSubtrees(roots), plan)
    requires AllRegistered(gs, g.resourceGroups, plan) && OneProvider(plan) && AllExternalOk(g.steps, gs)
    requires SubscriptionSourced(g.subscription, plan) && g.validationSteps.Keys == AllValidationIds(plan)
    requires Indexed(g.nodes, nodeIndex) && Ids(g.nodes) == Ids(nodes0)
    requires ParentEdges(g.nodes) == ParentEdges(nodes0) + ExternalEdges(g.steps, gs)
    requires ChildEdges(g.nodes) == ChildEdges(nodes0) + WithoutLoops(ExternalEdges(g.steps, gs)) - lost + loops
    requires Displaced(ExternalEdges(g.steps, gs), loops, lost)
    ensures GraphUpTo(roots, sp, plan, gs, g, loops, lost)
    ensures Closed(NodesById(g.nodes)) && TableEdges(NodesById(g.nodes)) == ChildEdges(g.nodes)
  {
    hide TreeRecorded, StepsOk, AllRegistered, PlanOk, OneProvider, SubscriptionSourced, AllValidationIds;
    ExternalInside(g.steps, gs);
    ChildrenClosed(g.nodes);
  }

  // ----- what every built graph satisfies

  /** Both ends of every edge pass the graph's own lookup of service, resource group and step. */
  ghost predicate LookupPasses(g: Graph, id: Identifier) {
    id.serviceGroup in g.services && KeyOf(id) in g.resourceGroups && id in g.steps
  }

  lemma PlannedNodesPassLookup(roots: seq<Service>, sp: StampPipelines, plan: Plan, gs: map<string, StampedRecord>, g: Graph, id: Identifier)
    requires TreeRecorded(map[], map[], ForestGroups(roots), ForestSubtrees(roots), sp, g.services, plan)
    requires PlanOk(plan) && AllRegistered(gs, g.resourceGroups, plan) && g.steps.Keys == AllIds(plan)
    requires id in AllIds(plan)
    ensures LookupPasses(g, id)
  {
    hide Expanded, IterIds, WellFormed;
    PlanServiceGroups(plan);
    ForestGroupsAreNames(roots);
    var sg :| sg in plan && id in ServiceIds(plan[sg]);
    var it :| it in plan[sg] && id in IterIds(it);
    RegisteredKeys(it, gs, g.resourceGroups);
    var t :| t in ForestSubtrees(roots) && t.serviceGroup == sg;
  }

  lemma NodesPassLookup(roots: seq<Service>, sp: StampPipelines, plan: Plan, gs: map<string, StampedRecord>, g: Graph)
    requires GraphOf(roots, sp, plan, gs, g)
    ensures g.steps.Keys == Ids(g.nodes)
    ensures forall id :: id in Ids(g.nodes) ==> LookupPasses(g, id)
    ensures forall e :: e in ParentEdges(g.nodes) || e in ChildEdges(g.nodes) ==> e.from in Ids(g.nodes) && e.to in Ids(g.nodes)
  {
    hide TreeRecorded, AllRegistered, PlanOk, AllIds, ForestEdges, ExternalEdges, AllExternalOk, LookupPasses, Ids, ChildEdges, ParentEdges;
    ExternalInside(g.steps, gs);
    forall id | id in AllIds(plan) ensures LookupPasses(g, id) {
      PlannedNodesPassLookup(roots, sp, plan, gs, g, id);
    }
  }

  lemma GraphEdges(roots: seq<Service>, sp: StampPipelines, plan: Plan, gs: map<string, StampedRecord>, g: Graph)
    requires GraphOf(roots, sp, plan, gs, g)
    ensures ParentEdges(g.nodes) == ForestEdges(ForestSubtrees(roots), plan) + ExternalEdges(g.steps, gs)
    ensures ChildEdges(g.nodes) == ForestEdges(ForestSubtrees(roots), plan) + WithoutLoops(ExternalEdges(g.steps, gs))
  {
  }

  ghost predicate ExternalLink(steps: map<Identifier, Step>, gs: map<string, StampedRecord>, e: Link, d: ExternalDependency) {
    e.to in steps && d in steps[e.to].externalDependsOn && e.from == ExternalParent(gs, e.to, d)
  }

  lemma ExternalLinkIs(steps: map<Identifier, Step>, gs: map<string, StampedRecord>, e: Link, d: ExternalDependency)
    requires ExternalLink(steps, gs, e, d)
    ensures e.to in steps && d in steps[e.to].externalDependsOn && e.from == ExternalParent(gs, e.to, d)
  {
  }

  lemma ExternalEdgesAre(steps: map<Identifier, Step>, gs: map<string, StampedRecord>)
    ensures forall e :: e in ExternalEdges(steps, gs) <==> exists d :: ExternalLink(steps, gs, e, d)
    ensures forall id, d :: id in steps && d in steps[id].externalDependsOn ==> ExternalLink(steps, gs, Edge(ExternalParent(gs, id, d), id), d)
  {
    forall e ensures e in ExternalEdges(steps, gs) <==> exists d :: ExternalLink(steps, gs, e, d) {
      if d :| ExternalLink(steps, gs, e, d) {
        assert e in ExternalInto(gs, e.to, steps[e.to].externalDependsOn);
      }
      if e in ExternalEdges(steps, gs) {
        var d :| d in steps[e.to].externalDependsOn && e.from == ExternalParent(gs, e.to, d);
        assert ExternalLink(steps, gs, e, d);
      }
    }
  }

  lemma LoopsLost(inner: set<Link>, ext: set<Link>)
    ensures inner + WithoutLoops(ext) <= inner + ext
    ensures inner + WithoutLoops(ext) == inner + ext <==> forall e :: e in ext && e.from == e.to ==> e in inner
  {
    if e :| e in ext && e.from == e.to && e !in inner {
      assert e in inner + ext && e !in inner + WithoutLoops(ext);
    }
  }

  /**
    * Children and parents mirror each other exactly when no step names itself as an external dependency without
    * also depending on itself inside its pipeline.
    */
  lemma ChildrenMirrorParents(roots: seq<Service>, sp: StampPipelines, plan: Plan, gs: map<string, StampedRecord>, g: Graph)
    requires GraphOf(roots, sp, plan, gs, g)
    ensures ChildEdges(g.nodes) <= ParentEdges(g.nodes)
    ensures ChildEdges(g.nodes) == ParentEdges(g.nodes) <==>
      forall id, d :: id in g.steps && d in g.steps[id].externalDependsOn && ExternalParent(gs, id, d) == id ==>
        Edge(id, id) in ForestEdges(ForestSubtrees(roots), plan)
  {
    hide *;
    var inner, ext := ForestEdges(ForestSubtrees(roots), plan), ExternalEdges(g.steps, gs);
    GraphEdges(roots, sp, plan, gs, g);
    ExternalEdgesAre(g.steps, gs);
    LoopsLost(inner, ext);
    forall id, d | id in g.steps && d in g.steps[id].externalDependsOn ensures Edge(ExternalParent(gs, id, d), id) in ext {
      assert ExternalLink(g.steps, gs, Edge(ExternalParent(gs, id, d), id), d);
    }
    if e :| e in ext && e.from == e.to && e !in inner {
      var d :| ExternalLink(g.steps, gs, e, d);
      ExternalLinkIs(g.steps, gs, e, d);
    }
  }

  /**
    * A graph is only built from services that occur once, whose expansions are fit and do not clash; a rejection
    * means that some service is repeated or that some candidate expansion violates this.
    */
  lemma BuiltServicesFit(roots: seq<Service>, sp: StampPipelines, plan: Plan, gs: map<string, StampedRecord>, g: Graph)
    requires GraphOf(roots, sp, plan, gs, g)
    ensures NoDuplicates(ForestGroups(roots))
    ensures forall t :: t in ForestSubtrees(roots) ==> t.serviceGroup in plan && Resolved(t, sp, plan[t.serviceGroup]) && NoneUnfit(t, plan[t.serviceGroup])
    ensures forall sg, i, sg', j ::
      (sg in plan && 0 <= i < |plan[sg]| && sg' in plan && 0 <= j < |plan[sg']| && (sg != sg' || i != j))
      ==> !Clash(plan[sg][i], plan[sg'][j])
  {
    hide PlanOk, StepsOk, AllExternalOk, ForestEdges, ExternalEdges, AllIds, Resolved, NoneUnfit, Clash, Ids, ChildEdges, ParentEdges, AllRegistered;
    forall sg, i, sg', j | sg in plan && 0 <= i < |plan[sg]| && sg' in plan && 0 <= j < |plan[sg']| && (sg != sg' || i != j)
      ensures !Clash(plan[sg][i], plan[sg'][j])
    {
      RegisteredDoNotClash(gs, g.resourceGroups, plan, sg, i, sg', j);
    }
  }

  lemma RegisteredDoNotClash(gs: map<string, StampedRecord>, groups: map<GroupKey, GroupMeta>, plan: Plan, sg: string, i: nat, sg': string, j: nat)
    requires AllRegistered(gs, groups, plan) && OneProvider(plan)
    requires sg in plan && i < |plan[sg]| && sg' in plan && j < |plan[sg']| && (sg != sg' || i != j)
    ensures !Clash(plan[sg][i], plan[sg'][j])
  {
    hide MetaEqual;
    var a, b := plan[sg][i], plan[sg'][j];
    assert Registered(gs, groups, a) && Registered(gs, groups, b);
    forall rg, rg' | rg in a.pipeline.resourceGroups && rg' in b.pipeline.resourceGroups ensures !GroupsClash(a, rg, b, rg') {
      var key := GroupKey(a.stamp.If(rg.meta.stamped), rg.meta.name);
      MetaEqualEquivalence(rg.meta, groups[key], rg'.meta);
      if rg'.meta.name == rg.meta.name && rg'.meta.stamped == rg.meta.stamped && b.stamp.If(rg'.meta.stamped) == key.stamp {
        MetaEqualEquivalence(rg'.meta, groups[key], rg.meta);
      }
    }
  }

  // ----- a graph whose two sides differ

  function SelfStep(): Step { Step("x", [], [], [ExternalDependency("S", "g", "x")], true) }

  function SelfGroup(): ResourceGroup { ResourceGroup(GroupMeta("g", "", "sub", false, []), None, [SelfStep()], []) }

  function SelfIteration(): StampIteration { StampIteration(Unstamped(), Pipeline("S", [SelfGroup()])) }

  function SelfId(): Identifier { Identifier(Unstamped(), "S", "g", "x") }

  function SelfGraph(s: Service): Graph {
    Graph(map["S" := s], map[GroupKey(Unstamped(), "g") := SelfGroup().meta], None, map[SelfId() := SelfStep()],
          [Node(SelfId(), [], [SelfId()])], map[])
  }

  lemma SelfIterationIs()
    ensures var it := SelfIteration();
            && WellFormed(it.pipeline) && IterIds(it) == {SelfId()} && IterEdges(it) == {} && IterStep(it, SelfId()) == SelfStep()
  {
    var it := SelfIteration();
    assert SelfGroup() in it.pipeline.resourceGroups && SelfStep() in SelfGroup().steps;
    assert StepId(it, SelfGroup(), SelfStep()) == SelfId();
    forall e ensures e !in IterEdges(it) {
    }
    IterStepIs(it, SelfGroup(), SelfStep());
  }

  lemma SelfPlanIs(plan: Plan)
    requires plan == map["S" := [SelfIteration()]]
    ensures AllIds(plan) == {SelfId()} && ServiceIds(plan["S"]) == {SelfId()} && ServiceEdges(plan["S"]) == {}
    ensures PlanOk(plan) && StepsOk(plan, map[SelfId() := SelfStep()])
  {
    SelfIterationIs();
    hide IterIds, IterEdges, IterStep, WellFormed, SelfStep, SelfId;
    assert SelfIteration() in plan["S"];
    assert ServiceIds(plan["S"]) == {SelfId()};
    assert AllIds(plan) == {SelfId()};
  }

  lemma SelfExternalIs(gs: map<string, StampedRecord>)
    requires gs == map["g" := StampedRecord(false, "S")]
    ensures var steps := map[SelfId() := SelfStep()];
            AllExternalOk(steps, gs) && ExternalEdges(steps, gs) == {Edge(SelfId(), SelfId())} && WithoutLoops(ExternalEdges(steps, gs)) == {}
  {
    var steps := map[SelfId() := SelfStep()];
    var d := ExternalDependency("S", "g", "x");
    assert d in SelfStep().externalDependsOn && ExternalParent(gs, SelfId(), d) == SelfId();
    var into := ExternalInto(gs, SelfId(), SelfStep().externalDependsOn);
    assert into == {Edge(SelfId(), SelfId())};
    assert SelfId() in steps.Keys && steps[SelfId()] == SelfStep();
    forall e ensures e in ExternalEdges(steps, gs) <==> e in into {
    }
  }

  lemma SelfNodesAre(s: Service)
    ensures var nodes := SelfGraph(s).nodes;
            && UniqueIds(nodes) && Ids(nodes) == {SelfId()}
            && ParentEdges(nodes) == {Edge(SelfId(), SelfId())} && ChildEdges(nodes) == {}
    ensures var g := SelfGraph(s);
            && g.steps == map[SelfId() := SelfStep()] && g.services == map["S" := s]
            && g.resourceGroups == map[GroupKey(Unstamped(), "g") := SelfGroup().meta]
            && g.subscription == None && g.validationSteps == map[]
  {
    var n := Node(SelfId(), [], [SelfId()]);
    AppendNode([], n);
    assert [] + [n] == SelfGraph(s).nodes;
    assert ParentLinks(n) == {Edge(SelfId(), SelfId())} && ChildLinks(n) == {};
  }

  lemma SelfRecordsAre(gs: map<string, StampedRecord>, groups: map<GroupKey, GroupMeta>, plan: Plan)
    requires gs == map["g" := StampedRecord(false, "S")] && groups == map[GroupKey(Unstamped(), "g") := SelfGroup().meta]
    requires plan == map["S" := [SelfIteration()]]
    ensures AllRegistered(gs, groups, plan) && OneProvider(plan)
    ensures SubscriptionSourced(None, plan) && AllValidationIds(plan) == {}
  {
    MetaEqualReflexive(SelfGroup().meta);
    hide MetaEqual;
    assert Registered(gs, groups, SelfIteration());
    assert !Provides(SelfIteration());
  }

  lemma SelfTreeIs(s: Service, sp: StampPipelines, plan: Plan)
    requires s == Service("S", "", "", [], map[], None, None) && sp == map[Unstamped() := map["S" := SelfIteration().pipeline]]
    requires plan == map["S" := [SelfIteration()]]
    ensures TreeRecorded(map[], map[], ForestGroups([s]), ForestSubtrees([s]), sp, map["S" := s], plan)
  {
    ForestSingle(s);
    hide WellFormed, ConstraintEqual;
    assert Subtrees(s) == {s} && Groups(s) == ["S"];
    assert !Unfit(s, SelfIteration()) by {
      assert !SelfGroup().provisioning.Some?;
    }
    var st := Unstamped();
    assert st in sp && "S" in sp[st] && sp[st]["S"] == plan["S"][0].pipeline;
    assert Resolved(s, sp, plan["S"]);
  }

  lemma SelfEdgesAre(s: Service, plan: Plan)
    requires s == Service("S", "", "", [], map[], None, None) && plan == map["S" := [SelfIteration()]]
    ensures ForestEdges(ForestSubtrees([s]), plan) == {}
  {
    ForestSingle(s);
    SelfPlanIs(plan);
    hide SelfIteration;
    assert Subtrees(s) == {s};
    assert StepEdges({s}, plan) == {} && TopologyEdges({s}, plan) == {};
  }

  /** A step that names itself as an external dependency: the graph is built, and only the parents' side shows the loop. */
  lemma SelfDependencyExample()
    ensures var s := Service("S", "", "", [], map[], None, None);
            var sp: StampPipelines := map[Unstamped() := map["S" := SelfIteration().pipeline]];
            var g := SelfGraph(s);
            && GraphOf([s], sp, map["S" := [SelfIteration()]], map["g" := StampedRecord(false, "S")], g)
            && ChildEdges(g.nodes) == {} && Edge(SelfId(), SelfId()) in ParentEdges(g.nodes)
  {
    hide *;
    var s := Service("S", "", "", [], map[], None, None);
    var sp: StampPipelines := map[Unstamped() := map["S" := SelfIteration().pipeline]];
    var plan: Plan := map["S" := [SelfIteration()]];
    var gs := map["g" := StampedRecord(false, "S")];
    var g := SelfGraph(s);
    SelfPlanIs(plan);
    SelfExternalIs(gs);
    SelfNodesAre(s);
    SelfRecordsAre(gs, g.resourceGroups, plan);
    SelfTreeIs(s, sp, plan);
    SelfEdgesAre(s, plan);
    NothingInside(AllIds(plan));
    GraphOfParts([s], sp, plan, gs, g);
  }

  lemma NothingInside(ids: set<Identifier>)
    ensures EdgesInside({}, ids)
  {
  }

  lemma GraphOfParts(roots: seq<Service>, sp: StampPipelines, plan: Plan, gs: map<string, StampedRecord>, g: Graph)
    requires TreeRecorded(map[], map[], ForestGroups(roots), ForestSubtrees(roots), sp, g.services, plan)
    requires PlanOk(plan) && UniqueIds(g.nodes) && Ids(g.nodes) == AllIds(plan) && StepsOk(plan, g.steps)
    requires AllRegistered(gs, g.resourceGroups, plan) && OneProvider(plan) && AllExternalOk(g.steps, gs)
    requires SubscriptionSourced(g.subscription, plan) && g.validationSteps.Keys == AllValidationIds(plan)
    requires EdgesInside(ForestEdges(ForestSubtrees(roots), plan), AllIds(plan))
    requires ParentEdges(g.nodes) == ForestEdges(ForestSubtrees(roots), plan) + ExternalEdges(g.steps, gs)
    requires ChildEdges(g.nodes) == ForestEdges(ForestSubtrees(roots), plan) + WithoutLoops(ExternalEdges(g.steps, gs))
    ensures GraphOf(roots, sp, plan, gs, g)
  {
    hide TreeRecorded, PlanOk, UniqueIds, StepsOk, AllRegistered, OneProvider, AllExternalOk, EdgesInside, ForestEdges, ExternalEdges, AllIds;
    hide SubscriptionSourced, AllValidationIds;
  }
}
