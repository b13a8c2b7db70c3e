/** The stateful construction of an execution graph from a service tree and one pipeline per service and stamp. */
module GraphBuilder {
  import opened Wrappers
  import opened Ordering
  import opened GraphTypes
  import opened Pipelines
  import opened ServiceTree
  import opened GraphSpec
  import opened ServicePlans
  import opened PipelineNodes
  import opened StampResolution
  import opened BuilderInvariant

  method StampedGroup(p: Pipeline, groups: map<string, GroupMeta>) returns (r: Option<string>)
    requires GroupTable(p.resourceGroups, groups)
    ensures r.None? <==> forall rg :: rg in p.resourceGroups ==> !rg.meta.stamped
    ensures r.Some? ==> r.value in groups && groups[r.value].stamped
  {
    var remaining := groups.Keys;
    while remaining != {}
      invariant remaining <= groups.Keys
      invariant forall n :: n in groups && n !in remaining ==> !groups[n].stamped
    {
      var n :| n in remaining;
      if groups[n].stamped {
        assert exists rg :: rg in p.resourceGroups && rg.meta.name == n;
        return Some(n);
      }
      remaining := remaining - {n};
    }
    r := None;
  }

  method AddLeaves(table: map<Stamp, seq<Identifier>>, leaves: seq<Identifier>, ghost known: set<Identifier>, ghost added: set<Identifier>)
    returns (grown: map<Stamp, seq<Identifier>>)
    requires LeafTable(table, known) && forall id :: id in leaves <==> id in added
    ensures LeafTable(grown, known + added)
  {
    grown := table;
    for i := 0 to |leaves|
      invariant LeafTable(grown, known + set l | l in leaves[..i])
    {
      var leaf := leaves[i];
      grown := grown[leaf.stamp := (if leaf.stamp in grown then grown[leaf.stamp] else []) + [leaf]];
      assert leaves[..i + 1] == leaves[..i] + [leaf];
    }
    assert leaves[..|leaves|] == leaves;
    assert known + added == known + set l | l in leaves;
  }

  method DeduplicateLeaves(table: map<Stamp, seq<Identifier>>, ghost leaves: set<Identifier>) returns (r: map<Stamp, seq<Identifier>>)
    requires LeafTable(table, leaves)
    ensures LeafTable(r, leaves)
    ensures forall stamp :: stamp in r ==> Ascending(IdLess, r[stamp])
  {
    r := table;
    var remaining := table.Keys;
    while remaining != {}
      invariant remaining <= table.Keys == r.Keys
      invariant LeafTable(r, leaves)
      invariant forall stamp :: stamp in r && stamp !in remaining ==> Ascending(IdLess, r[stamp])
    {
      var stamp :| stamp in remaining;
      DeduplicateIsCanonical(r[stamp], r[stamp]);
      r := r[stamp := Deduplicate(r[stamp])];
      remaining := remaining - {stamp};
    }
  }

  class Builder {
    var services: map<string, Service>
    var resourceGroups: map<GroupKey, GroupMeta>
    var subscription: Option<Subscription>
    var steps: map<Identifier, Step>
    var nodes: seq<Node>
    var validationSteps: map<Identifier, Step>
    var nodeIndex: map<Identifier, nat>
    var groupStamped: map<string, StampedRecord>
    /** The expansions processed so far. */
    ghost var plan: Plan

    constructor ()
      ensures Valid() && services == map[] && nodes == [] && plan == map[] && groupStamped == map[]
      ensures subscription == None && resourceGroups == map[]
    {
      services, resourceGroups, subscription, steps := map[], map[], None, map[];
      nodes, validationSteps, nodeIndex, groupStamped, plan := [], map[], map[], map[], map[];
    }

    ghost predicate Valid()
      reads this
    {
      && plan.Keys == services.Keys
      && StateOk(plan, nodes, nodeIndex, steps)
      && AllRegistered(groupStamped, resourceGroups, plan)
      && Sourced(groupStamped, resourceGroups, plan)
      && SubscriptionSourced(subscription, plan) && OneProvider(plan)
      && validationSteps.Keys == AllValidationIds(plan)
    }

    lemma PlannedServices()
      requires Valid()
      ensures plan.Keys == services.Keys
    {
    }

    lemma ValidParts()
      requires Valid()
      ensures StateOk(plan, nodes, nodeIndex, steps) && AllRegistered(groupStamped, resourceGroups, plan)
      ensures Sourced(groupStamped, resourceGroups, plan) && SubscriptionSourced(subscription, plan) && OneProvider(plan)
      ensures validationSteps.Keys == AllValidationIds(plan)
    {
    }

    lemma ValidFromParts()
      requires plan.Keys == services.Keys && StateOk(plan, nodes, nodeIndex, steps)
      requires AllRegistered(groupStamped, resourceGroups, plan) && Sourced(groupStamped, resourceGroups, plan)
      requires SubscriptionSourced(subscription, plan) && OneProvider(plan)
      requires validationSteps.Keys == AllValidationIds(plan)
      ensures Valid()
    {
    }

    function Lookup(id: Identifier): Option<Step>
      reads this
    {
      if id.serviceGroup in services && KeyOf(id) in resourceGroups && id in steps then Some(steps[id]) else None
    }

    method RegisterNode(n: Node)
      requires Indexed(nodes, nodeIndex)
      modifies `nodes, `nodeIndex
      ensures Indexed(nodes, nodeIndex)
      ensures Grown(old(nodes), [n], nodes)
    {
      hide Ids, ChildEdges, ParentEdges, Grown;
      ghost var known := n.id in nodeIndex;
      if n.id !in nodeIndex {
        IndexFresh(nodes, nodeIndex, Node(n.id, [], []));
        nodeIndex := nodeIndex[n.id := |nodes|];
        nodes := nodes + [Node(n.id, [], [])];
      }
      var idx := nodeIndex[n.id];
      var existing := nodes[idx];
      var merged := Node(existing.id, Deduplicate(existing.children + n.children), Deduplicate(existing.parents + n.parents));
      MergeNode(nodes, idx, n, merged);
      if !known {
        MergeFresh(old(nodes), n, merged);
        assert nodes[idx := merged] == old(nodes) + [merged];
      }
      IndexReplace(nodes, nodeIndex, idx, merged);
      nodes := nodes[idx := merged];
    }

    method RegisterNodes(ns: seq<Node>)
      requires Indexed(nodes, nodeIndex)
      modifies `nodes, `nodeIndex
      ensures Indexed(nodes, nodeIndex)
      ensures Grown(old(nodes), ns, nodes)
    {
      hide *;
      GrownNothing(nodes);
      for i := 0 to |ns|
        invariant Indexed(nodes, nodeIndex)
        invariant Grown(old(nodes), ns[..i], nodes)
      {
        ghost var middle := nodes;
        RegisterNode(ns[i]);
        GrownTransitive(old(nodes), ns[..i], middle, ns[i], nodes);
        assert ns[..i + 1] == ns[..i] + [ns[i]];
      }
      assert ns[..|ns|] == ns;
    }

    method RegisterResourceGroup(sg: string, stamp: Stamp, group: GroupMeta) returns (err: Option<BuildError>)
      modifies `groupStamped, `resourceGroups
      ensures err.None? <==> AcceptsGroup(old(groupStamped), old(resourceGroups), stamp, group)
      ensures err.None? ==> groupStamped == old(groupStamped)[group.name := StampedRecord(group.stamped, sg)]
      ensures err.None? ==>
        var key := GroupKey(stamp.If(group.stamped), group.name);
        resourceGroups == if key in old(resourceGroups) then old(resourceGroups) else old(resourceGroups)[key := group]
    {
      if group.name in groupStamped && groupStamped[group.name].stamped != group.stamped {
        return Some(InconsistentStamped(group.name));
      }
      groupStamped := groupStamped[group.name := StampedRecord(group.stamped, sg)];
      var key := GroupKey(stamp.If(group.stamped), group.name);
      if key in resourceGroups && !MetaEqual(group, resourceGroups[key]) {
        return Some(ConflictingMetadata(group.name));
      }
      if key !in resourceGroups {
        resourceGroups := resourceGroups[key := group];
      }
      err := None;
    }

    method RegisterGroups(sg: string, it: StampIteration, groups: map<string, GroupMeta>) returns (err: Option<BuildError>)
      requires WellFormed(it.pipeline) && GroupTable(it.pipeline.resourceGroups, groups)
      modifies `groupStamped, `resourceGroups
      ensures err.None? <==>
        forall rg :: rg in it.pipeline.resourceGroups ==> AcceptsGroup(old(groupStamped), old(resourceGroups), it.stamp, rg.meta)
      ensures err.None? ==> Registered(groupStamped, resourceGroups, it)
      ensures err.None? ==> Keeps(old(groupStamped), old(resourceGroups), groupStamped, resourceGroups)
      ensures err.None? ==> RecordsFrom(old(groupStamped), old(resourceGroups), it, groupStamped, resourceGroups)
    {
      hide *;
      ghost var gs0, rgs0 := groupStamped, resourceGroups;
      var remaining := groups.Keys;
      RegistrationStart(it, groups, gs0, rgs0);
      while remaining != {}
        invariant remaining <= groups.Keys
        invariant PartlyRegistered(gs0, rgs0, it, remaining, groupStamped, resourceGroups)
      {
        var name :| name in remaining;
        ghost var rg := GroupNamed(it, groups, name);
        AcceptsAsBefore(gs0, rgs0, it, remaining, groupStamped, resourceGroups, rg);
        ghost var gs1, rgs1 := groupStamped, resourceGroups;
        err := RegisterResourceGroup(sg, it.stamp, groups[name]);
        if err.Some? {
          return;
        }
        RegistrationStep(gs0, rgs0, it, remaining, gs1, rgs1, rg, sg, groupStamped, resourceGroups);
        remaining := remaining - {name};
      }
      RegistrationEnd(gs0, rgs0, it, groupStamped, resourceGroups);
      err := None;
    }

    method RegisterGroupSteps(it: StampIteration, sg: string, ghost rg: ResourceGroup, meta: GroupMeta, byName: map<string, Step>)
      requires it.pipeline.serviceGroup == sg && meta == rg.meta && NamesSteps(rg, byName)
      modifies `steps
      ensures steps.Keys == old(steps.Keys) + GroupsIds(it, [rg])
      ensures GroupRecorded(it, rg, steps)
      ensures forall id :: id in old(steps) && id !in GroupsIds(it, [rg]) ==> steps[id] == old(steps)[id]
    {
      var names := byName.Keys;
      while names != {}
        invariant names <= byName.Keys
        invariant old(steps.Keys) <= steps.Keys <= old(steps.Keys) + GroupsIds(it, [rg])
        invariant forall st :: st in rg.steps && st.name !in names ==>
          StepId(it, rg, st) in steps && steps[StepId(it, rg, st)] == st
        invariant forall id :: id in old(steps) && id !in GroupsIds(it, [rg]) ==> steps[id] == old(steps)[id]
      {
        var n :| n in names;
        ghost var st :| st in rg.steps && st.name == n;
        assert StepId(it, rg, st) in GroupsIds(it, [rg]) && byName[n] == st;
        steps := steps[Identifier(it.stamp.If(meta.stamped), sg, meta.name, n) := byName[n]];
        names := names - {n};
      }
    }

    /** Records the steps of an iteration; a step shared with an earlier iteration is overwritten. */
    method RegisterSteps(it: StampIteration, sg: string, groups: map<string, GroupMeta>,
                         table: map<string, map<string, Step>>, ghost ids: set<Identifier>)
      requires it.pipeline.serviceGroup == sg
      requires GroupTable(it.pipeline.resourceGroups, groups) && StepTable(it.pipeline.resourceGroups, table)
      requires forall rg :: rg in it.pipeline.resourceGroups ==> GroupsIds(it, [rg]) <= ids
      requires UniqueGroups(it.pipeline)
      modifies `steps
      ensures steps.Keys <= old(steps.Keys) + ids && old(steps.Keys) <= steps.Keys
      ensures forall rg :: rg in it.pipeline.resourceGroups ==> GroupRecorded(it, rg, steps)
      ensures forall id :: id in old(steps) && id !in ids ==> steps[id] == old(steps)[id]
    {
      var remaining := table.Keys;
      while remaining != {}
        invariant remaining <= table.Keys
        invariant old(steps.Keys) <= steps.Keys <= old(steps.Keys) + ids
        invariant forall rg :: rg in it.pipeline.resourceGroups && rg.meta.name !in remaining ==> GroupRecorded(it, rg, steps)
        invariant forall id :: id in old(steps) && id !in ids ==> steps[id] == old(steps)[id]
      {
        var name :| name in remaining;
        ghost var rg :| rg in it.pipeline.resourceGroups && rg.meta.name == name;
        ghost var before := steps;
        RegisterGroupSteps(it, sg, rg, groups[name], table[name]);
        GroupsKept(it, rg, remaining, before, steps);
        remaining := remaining - {name};
      }
    }

    /** The nodes that count for completion and have no child that does. */
    method FindLeaves(ns: seq<Node>) returns (r: Option<seq<Identifier>>)
      ensures (forall n :: n in ns ==> Lookup(n.id).Some? && forall c :: c in n.children ==> Lookup(c).Some?) ==> r.Some?
      ensures r.Some? ==> forall id :: id in r.value <==> exists n :: n in ns && n.id == id && IsLeaf(n)
    {
      var leaves := [];
      for i := 0 to |ns|
        invariant forall id :: id in leaves <==> exists n :: n in ns[..i] && n.id == id && IsLeaf(n)
      {
        var node := ns[i];
        var step := Lookup(node.id);
        if step.None? {
          return None;
        }
        assert ns[..i + 1] == ns[..i] + [node];
        if !step.value.completion {
          continue;
        }
        var has := HasCompletionChild(node);
        if has.None? {
          return None;
        }
        if has.value {
          continue;
        }
        leaves := leaves + [node.id];
      }
      assert ns[..|ns|] == ns;
      r := Some(leaves);
    }

    predicate Completes(id: Identifier)
      reads this
    {
      Lookup(id).Some? && Lookup(id).value.completion
    }

    predicate IsLeaf(n: Node)
      reads this
    {
      Completes(n.id) && forall c :: c in n.children ==> !Completes(c)
    }

    method HasCompletionChild(n: Node) returns (r: Option<bool>)
      ensures (forall c :: c in n.children ==> Lookup(c).Some?) ==> r.Some?
      ensures r.Some? ==> (r.value <==> exists c :: c in n.children && Completes(c))
    {
      for i := 0 to |n.children|
        invariant forall k :: 0 <= k < i ==> !Completes(n.children[k])
      {
        var step := Lookup(n.children[i]);
        if step.None? {
          return None;
        }
        if step.value.completion {
          assert n.children[i] in n.children && Completes(n.children[i]);
          return Some(true);
        }
      }
      r := Some(false);
    }

    method RecordSteps(it: StampIteration, sg: string, t: Tables)
      requires WellFormed(it.pipeline) && it.pipeline.serviceGroup == sg
      requires GroupTable(it.pipeline.resourceGroups, t.groups) && StepTable(it.pipeline.resourceGroups, t.steps)
      modifies `steps
      ensures steps.Keys == old(steps.Keys) + IterIds(it)
      ensures forall id :: id in IterIds(it) ==> steps[id] == IterStep(it, id)
      ensures forall id :: id in old(steps) && id !in IterIds(it) ==> steps[id] == old(steps)[id]
    {
      forall rg | rg in it.pipeline.resourceGroups ensures GroupsIds(it, [rg]) <= IterIds(it) {
        GroupIdsInside(it, rg);
      }
      RegisterSteps(it, sg, t.groups, t.steps, IterIds(it));
      RegisteredStepsAre(it, steps);
    }

    /** Records the tables and nodes of an iteration whose groups are registered. */
    method Record(sg: string, it: StampIteration, t: Tables)
      requires StateOk(plan, nodes, nodeIndex, steps) && sg in plan
      requires WellFormed(it.pipeline) && it.pipeline.serviceGroup == sg
      requires GroupTable(it.pipeline.resourceGroups, t.groups) && StepTable(it.pipeline.resourceGroups, t.steps)
      requires Ids(t.nodes) == IterIds(it) && ChildEdges(t.nodes) == IterEdges(it) && ParentEdges(t.nodes) == IterEdges(it)
      modifies `steps, `validationSteps, `nodes, `nodeIndex, `plan
      ensures StateOk(plan, nodes, nodeIndex, steps) && plan == Extend(old(plan), sg, it)
      ensures ChildEdges(nodes) == old(ChildEdges(nodes)) + IterEdges(it)
      ensures forall id :: id in IterIds(it) ==> id in steps && steps[id] == IterStep(it, id)
      ensures validationSteps == old(validationSteps) + t.validationSteps
    {
      hide *;
      StateParts(plan, nodes, nodeIndex, steps);
      RecordSteps(it, sg, t);
      validationSteps := validationSteps + t.validationSteps;
      RegisterNodes(t.nodes);
      plan := Extend(plan, sg, it);
      ExtendState(old(plan), old(nodes), old(nodeIndex), old(steps), sg, it, t.nodes, nodes, nodeIndex, steps);
      GrownEdges(old(nodes), t.nodes, nodes);
    }

    /** Checks an iteration against the records and registers its groups. */
    method AcceptIteration(s: Service, it: StampIteration) returns (r: Result<Tables, BuildError>)
      requires WellFormed(it.pipeline)
      modifies `groupStamped, `resourceGroups, `subscription
      ensures r.Ok? <==> IterationFits(old(groupStamped), old(resourceGroups), old(subscription), s, it)
      ensures r.Ok? ==> Keeps(old(groupStamped), old(resourceGroups), groupStamped, resourceGroups)
      ensures r.Ok? ==> Registered(groupStamped, resourceGroups, it)
      ensures r.Ok? ==> RecordsFrom(old(groupStamped), old(resourceGroups), it, groupStamped, resourceGroups)
      ensures r.Ok? ==> (subscription.Some? <==> old(subscription).Some? || Provides(it))
      ensures r.Ok? ==>
        if Provides(it) then old(subscription).None? && SubscriptionOf(it.pipeline, subscription) else subscription == old(subscription)
      ensures r.Ok? ==> r.value.validationSteps.Keys == ValidationIds(it)
      ensures r.Ok? ==>
        && GroupTable(it.pipeline.resourceGroups, r.value.groups)
        && StepTable(it.pipeline.resourceGroups, r.value.steps)
        && Ids(r.value.nodes) == IterIds(it)
        && ChildEdges(r.value.nodes) == IterEdges(it)
        && ParentEdges(r.value.nodes) == IterEdges(it)
        && UniqueIds(r.value.nodes)
    {
      hide WellFormed, Registered, Keeps, RecordsFrom, AcceptsGroup, IterIds, IterEdges, Ids, ChildEdges, ParentEdges, StepTable;
      var tables := NodesFor(it);
      if tables.None? {
        return Err(MultipleSubscriptions(it.pipeline.serviceGroup));
      }
      var t := tables.value;
      if !s.IsStamped() {
        var stamped := StampedGroup(it.pipeline, t.groups);
        if stamped.Some? {
          return Err(StampedGroupInUnstampedService(s.serviceGroup, stamped.value));
        }
      }
      var err := RegisterGroups(s.serviceGroup, it, t.groups);
      if err.Some? {
        return Err(err.value);
      }
      if t.subscription.Some? && subscription.Some? {
        return Err(SubscriptionAlreadyRecorded(s.serviceGroup));
      }
      if t.subscription.Some? {
        subscription := t.subscription;
      }
      AscendingMeansUnique(t.nodes);
      r := Ok(t);
    }

    /** Adds one expansion of a recorded service: exactly its nodes and edges, and reports its leaves. */
    method AccumulateIteration(sg: string, it: StampIteration) returns (r: Result<seq<Identifier>, BuildError>)
      requires Valid() && sg in services && services[sg].serviceGroup == sg
      requires WellFormed(it.pipeline) && it.pipeline.serviceGroup == sg
      modifies this
      ensures r.Ok? <==> !Unfit(old(services)[sg], it) && forall g, x :: InPlan(old(plan), g, x) ==> !Clash(x, it)
      ensures r.Ok? ==> Valid() && services == old(services) && plan == Extend(old(plan), sg, it)
      ensures r.Ok? ==> ChildEdges(nodes) == old(ChildEdges(nodes)) + IterEdges(it)
      ensures r.Ok? ==> forall id :: id in r.value <==> id in IterLeaves(it)
      ensures r.Ok? ==> Keeps(old(groupStamped), old(resourceGroups), groupStamped, resourceGroups)
    {
      hide *;
      PlannedServices();
      ValidParts();
      FitsMeansNoClash(groupStamped, resourceGroups, subscription, plan, services[sg], it);
      var tables := AcceptIteration(services[sg], it);
      if tables.Err? {
        return Err(tables.error);
      }
      Record(sg, it, tables.value);
      ExtendPlanGroups(old(plan), sg, it, old(groupStamped), old(resourceGroups), groupStamped, resourceGroups);
      ExtendSources(old(groupStamped), old(resourceGroups), old(plan), sg, it, groupStamped, resourceGroups);
      ExtendSubscription(old(subscription), subscription, old(plan), sg, it);
      ExtendValidation(old(plan), sg, it);
      ValidFromParts();
      var leaves := IterationLeaves(it, tables.value.nodes);
      r := Ok(leaves);
    }

    /** Leaf search over the nodes of one recorded iteration; its lookups cannot fail. */
    method IterationLeaves(ghost it: StampIteration, ns: seq<Node>) returns (leaves: seq<Identifier>)
      requires WellFormed(it.pipeline) && it.pipeline.serviceGroup in services
      requires Registered(groupStamped, resourceGroups, it)
      requires forall id :: id in IterIds(it) ==> id in steps && steps[id] == IterStep(it, id)
      requires Ids(ns) == IterIds(it) && ChildEdges(ns) == IterEdges(it) && UniqueIds(ns)
      ensures forall id :: id in leaves <==> id in IterLeaves(it)
    {
      RegisteredKeys(it, groupStamped, resourceGroups);
      IterServiceGroup(it);
      assert forall id :: id in IterIds(it) ==> Lookup(id) == Some(steps[id]);
      forall id | id in IterIds(it) ensures Completes(id) <==> id in IterCompletion(it) {
        IterCompletionIs(it, id);
      }
      NodesInside(it, ns);
      forall n | n in ns ensures IsLeaf(n) <==> n.id in IterLeaves(it) {
        LeafIs(it, ns, n);
      }
      var found := FindLeaves(ns);
      leaves := found.value;
      forall id | id in IterLeaves(it) ensures id in leaves {
        assert id in Ids(ns);
        RecordedEdges(ns);
      }
    }

    method HasIntraServiceParent(n: Node) returns (r: bool)
      ensures r <==> exists p :: p in n.parents && p.serviceGroup == n.id.serviceGroup
    {
      for i := 0 to |n.parents|
        invariant forall k :: 0 <= k < i ==> n.parents[k].serviceGroup != n.id.serviceGroup
      {
        if n.parents[i].serviceGroup == n.id.serviceGroup {
          return true;
        }
      }
      r := false;
    }

    /** The roots of a recorded service that a leaf with the given stamp may lead to, in identifier order. */
    method FindChildRoots(child: string, parentStamp: Stamp) returns (roots: seq<Identifier>)
      requires child in plan && PlanOk(plan) && Ids(nodes) == AllIds(plan) && IntraOk(plan, ParentEdges(nodes))
      requires UniqueIds(nodes)
      ensures forall id :: id in roots <==> id in ServiceRoots(plan[child]) && Compatible(parentStamp, id.stamp)
      ensures Ascending(IdLess, roots)
    {
      hide PlanOk, IntraOk, AllIds, Ids, ParentEdges, ServiceRoots;
      roots := [];
      for i := 0 to |nodes|
        invariant forall id :: id in roots <==>
          exists k :: 0 <= k < i && nodes[k].id == id && id in ServiceRoots(plan[child]) && Compatible(parentStamp, id.stamp)
      {
        var node := nodes[i];
        RootIs(plan, nodes, child, node);
        if node.id.serviceGroup != child {
          continue;
        }
        var intra := HasIntraServiceParent(node);
        if intra {
          continue;
        }
        if parentStamp.IsSet() && node.id.stamp.IsSet() && node.id.stamp != parentStamp {
          continue;
        }
        roots := roots + [node.id];
      }
      RootsRecorded(plan, nodes, child);
      IdLessIsTotal();
      roots := SortCompact(IdLess, roots);
    }

    /** Appends `leaves` to the parents of every node in `roots`. */
    method AddParents(roots: seq<Identifier>, leaves: seq<Identifier>) returns (err: Option<BuildError>)
      requires Indexed(nodes, nodeIndex)
      modifies `nodes
      ensures Indexed(nodes, nodeIndex) && Ids(nodes) == old(Ids(nodes)) && ChildEdges(nodes) == old(ChildEdges(nodes))
      ensures err.None? <==> forall id :: id in roots ==> id in nodeIndex
      ensures err.None? ==> ParentEdges(nodes) == old(ParentEdges(nodes)) + Product(leaves, roots)
    {
      hide *;
      NothingToWire(leaves);
      for i := 0 to |roots|
        invariant Indexed(nodes, nodeIndex) && Ids(nodes) == old(Ids(nodes)) && ChildEdges(nodes) == old(ChildEdges(nodes))
        invariant ParentEdges(nodes) == old(ParentEdges(nodes)) + Product(leaves, roots[..i])
        invariant forall k :: 0 <= k < i ==> roots[k] in nodeIndex
      {
        if roots[i] !in nodeIndex {
          return Some(NodeNotFound(roots[i]));
        }
        ParentsGrow(nodes, nodeIndex, roots[i], leaves);
        var idx := nodeIndex[roots[i]];
        var grown := nodes[idx].(parents := nodes[idx].parents + leaves);
        ProductSnocRight(leaves, roots[..i], roots[i]);
        assert roots[..i + 1] == roots[..i] + [roots[i]];
        nodes := nodes[idx := grown];
      }
      assert roots[..|roots|] == roots;
      err := None;
    }

    /** Appends `roots` to the children of every node in `leaves`. */
    method AddChildren(leaves: seq<Identifier>, roots: seq<Identifier>) returns (err: Option<BuildError>)
      requires Indexed(nodes, nodeIndex)
      modifies `nodes
      ensures Indexed(nodes, nodeIndex) && Ids(nodes) == old(Ids(nodes)) && ParentEdges(nodes) == old(ParentEdges(nodes))
      ensures err.None? <==> forall id :: id in leaves ==> id in nodeIndex
      ensures err.None? ==> ChildEdges(nodes) == old(ChildEdges(nodes)) + Product(leaves, roots)
    {
      hide *;
      NothingToWire(roots);
      for i := 0 to |leaves|
        invariant Indexed(nodes, nodeIndex) && Ids(nodes) == old(Ids(nodes)) && ParentEdges(nodes) == old(ParentEdges(nodes))
        invariant ChildEdges(nodes) == old(ChildEdges(nodes)) + Product(leaves[..i], roots)
        invariant forall k :: 0 <= k < i ==> leaves[k] in nodeIndex
      {
        if leaves[i] !in nodeIndex {
          return Some(NodeNotFound(leaves[i]));
        }
        ChildrenGrow(nodes, nodeIndex, leaves[i], roots);
        var idx := nodeIndex[leaves[i]];
        var grown := nodes[idx].(children := nodes[idx].children + roots);
        ProductSnocLeft(leaves[..i], leaves[i], roots);
        assert leaves[..i + 1] == leaves[..i] + [leaves[i]];
        nodes := nodes[idx := grown];
      }
      assert leaves[..|leaves|] == leaves;
      err := None;
    }

    /** Connects the leaves of one stamp to the roots they may lead to. */
    method WireStamp(child: string, stamp: Stamp, leaves: seq<Identifier>, ghost rs: set<Identifier>)
      returns (err: Option<BuildError>)
      requires Indexed(nodes, nodeIndex) && PlanOk(plan) && Ids(nodes) == AllIds(plan)
      requires IntraOk(plan, ParentEdges(nodes)) && child in plan && rs == ServiceRoots(plan[child])
      requires forall l :: l in leaves ==> l in AllIds(plan) && l.serviceGroup != child
      modifies `nodes
      ensures err.None? && Indexed(nodes, nodeIndex) && IntraOk(plan, ParentEdges(nodes)) && Ids(nodes) == AllIds(plan)
      ensures Adds(old(nodes), StampWires(leaves, stamp, rs), nodes)
    {
      var roots := FindChildRoots(child, stamp);
      assert forall r :: r in roots ==> r in AllIds(plan);
      WiresAreProduct(leaves, stamp, rs, roots);
      err := AddParents(roots, leaves);
      WiresCross(plan, child, leaves, roots, old(ParentEdges(nodes)));
      err := AddChildren(leaves, roots);
    }

    method WireStamps(child: string, allLeaves: map<Stamp, seq<Identifier>>, ghost leaves: set<Identifier>)
      returns (err: Option<BuildError>)
      requires Indexed(nodes, nodeIndex) && PlanOk(plan) && Ids(nodes) == AllIds(plan)
      requires IntraOk(plan, ParentEdges(nodes)) && child in plan
      requires LeafTable(allLeaves, leaves) && forall l :: l in leaves ==> l in AllIds(plan) && l.serviceGroup != child
      modifies `nodes
      ensures err.None? && Indexed(nodes, nodeIndex) && IntraOk(plan, ParentEdges(nodes))
      ensures Adds(old(nodes), WiresOf(leaves, ServiceRoots(plan[child]), allLeaves.Keys), nodes)
    {
      hide *;
      ghost var roots := ServiceRoots(plan[child]);
      ghost var done: set<Stamp> := {};
      AddsNothing(nodes, leaves, roots);
      var remaining := allLeaves.Keys;
      while remaining != {}
        invariant done + remaining == allLeaves.Keys
        invariant Indexed(nodes, nodeIndex) && IntraOk(plan, ParentEdges(nodes)) && Ids(nodes) == AllIds(plan)
        invariant Adds(old(nodes), WiresOf(leaves, roots, done), nodes)
      {
        var stamp :| stamp in remaining;
        LeafTableAt(allLeaves, leaves, stamp);
        ghost var middle := nodes;
        err := WireStamp(child, stamp, allLeaves[stamp], roots);
        WiresStep(allLeaves, leaves, roots, done, stamp);
        AddsTransitive(old(nodes), WiresOf(leaves, roots, done), middle, StampWires(allLeaves[stamp], stamp, roots), nodes);
        remaining := remaining - {stamp};
        done := done + {stamp};
      }
      err := None;
    }

    /** Connects the leaves of a service to the roots of a child service, stamp by stamp. */
    method WireInterServiceEdges(ghost parent: string, child: string, allLeaves: map<Stamp, seq<Identifier>>)
      returns (err: Option<BuildError>)
      requires Valid() && parent in plan && child in plan && parent != child
      requires LeafTable(allLeaves, ServiceLeaves(plan[parent]))
      modifies `nodes
      ensures err.None? && Valid()
      ensures ChildEdges(nodes) == old(ChildEdges(nodes)) + WireEdges(plan[parent], plan[child])
    {
      hide *;
      ghost var before := nodes;
      PlannedServices();
      ValidParts();
      StateParts(plan, nodes, nodeIndex, steps);
      LeavesRecorded(plan, parent);
      err := WireStamps(child, allLeaves, ServiceLeaves(plan[parent]));
      AllWires(allLeaves, plan[parent], plan[child]);
      WiresInside(plan, parent, child);
      WiredState(plan, before, nodeIndex, steps, WireEdges(plan[parent], plan[child]), nodes);
      ValidFromParts();
    }

    /** Opens the record of a new service; no identifier carries its name yet. */
    method OpenService(s: Service)
      requires Valid() && s.serviceGroup !in services
      modifies `services, `plan
      ensures Valid() && services == old(services)[s.serviceGroup := s] && plan == old(plan)[s.serviceGroup := []]
    {
      hide *;
      PlannedServices();
      ValidParts();
      OpenPlan(plan, nodes, nodeIndex, steps, s.serviceGroup);
      OpenSources(groupStamped, resourceGroups, subscription, plan, s.serviceGroup);
      OpenRegistered(groupStamped, resourceGroups, plan, s.serviceGroup);
      OpenValidation(plan, s.serviceGroup);
      services := services[s.serviceGroup := s];
      plan := plan[s.serviceGroup := []];
      ValidFromParts();
    }

    /** Records every expansion of one service and collects its leaves by stamp. */
    method AccumulateService(s: Service, sp: StampPipelines, ghost known: set<Service>)
      returns (r: Result<map<Stamp, seq<Identifier>>, BuildError>, ghost its: seq<StampIteration>)
      requires Valid() && PipelinesOk(sp) && CandidatesOnly(services, plan, sp)
      requires s in known && forall g :: g in services ==> services[g] in known
      modifies this
      ensures r.Err? ==> s.serviceGroup in old(plan) || Faulty(known, s, sp)
      ensures r.Ok? ==> CandidatesOnly(services, plan, sp)
      ensures r.Ok? ==> Valid() && s.serviceGroup !in old(plan)
      ensures r.Ok? ==> services == old(services)[s.serviceGroup := s]
      ensures r.Ok? ==> plan == old(plan)[s.serviceGroup := its] && Expanded(s, sp, its)
      ensures r.Ok? ==> ChildEdges(nodes) == old(ChildEdges(nodes)) + ServiceEdges(its)
      ensures r.Ok? ==> LeafTable(r.value, ServiceLeaves(its)) && forall stamp :: stamp in r.value ==> Ascending(IdLess, r.value[stamp])
    {
      hide *;
      its := [];
      PlannedServices();
      if s.serviceGroup in services {
        return Err(AlreadyRecorded(s.serviceGroup)), its;
      }
      CandidatesOpen(services, plan, sp, s);
      OpenService(s);
      var resolved := ResolveIterations(s, sp);
      if resolved.Err? {
        UnresolvableIsFault(known, s, sp);
        return Err(resolved.error), its;
      }
      its := resolved.value;
      ResolvedOk(s, sp, its);
      ResolvedCandidates(s, sp, its);
      r := AccumulateIterations(s, resolved.value, sp, known);
      if r.Ok? {
        ExpandedIs(s, sp, its);
        assert old(plan)[s.serviceGroup := []][s.serviceGroup := its] == old(plan)[s.serviceGroup := its];
      }
    }

    method AccumulateIterations(s: Service, its: seq<StampIteration>, ghost sp: StampPipelines, ghost known: set<Service>)
      returns (r: Result<map<Stamp, seq<Identifier>>, BuildError>)
      requires Valid() && s.serviceGroup in plan && plan[s.serviceGroup] == [] && services[s.serviceGroup] == s
      requires s.serviceGroup in services && CandidatesOnly(services, plan, sp)
      requires s in known && forall g :: g in services ==> services[g] in known
      requires forall it :: it in its ==> WellFormed(it.pipeline) && it.pipeline.serviceGroup == s.serviceGroup
      requires forall it :: it in its ==> Candidate(s, sp, it)
      requires forall i, j :: 0 <= i < j < |its| ==> its[i].stamp != its[j].stamp
      modifies this
      ensures r.Err? ==> Faulty(known, s, sp)
      ensures r.Ok? ==> CandidatesOnly(services, plan, sp)
      ensures r.Ok? ==> Valid() && services == old(services) && plan == old(plan)[s.serviceGroup := its]
      ensures r.Ok? ==> ChildEdges(nodes) == old(ChildEdges(nodes)) + ServiceEdges(its)
      ensures r.Ok? ==> LeafTable(r.value, ServiceLeaves(its)) && NoneUnfit(s, its)
      ensures r.Ok? ==> forall stamp :: stamp in r.value ==> Ascending(IdLess, r.value[stamp])
    {
      hide *;
      PlannedServices();
      var sg := s.serviceGroup;
      ghost var base, plan0, services0 := ChildEdges(nodes), plan, services;
      var table: map<Stamp, seq<Identifier>> := map[];
      NoLeaves(s);
      for i := 0 to |its|
        invariant Valid() && services == services0 && plan == plan0[sg := its[..i]] && CandidatesOnly(services, plan, sp)
        invariant ChildEdges(nodes) == base + ServiceEdges(its[..i])
        invariant LeafTable(table, ServiceLeaves(its[..i])) && NoneUnfit(s, its[..i])
      {
        ghost var before := plan;
        assert its[i] in its;
        var leaves := AccumulateIteration(sg, its[i]);
        if leaves.Err? {
          assert forall x :: x in its[..i] ==> x.stamp != its[i].stamp;
          RejectionIsFault(known, services0, before, sp, s, its[i]);
          return Err(leaves.error);
        }
        AddIteration(its[..i], its[i]);
        FitsMore(s, its[..i], its[i]);
        CandidatesExtend(services, before, sp, sg, its[i]);
        assert its[..i + 1] == its[..i] + [its[i]];
        ExtendIs(plan0, sg, its[..i], its[i]);
        table := AddLeaves(table, leaves.value, ServiceLeaves(its[..i]), IterLeaves(its[i]));
      }
      assert its[..|its|] == its;
      table := DeduplicateLeaves(table, ServiceLeaves(its));
      r := Ok(table);
    }

    /** Adds a service tree: exactly the edges its topology and its pipelines call for. */
    method Accumulate(s: Service, sp: StampPipelines, ghost known: set<Service>) returns (err: Option<BuildError>)
      requires Valid() && PipelinesOk(sp) && CandidatesOnly(services, plan, sp)
      requires Subtrees(s) <= known && forall g :: g in services ==> services[g] in known
      modifies this
      ensures err.Some? ==> Repeats(old(plan).Keys, Groups(s)) || SomeFault(known, sp)
      ensures err.None? ==> CandidatesOnly(services, plan, sp) && forall g :: g in services ==> services[g] in known
      ensures err.None? ==> Valid() && TreeRecorded(old(services), old(plan), Groups(s), Subtrees(s), sp, services, plan)
      ensures err.None? ==> ChildEdges(nodes) == old(ChildEdges(nodes)) + ForestEdges(Subtrees(s), plan)
      decreases s, 1
    {
      hide *;
      PlannedServices();
      RootInTree(s, known);
      var own, its := AccumulateService(s, sp, known);
      if own.Err? {
        RootRepeats(old(plan).Keys, s);
        FaultIsFault(known, s, sp);
        return Some(own.error);
      }
      ghost var services1, plan1 := services, plan;
      err := AccumulateChildren(s, own.value, sp, known);
      if err.Some? {
        assert plan1.Keys == old(plan).Keys + {s.serviceGroup};
        ChildrenRepeat(old(plan).Keys, s);
      } else {
        TreeComplete(s, sp, its, old(services), old(plan), services1, plan1, services, plan);
        PartialAll(s, plan);
      }
    }

    method AccumulateChildren(s: Service, leaves: map<Stamp, seq<Identifier>>, sp: StampPipelines, ghost known: set<Service>)
      returns (err: Option<BuildError>)
      requires Valid() && PipelinesOk(sp) && CandidatesOnly(services, plan, sp)
      requires ForestSubtrees(s.children) <= known && forall g :: g in services ==> services[g] in known
      requires s.serviceGroup in plan && LeafTable(leaves, ServiceLeaves(plan[s.serviceGroup]))
      modifies this
      ensures err.Some? ==> Repeats(old(plan).Keys, ForestGroups(s.children)) || SomeFault(known, sp)
      ensures err.None? ==> CandidatesOnly(services, plan, sp) && forall g :: g in services ==> services[g] in known
      ensures err.None? ==> Valid()
      ensures err.None? ==>
        TreeRecorded(old(services), old(plan), ForestGroups(s.children), ForestSubtrees(s.children), sp, services, plan)
      ensures err.None? ==> ChildEdges(nodes) == old(ChildEdges(nodes)) + Partial(s.serviceGroup, s.children, plan)
      decreases s, 0
    {
      hide *;
      var sg := s.serviceGroup;
      ghost var services0, plan0, base := services, plan, ChildEdges(nodes);
      NothingRecorded(services, plan, sp);
      PartialNone(sg, plan);
      for i := 0 to |s.children|
        invariant Valid() && TreeRecorded(services0, plan0, ForestGroups(s.children[..i]), ForestSubtrees(s.children[..i]), sp, services, plan)
        invariant ChildEdges(nodes) == base + Partial(sg, s.children[..i], plan)
        invariant CandidatesOnly(services, plan, sp) && forall g :: g in services ==> services[g] in known
      {
        var child := s.children[i];
        ghost var services1, plan1, edges1 := services, plan, ChildEdges(nodes);
        ChildInForest(s.children, i, known);
        err := Accumulate(child, sp, known);
        if err.Some? {
          LaterRepeats(services0, plan0, s.children, i, sp, services1, plan1);
          return;
        }
        ChildRecorded(sg, s.children[..i], child, sp, services0, plan0, services1, plan1, services, plan);
        err := WireInterServiceEdges(sg, child.serviceGroup, leaves);
        if err.Some? {
          return;
        }
        assert s.children[..i + 1] == s.children[..i] + [child];
      }
      assert s.children[..|s.children|] == s.children;
      err := None;
    }

    /**
      * Wires the external dependencies of every node. On the children's side a dependency of a step on itself leaves no
      * trace, or takes the place of another child.
      */
    method AddExternalDependencyEdges() returns (err: Option<BuildError>, ghost loops: set<Link>, ghost lost: set<Link>)
      requires Indexed(nodes, nodeIndex) && steps.Keys == Ids(nodes)
      modifies `nodes
      ensures err.None? <==> AllExternalOk(steps, groupStamped)
      ensures err.None? ==> Indexed(nodes, nodeIndex) && Ids(nodes) == old(Ids(nodes))
      ensures err.None? ==> ParentEdges(nodes) == old(ParentEdges(nodes)) + ExternalEdges(steps, groupStamped)
      ensures err.None? ==>
        ChildEdges(nodes) == old(ChildEdges(nodes)) + WithoutLoops(ExternalEdges(steps, groupStamped)) - lost + loops
      ensures err.None? ==> Displaced(ExternalEdges(steps, groupStamped), loops, lost)
    {
      hide *;
      ghost var ids: set<Identifier> := {};
      ghost var nodes0 := nodes;
      loops, lost := {}, {};
      ExternalStart(nodes, steps, groupStamped);
      IndexedIsUnique(nodes, nodeIndex);
      for i := 0 to |nodes|
        invariant |nodes| == |nodes0| && Indexed(nodes, nodeIndex) && Ids(nodes) == Ids(nodes0)
        invariant ExternalUpTo(nodes0, nodes, ExternalEdgesOf(steps, groupStamped, ids), loops, lost)
        invariant SameIds(nodes0, nodes) && PrefixIds(nodes0, i, ids)
        invariant OkFor(steps, groupStamped, ids)
      {
        LinksRecorded(nodes, i);
        SameIdAt(nodes0, nodes, i);
        ghost var before := nodes;
        ghost var loops2, lost2;
        err, loops2, lost2 := AddExternalFor(i);
        if err.Some? {
          NotAllOk(steps, groupStamped, before[i].id);
          return;
        }
        loops, lost := ExternalNext(nodes0, before, nodes, i, ids, steps, groupStamped, loops, lost, loops2, lost2);
        ids := ids + {nodes0[i].id};
      }
      ExternalEnd(nodes0, nodes, ids, steps, groupStamped, loops, lost);
      err := None;
    }

    method AddExternalFor(i: nat) returns (err: Option<BuildError>, ghost loops: set<Link>, ghost lost: set<Link>)
      requires i < |nodes| && Indexed(nodes, nodeIndex) && nodes[i].id in steps && steps.Keys == Ids(nodes)
      modifies `nodes
      ensures |nodes| == |old(nodes)| && Ids(nodes) == old(Ids(nodes)) && SameIds(old(nodes), nodes)
      ensures Indexed(nodes, nodeIndex)
      ensures err.None? <==> OkFor(steps, groupStamped, {old(nodes)[i].id})
      ensures err.None? ==>
        ExternalUpTo(old(nodes), nodes, ExternalInto(groupStamped, old(nodes)[i].id, steps[old(nodes)[i].id].externalDependsOn), loops, lost)
      ensures forall e :: e in loops || e in lost ==> e.from == old(nodes)[i].id
    {
      hide *;
      loops, lost := {}, {};
      var node := nodes[i];
      var external := steps[node.id].externalDependsOn;
      ghost var nodes0 := nodes;
      assert nodes0[i := node] == nodes0;
      ExternalNone(nodes0, i, groupStamped);
      if |external| == 0 {
        assert external == [];
        AllOkFor(steps, groupStamped, node.id);
        return None, loops, lost;
      }
      // The children the local copy sees: their array is shared with the recorded node until an append moves it.
      var seen, shared := node.children, true;
      SeenFirst(node.children, node.id, ExternalInto(groupStamped, node.id, []));
      for k := 0 to |external|
        invariant |nodes| == |nodes0| && Indexed(nodes, nodeIndex) && SameIds(nodes0, nodes)
        invariant node.id == nodes0[i].id == nodes[i].id
        invariant Ids(nodes) == Ids(nodes0)
        invariant ExternalDone(nodes0, nodes[i := node], ExternalInto(groupStamped, node.id, external[..k]))
        invariant SeenSoFar(node.children, seen, node.id, ExternalInto(groupStamped, node.id, external[..k]))
        invariant forall l :: 0 <= l < k ==> ExternalOk(steps, groupStamped, node.id, external[l])
      {
        var parent;
        parent, err := ResolveExternal(node.id, external[k]);
        if err.Some? {
          NotOkFor(steps, groupStamped, node.id, external[k]);
          return;
        }
        IndexKnows(nodes, nodeIndex, parent);
        SeenNext(node.children, seen, node.id, groupStamped, external[..k], external[k]);
        var parentIdx := nodeIndex[parent];
        var parentNode := nodes[parentIdx];
        if parentIdx == i && shared {
          var room: bool := *;
          if room {
            seen := Overwritten(seen, node.id);
          } else {
            shared := false;
          }
        }
        var grown := parentNode.(children := Deduplicate(parentNode.children + [node.id]));
        ExternalStep(nodes0, nodes, i, node, parentIdx, grown, groupStamped, external[..k], external[k]);
        SameIdsReplace(nodes0, nodes, parentIdx, grown);
        IndexReplace(nodes, nodeIndex, parentIdx, grown);
        nodes := nodes[parentIdx := grown];
        SameIdAt(nodes0, nodes, i);
        node := node.(parents := node.parents + [parent]);
        assert external[..k + 1] == external[..k] + [external[k]];
      }
      assert external[..|external|] == external;
      var final := Node(node.id, seen, Deduplicate(node.parents));
      loops, lost := ExternalFinish(nodes0, nodes, nodeIndex, i, node, final, ExternalInto(groupStamped, node.id, external));
      SameIdsReplace(nodes0, nodes, i, final);
      nodes := nodes[i := final];
      AllOkFor(steps, groupStamped, node.id);
      err := None;
    }

    /** The node an external dependency refers to, or the reason it cannot be wired. */
    method ResolveExternal(id: Identifier, d: ExternalDependency) returns (parent: Identifier, err: Option<BuildError>)
      requires Indexed(nodes, nodeIndex) && steps.Keys == Ids(nodes)
      ensures err.None? <==> ExternalOk(steps, groupStamped, id, d)
      ensures err.None? ==> parent == ExternalParent(groupStamped, id, d) && parent in Ids(nodes)
    {
      parent := Identifier(Unstamped(), d.serviceGroup, d.resourceGroup, d.step);
      if d.resourceGroup !in groupStamped {
        return parent, Some(UnknownTargetGroup(id, d.resourceGroup));
      }
      if id.resourceGroup !in groupStamped {
        return parent, Some(UnknownSourceGroup(id));
      }
      var target := groupStamped[d.resourceGroup].stamped;
      if target && !groupStamped[id.resourceGroup].stamped {
        return parent, Some(StampedTarget(id, d.resourceGroup));
      }
      if target {
        parent := parent.(stamp := id.stamp);
      }
      err := if parent in nodeIndex then None else Some(NodeNotFound(parent));
    }
  }
}
