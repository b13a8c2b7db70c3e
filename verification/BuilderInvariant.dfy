/** What the construction of an execution graph maintains, and how each of its steps extends it. */
module BuilderInvariant {
  import opened Wrappers
  import opened Reachability
  import opened GraphTypes
  import opened Pipelines
  import opened ServiceTree
  import opened GraphSpec
  import opened ServicePlans
  import opened PipelineNodes
  import opened StampResolution

  datatype GroupKey = GroupKey(stamp: Stamp, name: string)

  function KeyOf(id: Identifier): GroupKey { GroupKey(id.stamp, id.resourceGroup) }

  // ----- resource group metadata

  predicate ConstraintEqual(a: ExecutionConstraint, b: ExecutionConstraint) {
    && a.singleton == b.singleton
    && Elements(a.clouds) == Elements(b.clouds)
    && Elements(a.environments) == Elements(b.environments)
    && Elements(a.regions) == Elements(b.regions)
  }

  predicate MetaEqual(a: GroupMeta, b: GroupMeta) {
    && a.name == b.name && a.resourceGroup == b.resourceGroup && a.subscription == b.subscription
    && a.stamped == b.stamped
    && |a.constraints| == |b.constraints|
    && forall i :: 0 <= i < |a.constraints| ==> ConstraintEqual(a.constraints[i], b.constraints[i])
  }

  // ----- the invariant, piece by piece

  /** The index knows every node under its position, and identifiers are unique. */
  ghost predicate Indexed(nodes: seq<Node>, nodeIndex: map<Identifier, nat>) {
    && nodeIndex.Keys == Ids(nodes)
    && (forall i :: 0 <= i < |nodes| ==> nodes[i].id in nodeIndex && nodeIndex[nodes[i].id] == i)
    && (forall id :: id in nodeIndex ==> nodeIndex[id] < |nodes| && nodes[nodeIndex[id]].id == id)
  }

  lemma IndexFresh(nodes: seq<Node>, nodeIndex: map<Identifier, nat>, n: Node)
    requires Indexed(nodes, nodeIndex) && n.id !in nodeIndex
    ensures Indexed(nodes + [n], nodeIndex[n.id := |nodes|])
  {
    AppendNode(nodes, n);
  }

  lemma IndexReplace(nodes: seq<Node>, nodeIndex: map<Identifier, nat>, i: nat, n: Node)
    requires Indexed(nodes, nodeIndex) && i < |nodes| && nodes[i].id == n.id && Ids(nodes[i := n]) == Ids(nodes)
    ensures Indexed(nodes[i := n], nodeIndex)
  {
  }

  function AllIds(plan: Plan): set<Identifier> {
    set sg, id | sg in plan && id in ServiceIds(plan[sg]) :: id
  }

  /** Recorded pipelines are validated and carry the name of their service. */
  ghost predicate PlanOk(plan: Plan) {
    forall sg, it :: sg in plan && it in plan[sg] ==> WellFormed(it.pipeline) && it.pipeline.serviceGroup == sg
  }

  ghost predicate ServiceStepsOk(its: seq<StampIteration>, steps: map<Identifier, Step>) {
    forall id :: id in ServiceIds(its) ==> id in steps && steps[id] == FinalStep(its, id)
  }

  ghost predicate StepsOk(plan: Plan, steps: map<Identifier, Step>) {
    && steps.Keys == AllIds(plan)
    && forall sg :: sg in plan ==> ServiceStepsOk(plan[sg], steps)
  }

  function Intra(edges: set<Link>, sg: string): set<Link> {
    set e | e in edges && e.from.serviceGroup == sg && e.to.serviceGroup == sg
  }

  ghost predicate IntraOk(plan: Plan, edges: set<Link>) {
    forall sg :: sg in plan ==> Intra(edges, sg) == ServiceEdges(plan[sg])
  }

  ghost predicate EdgesInside(edges: set<Link>, ids: set<Identifier>) {
    forall e :: e in edges ==> e.from in ids && e.to in ids
  }

  /** Every group of an iteration is recorded with its own stamped declaration and equal metadata. */
  ghost predicate Registered(groupStamped: map<string, StampedRecord>, groups: map<GroupKey, GroupMeta>, it: StampIteration) {
    forall rg :: rg in it.pipeline.resourceGroups ==>
      && rg.meta.name in groupStamped && groupStamped[rg.meta.name].stamped == rg.meta.stamped
      && var key := GroupKey(it.stamp.If(rg.meta.stamped), rg.meta.name);
         key in groups && MetaEqual(rg.meta, groups[key])
  }

  ghost predicate AllRegistered(groupStamped: map<string, StampedRecord>, groups: map<GroupKey, GroupMeta>, plan: Plan) {
    forall sg, it :: sg in plan && it in plan[sg] ==> Registered(groupStamped, groups, it)
  }

  /** A registration is accepted when it agrees with what is recorded under its name and under its key. */
  predicate AcceptsGroup(groupStamped: map<string, StampedRecord>, groups: map<GroupKey, GroupMeta>, stamp: Stamp, group: GroupMeta) {
    && (group.name in groupStamped ==> groupStamped[group.name].stamped == group.stamped)
    && var key := GroupKey(stamp.If(group.stamped), group.name);
       key in groups ==> MetaEqual(group, groups[key])
  }

  /** Later records keep the stamped declarations and the metadata of earlier ones. */
  ghost predicate Keeps(gs: map<string, StampedRecord>, groups: map<GroupKey, GroupMeta>,
                        gs': map<string, StampedRecord>, groups': map<GroupKey, GroupMeta>) {
    && (forall n :: n in gs ==> n in gs' && gs'[n].stamped == gs[n].stamped)
    && (forall k :: k in groups ==> k in groups' && groups'[k] == groups[k])
  }

  // ----- which expansions can stand side by side

  predicate Provides(it: StampIteration) {
    exists rg :: rg in it.pipeline.resourceGroups && rg.provisioning.Some?
  }

  /** Two declarations of one group name disagree on its stamping, or share a key with different metadata. */
  predicate GroupsClash(a: StampIteration, rg: ResourceGroup, b: StampIteration, rg': ResourceGroup) {
    && rg.meta.name == rg'.meta.name
    && (rg.meta.stamped != rg'.meta.stamped ||
        (a.stamp.If(rg.meta.stamped) == b.stamp.If(rg'.meta.stamped) && !MetaEqual(rg.meta, rg'.meta)))
  }

  /** Two expansions cannot both be recorded. */
  predicate Clash(a: StampIteration, b: StampIteration) {
    || (exists rg, rg' :: rg in a.pipeline.resourceGroups && rg' in b.pipeline.resourceGroups && GroupsClash(a, rg, b, rg'))
    || (Provides(a) && Provides(b))
  }

  /** An expansion that no graph can hold. */
  ghost predicate Unfit(s: Service, it: StampIteration) {
    !OneProvisioning(it.pipeline) || (!s.IsStamped() && exists rg :: rg in it.pipeline.resourceGroups && rg.meta.stamped)
  }

  ghost predicate InPlan(plan: Plan, sg: string, it: StampIteration) {
    sg in plan && it in plan[sg]
  }

  /** A recorded expansion declares the group with this stamping. */
  ghost predicate NameSource(plan: Plan, name: string, stamped: bool) {
    exists sg, it, rg :: InPlan(plan, sg, it) && Declared(it, rg, name) && rg.meta.stamped == stamped
  }

  /** A recorded expansion declares the group under this key with this metadata. */
  ghost predicate KeySource(plan: Plan, k: GroupKey, meta: GroupMeta) {
    exists sg, it, rg :: InPlan(plan, sg, it) && DeclaredAs(it, rg, k, meta)
  }

  /** Every record stems from a declaration of a recorded expansion. */
  ghost predicate Sourced(gs: map<string, StampedRecord>, groups: map<GroupKey, GroupMeta>, plan: Plan) {
    && (forall n :: n in gs ==> NameSource(plan, n, gs[n].stamped))
    && (forall k :: k in groups ==> KeySource(plan, k, groups[k]))
  }

  predicate DeclaredAs(it: StampIteration, rg: ResourceGroup, k: GroupKey, meta: GroupMeta) {
    Declared(it, rg, k.name) && k.stamp == it.stamp.If(rg.meta.stamped) && rg.meta == meta
  }

  predicate Declared(it: StampIteration, rg: ResourceGroup, name: string) {
    rg in it.pipeline.resourceGroups && rg.meta.name == name
  }

  /** A subscription is recorded exactly when a recorded expansion asks for one, and it is the one asked for. */
  ghost predicate SubscriptionSourced(subscription: Option<Subscription>, plan: Plan) {
    && (subscription.Some? <==> exists sg, it :: InPlan(plan, sg, it) && Provides(it))
    && (subscription.Some? ==> exists sg, it :: InPlan(plan, sg, it) && SubscriptionOf(it.pipeline, subscription))
  }

  lemma MetaEqualEquivalence(a: GroupMeta, b: GroupMeta, c: GroupMeta)
    ensures MetaEqual(a, b) ==> MetaEqual(b, a)
    ensures MetaEqual(a, b) && MetaEqual(b, c) ==> MetaEqual(a, c)
  {
  }

  /** Checking a group against the records is checking it against every recorded declaration. */
  lemma AcceptsMeansNoClash(gs: map<string, StampedRecord>, groups: map<GroupKey, GroupMeta>, plan: Plan, it: StampIteration, rg: ResourceGroup)
    requires AllRegistered(gs, groups, plan) && Sourced(gs, groups, plan)
    ensures AcceptsGroup(gs, groups, it.stamp, rg.meta) <==>
      forall sg, it', rg' :: InPlan(plan, sg, it') && rg' in it'.pipeline.resourceGroups ==> !GroupsClash(it', rg', it, rg)
  {
    hide MetaEqual;
    var key := GroupKey(it.stamp.If(rg.meta.stamped), rg.meta.name);
    if AcceptsGroup(gs, groups, it.stamp, rg.meta) {
      forall sg, it', rg' | InPlan(plan, sg, it') && rg' in it'.pipeline.resourceGroups ensures !GroupsClash(it', rg', it, rg) {
        assert Registered(gs, groups, it');
        if rg'.meta.name == rg.meta.name && rg'.meta.stamped == rg.meta.stamped && it'.stamp.If(rg'.meta.stamped) == key.stamp {
          MetaEqualEquivalence(rg.meta, groups[key], rg'.meta);
          MetaEqualEquivalence(rg'.meta, groups[key], rg.meta);
          MetaEqualEquivalence(rg'.meta, rg.meta, rg.meta);
        }
      }
    } else if rg.meta.name in gs && gs[rg.meta.name].stamped != rg.meta.stamped {
      assert NameSource(plan, rg.meta.name, gs[rg.meta.name].stamped);
      var sg, it', rg' :| InPlan(plan, sg, it') && Declared(it', rg', rg.meta.name) && rg'.meta.stamped == gs[rg.meta.name].stamped;
      assert GroupsClash(it', rg', it, rg);
    } else {
      assert KeySource(plan, key, groups[key]);
      var sg, it', rg' :| InPlan(plan, sg, it') && DeclaredAs(it', rg', key, groups[key]);
      MetaEqualEquivalence(rg'.meta, rg.meta, rg.meta);
      assert GroupsClash(it', rg', it, rg);
    }
  }

  lemma FitsMeansNoClash(gs: map<string, StampedRecord>, groups: map<GroupKey, GroupMeta>, subscription: Option<Subscription>,
                         plan: Plan, s: Service, it: StampIteration)
    requires AllRegistered(gs, groups, plan) && Sourced(gs, groups, plan) && SubscriptionSourced(subscription, plan)
    ensures IterationFits(gs, groups, subscription, s, it) <==>
      !Unfit(s, it) && forall sg, it' :: InPlan(plan, sg, it') ==> !Clash(it', it)
  {
    hide AcceptsGroup, GroupsClash, AllRegistered, Sourced;
    forall rg | rg in it.pipeline.resourceGroups
      ensures AcceptsGroup(gs, groups, it.stamp, rg.meta) <==>
        forall sg, it', rg' :: InPlan(plan, sg, it') && rg' in it'.pipeline.resourceGroups ==> !GroupsClash(it', rg', it, rg)
    {
      AcceptsMeansNoClash(gs, groups, plan, it, rg);
    }
  }

  lemma SourcesGrow(plan: Plan, plan': Plan, n: string, stamped: bool, k: GroupKey, meta: GroupMeta)
    requires forall g, x :: InPlan(plan, g, x) ==> InPlan(plan', g, x)
    ensures NameSource(plan, n, stamped) ==> NameSource(plan', n, stamped)
    ensures KeySource(plan, k, meta) ==> KeySource(plan', k, meta)
  {
    if NameSource(plan, n, stamped) {
      var g, x, rg :| InPlan(plan, g, x) && Declared(x, rg, n) && rg.meta.stamped == stamped;
      assert InPlan(plan', g, x);
    }
    if KeySource(plan, k, meta) {
      var g, x, rg :| InPlan(plan, g, x) && DeclaredAs(x, rg, k, meta);
      assert InPlan(plan', g, x);
    }
  }

  lemma ExtendSources(gs: map<string, StampedRecord>, groups: map<GroupKey, GroupMeta>, plan: Plan, sg: string, it: StampIteration,
                      gs': map<string, StampedRecord>, groups': map<GroupKey, GroupMeta>)
    requires Sourced(gs, groups, plan) && sg in plan && RecordsFrom(gs, groups, it, gs', groups')
    ensures Sourced(gs', groups', Extend(plan, sg, it))
  {
    hide Declared, DeclaredAs, NameSource, KeySource;
    var plan' := Extend(plan, sg, it);
    assert forall g, x :: InPlan(plan, g, x) ==> InPlan(plan', g, x);
    forall n | n in gs' ensures NameSource(plan', n, gs'[n].stamped) {
      if n in gs && gs[n].stamped == gs'[n].stamped {
        SourcesGrow(plan, plan', n, gs[n].stamped, GroupKey(Unstamped(), ""), GroupMeta("", "", "", false, []));
      } else {
        NewName(plan', sg, it, n, gs'[n].stamped);
      }
    }
    forall k | k in groups' ensures KeySource(plan', k, groups'[k]) {
      if k in groups && groups[k] == groups'[k] {
        SourcesGrow(plan, plan', "", false, k, groups[k]);
      } else {
        NewKey(plan', sg, it, k, groups'[k]);
      }
    }
  }

  lemma NewName(plan: Plan, sg: string, it: StampIteration, n: string, stamped: bool)
    requires InPlan(plan, sg, it) && exists rg :: Declared(it, rg, n) && rg.meta.stamped == stamped
    ensures NameSource(plan, n, stamped)
  {
  }

  lemma NewKey(plan: Plan, sg: string, it: StampIteration, k: GroupKey, meta: GroupMeta)
    requires InPlan(plan, sg, it) && exists rg :: DeclaredAs(it, rg, k, meta)
    ensures KeySource(plan, k, meta)
  {
  }

  /** What is recorded later was recorded before or is declared by `it`. */
  ghost predicate RecordsFrom(gs: map<string, StampedRecord>, groups: map<GroupKey, GroupMeta>, it: StampIteration,
                              gs': map<string, StampedRecord>, groups': map<GroupKey, GroupMeta>) {
    && (forall n :: n in gs' ==>
          (n in gs && gs[n].stamped == gs'[n].stamped) || exists rg :: Declared(it, rg, n) && rg.meta.stamped == gs'[n].stamped)
    && (forall k :: k in groups' ==>
          (k in groups && groups[k] == groups'[k]) || exists rg :: DeclaredAs(it, rg, k, groups'[k]))
  }

  /** At most one recorded expansion asks for a subscription. */
  ghost predicate OneProvider(plan: Plan) {
    forall sg, i, sg', j ::
      (sg in plan && 0 <= i < |plan[sg]| && sg' in plan && 0 <= j < |plan[sg']| && Provides(plan[sg][i]) && Provides(plan[sg'][j]))
      ==> sg == sg' && i == j
  }

  lemma ExtendSubscription(subscription: Option<Subscription>, subscription': Option<Subscription>, plan: Plan, sg: string, it: StampIteration)
    requires SubscriptionSourced(subscription, plan) && OneProvider(plan) && sg in plan
    requires subscription'.Some? <==> subscription.Some? || Provides(it)
    requires if Provides(it) then subscription.None? && SubscriptionOf(it.pipeline, subscription') else subscription' == subscription
    ensures SubscriptionSourced(subscription', Extend(plan, sg, it)) && OneProvider(Extend(plan, sg, it))
  {
    hide Provides, SubscriptionOf;
    var plan' := Extend(plan, sg, it);
    assert forall g, x :: InPlan(plan', g, x) <==> InPlan(plan, g, x) || (g == sg && x == it);
    assert InPlan(plan', sg, it);
    if Provides(it) {
      forall g, i | g in plan && 0 <= i < |plan[g]| ensures !Provides(plan[g][i]) {
        assert InPlan(plan, g, plan[g][i]);
      }
    }
  }

  lemma OpenRegistered(gs: map<string, StampedRecord>, groups: map<GroupKey, GroupMeta>, plan: Plan, sg: string)
    requires AllRegistered(gs, groups, plan) && sg !in plan
    ensures AllRegistered(gs, groups, plan[sg := []])
  {
    hide Registered;
  }

  lemma OpenSources(gs: map<string, StampedRecord>, groups: map<GroupKey, GroupMeta>, subscription: Option<Subscription>, plan: Plan, sg: string)
    requires sg !in plan && Sourced(gs, groups, plan) && SubscriptionSourced(subscription, plan) && OneProvider(plan)
    ensures Sourced(gs, groups, plan[sg := []]) && SubscriptionSourced(subscription, plan[sg := []]) && OneProvider(plan[sg := []])
  {
    hide Declared, DeclaredAs, NameSource, KeySource, Provides, SubscriptionOf;
    var plan' := plan[sg := []];
    assert forall g, x :: InPlan(plan', g, x) <==> InPlan(plan, g, x);
    forall n | n in gs ensures NameSource(plan', n, gs[n].stamped) {
      SourcesGrow(plan, plan', n, gs[n].stamped, GroupKey(Unstamped(), ""), GroupMeta("", "", "", false, []));
    }
    forall k | k in groups ensures KeySource(plan', k, groups[k]) {
      SourcesGrow(plan, plan', "", false, k, groups[k]);
    }
  }

  /** The identifiers of the validation steps of all recorded expansions. */
  function AllValidationIds(plan: Plan): set<Identifier> {
    set sg, it, id | sg in plan && it in plan[sg] && id in ValidationIds(it) :: id
  }

  lemma OpenValidation(plan: Plan, sg: string)
    requires sg !in plan
    ensures AllValidationIds(plan[sg := []]) == AllValidationIds(plan)
  {
    hide ValidationIds;
    forall id ensures id in AllValidationIds(plan[sg := []]) <==> id in AllValidationIds(plan) {
      if g, it :| g in plan && it in plan[g] && id in ValidationIds(it) {
        assert it in plan[sg := []][g];
      }
    }
  }

  lemma ExtendValidation(plan: Plan, sg: string, it: StampIteration)
    requires sg in plan
    ensures AllValidationIds(Extend(plan, sg, it)) == AllValidationIds(plan) + ValidationIds(it)
  {
    hide ValidationIds;
    var plan' := Extend(plan, sg, it);
    forall id ensures id in AllValidationIds(plan') <==> id in AllValidationIds(plan) || id in ValidationIds(it) {
      if id in ValidationIds(it) {
        assert it in plan'[sg];
      }
      if g, x :| g in plan && x in plan[g] && id in ValidationIds(x) {
        assert x in plan'[g];
      }
    }
  }

  // ----- why a set of services cannot be built

  /** Recorded expansions are candidates of the recorded services. */
  ghost predicate CandidatesOnly(services: map<string, Service>, plan: Plan, sp: StampPipelines) {
    && (forall g :: g in services ==> services[g].serviceGroup == g)
    && (forall g, it :: InPlan(plan, g, it) ==> g in services && Candidate(services[g], sp, it))
  }

  /** A service without usable pipelines, or with an expansion that is unfit or clashes with one of another candidate. */
  ghost predicate Faulty(known: set<Service>, t: Service, sp: StampPipelines) {
    || !Resolvable(t, sp)
    || exists it :: Candidate(t, sp, it) && (Unfit(t, it) || ClashesWith(known, t, it, sp))
  }

  ghost predicate ClashesWith(known: set<Service>, t: Service, it: StampIteration, sp: StampPipelines) {
    exists t', it' :: t' in known && Candidate(t', sp, it') && (t' != t || it'.stamp != it.stamp) && Clash(it', it)
  }

  lemma MetaEqualReflexive(a: GroupMeta)
    ensures MetaEqual(a, a)
  {
  }

  /** The recorded expansions, the nodes, the index and the steps describe one graph. */
  ghost predicate StateOk(plan: Plan, nodes: seq<Node>, nodeIndex: map<Identifier, nat>, steps: map<Identifier, Step>) {
    && Indexed(nodes, nodeIndex)
    && PlanOk(plan)
    && Ids(nodes) == AllIds(plan)
    && StepsOk(plan, steps)
    && ChildEdges(nodes) == ParentEdges(nodes)
    && EdgesInside(ParentEdges(nodes), Ids(nodes))
    && IntraOk(plan, ParentEdges(nodes))
  }

  // ----- registering the groups of one iteration

  /** The groups of an iteration outside `remaining` are registered on top of `gs0` and `groups0`. */
  ghost predicate PartlyRegistered(gs0: map<string, StampedRecord>, groups0: map<GroupKey, GroupMeta>, it: StampIteration, remaining: set<string>,
                                   gs: map<string, StampedRecord>, groups: map<GroupKey, GroupMeta>) {
    && Keeps(gs0, groups0, gs, groups)
    && RecordsFrom(gs0, groups0, it, gs, groups)
    && (forall n :: n in remaining ==> (n in gs <==> n in gs0))
    && (forall k :: k in groups && k.name in remaining ==> k in groups0)
    && (forall rg :: rg in it.pipeline.resourceGroups && rg.meta.name !in remaining ==>
          AcceptsGroup(gs0, groups0, it.stamp, rg.meta) && RegisteredGroup(gs, groups, it, rg))
  }

  ghost predicate RegisteredGroup(gs: map<string, StampedRecord>, groups: map<GroupKey, GroupMeta>, it: StampIteration, rg: ResourceGroup) {
    && rg.meta.name in gs && gs[rg.meta.name].stamped == rg.meta.stamped
    && var key := GroupKey(it.stamp.If(rg.meta.stamped), rg.meta.name);
       key in groups && MetaEqual(rg.meta, groups[key])
  }

  lemma RegistrationStart(it: StampIteration, table: map<string, GroupMeta>, gs: map<string, StampedRecord>, groups: map<GroupKey, GroupMeta>)
    requires GroupTable(it.pipeline.resourceGroups, table)
    ensures PartlyRegistered(gs, groups, it, table.Keys, gs, groups)
  {
  }

  lemma GroupNamed(it: StampIteration, table: map<string, GroupMeta>, name: string) returns (rg: ResourceGroup)
    requires GroupTable(it.pipeline.resourceGroups, table) && name in table
    ensures rg in it.pipeline.resourceGroups && rg.meta == table[name] && rg.meta.name == name
  {
    rg :| rg in it.pipeline.resourceGroups && rg.meta.name == name;
  }

  lemma AcceptsAsBefore(gs0: map<string, StampedRecord>, groups0: map<GroupKey, GroupMeta>, it: StampIteration, remaining: set<string>,
                        gs: map<string, StampedRecord>, groups: map<GroupKey, GroupMeta>, rg: ResourceGroup)
    requires PartlyRegistered(gs0, groups0, it, remaining, gs, groups) && rg in it.pipeline.resourceGroups && rg.meta.name in remaining
    ensures AcceptsGroup(gs, groups, it.stamp, rg.meta) <==> AcceptsGroup(gs0, groups0, it.stamp, rg.meta)
    ensures !AcceptsGroup(gs, groups, it.stamp, rg.meta) ==>
      exists r :: r in it.pipeline.resourceGroups && !AcceptsGroup(gs0, groups0, it.stamp, r.meta)
  {
    hide MetaEqual, RecordsFrom;
  }

  lemma RegistrationStep(gs0: map<string, StampedRecord>, groups0: map<GroupKey, GroupMeta>, it: StampIteration, remaining: set<string>,
                         gs: map<string, StampedRecord>, groups: map<GroupKey, GroupMeta>, rg: ResourceGroup, sg: string,
                         gs': map<string, StampedRecord>, groups': map<GroupKey, GroupMeta>)
    requires PartlyRegistered(gs0, groups0, it, remaining, gs, groups)
    requires WellFormed(it.pipeline) && rg in it.pipeline.resourceGroups && rg.meta.name in remaining
    requires AcceptsGroup(gs, groups, it.stamp, rg.meta)
    requires gs' == gs[rg.meta.name := StampedRecord(rg.meta.stamped, sg)]
    requires var key := GroupKey(it.stamp.If(rg.meta.stamped), rg.meta.name);
             groups' == if key in groups then groups else groups[key := rg.meta]
    ensures PartlyRegistered(gs0, groups0, it, remaining - {rg.meta.name}, gs', groups')
  {
    hide MetaEqual, WellFormed, RecordsFrom, RegisteredGroup;
    MetaEqualReflexive(rg.meta);
    AcceptsAsBefore(gs0, groups0, it, remaining, gs, groups, rg);
    RecordsOneMore(gs0, groups0, it, gs, groups, rg, sg, gs', groups');
    forall r | r in it.pipeline.resourceGroups && r.meta.name !in remaining - {rg.meta.name}
      ensures AcceptsGroup(gs0, groups0, it.stamp, r.meta) && RegisteredGroup(gs', groups', it, r)
    {
      if r.meta.name == rg.meta.name {
        NamedOnce(it.pipeline, r, rg);
      }
      RegisteredOneMore(it, gs, groups, r, rg, sg, gs', groups');
    }
  }

  lemma NamedOnce(p: Pipeline, a: ResourceGroup, b: ResourceGroup)
    requires WellFormed(p) && a in p.resourceGroups && b in p.resourceGroups && a.meta.name == b.meta.name
    ensures a == b
  {
  }

  lemma RegisteredOneMore(it: StampIteration, gs: map<string, StampedRecord>, groups: map<GroupKey, GroupMeta>, r: ResourceGroup,
                          rg: ResourceGroup, sg: string, gs': map<string, StampedRecord>, groups': map<GroupKey, GroupMeta>)
    requires r == rg || (r.meta.name != rg.meta.name && RegisteredGroup(gs, groups, it, r))
    requires AcceptsGroup(gs, groups, it.stamp, rg.meta)
    requires gs' == gs[rg.meta.name := StampedRecord(rg.meta.stamped, sg)]
    requires var key := GroupKey(it.stamp.If(rg.meta.stamped), rg.meta.name);
             groups' == if key in groups then groups else groups[key := rg.meta]
    ensures RegisteredGroup(gs', groups', it, r)
  {
    hide MetaEqual;
    MetaEqualReflexive(rg.meta);
  }

  lemma RecordsOneMore(gs0: map<string, StampedRecord>, groups0: map<GroupKey, GroupMeta>, it: StampIteration,
                       gs: map<string, StampedRecord>, groups: map<GroupKey, GroupMeta>, rg: ResourceGroup, sg: string,
                       gs': map<string, StampedRecord>, groups': map<GroupKey, GroupMeta>)
    requires RecordsFrom(gs0, groups0, it, gs, groups) && rg in it.pipeline.resourceGroups
    requires gs' == gs[rg.meta.name := StampedRecord(rg.meta.stamped, sg)]
    requires var key := GroupKey(it.stamp.If(rg.meta.stamped), rg.meta.name);
             groups' == if key in groups then groups else groups[key := rg.meta]
    ensures RecordsFrom(gs0, groups0, it, gs', groups')
  {
    var key := GroupKey(it.stamp.If(rg.meta.stamped), rg.meta.name);
    assert Declared(it, rg, rg.meta.name) && DeclaredAs(it, rg, key, rg.meta);
  }

  lemma RegistrationEnd(gs0: map<string, StampedRecord>, groups0: map<GroupKey, GroupMeta>, it: StampIteration,
                        gs: map<string, StampedRecord>, groups: map<GroupKey, GroupMeta>)
    requires PartlyRegistered(gs0, groups0, it, {}, gs, groups)
    ensures forall rg :: rg in it.pipeline.resourceGroups ==> AcceptsGroup(gs0, groups0, it.stamp, rg.meta)
    ensures Registered(gs, groups, it) && Keeps(gs0, groups0, gs, groups) && RecordsFrom(gs0, groups0, it, gs, groups)
  {
    hide MetaEqual, RecordsFrom, AcceptsGroup;
    forall rg | rg in it.pipeline.resourceGroups ensures RegisteredGroup(gs, groups, it, rg) {
    }
  }

  /** Whether an iteration of a service fits what has been recorded so far. */
  ghost predicate IterationFits(gs: map<string, StampedRecord>, groups: map<GroupKey, GroupMeta>,
                                subscription: Option<Subscription>, s: Service, it: StampIteration) {
    && OneProvisioning(it.pipeline)
    && (s.IsStamped() || forall rg :: rg in it.pipeline.resourceGroups ==> !rg.meta.stamped)
    && (forall rg :: rg in it.pipeline.resourceGroups ==> AcceptsGroup(gs, groups, it.stamp, rg.meta))
    && (subscription.None? || forall rg :: rg in it.pipeline.resourceGroups ==> rg.provisioning.None?)
  }

  // ----- bookkeeping for external dependencies

  /** `after` has the nodes of `before`; `links` were added to the parents, and to the children unless they are loops. */
  ghost predicate ExternalDone(before: seq<Node>, after: seq<Node>, links: set<Link>) {
    && Ids(after) == Ids(before)
    && ParentEdges(after) == ParentEdges(before) + links
    && ChildEdges(after) == ChildEdges(before) + WithoutLoops(links)
  }

  ghost predicate SameIds(before: seq<Node>, after: seq<Node>) {
    |before| == |after| && forall k :: 0 <= k < |before| ==> after[k].id == before[k].id
  }

  ghost predicate PrefixIds(nodes: seq<Node>, i: nat, ids: set<Identifier>) {
    i <= |nodes| && ids == Ids(nodes[..i])
  }

  ghost predicate OkFor(steps: map<Identifier, Step>, gs: map<string, StampedRecord>, ids: set<Identifier>) {
    forall id, d :: id in ids && id in steps && d in steps[id].externalDependsOn ==> ExternalOk(steps, gs, id, d)
  }

  lemma ExternalStart(nodes: seq<Node>, steps: map<Identifier, Step>, gs: map<string, StampedRecord>)
    ensures ExternalUpTo(nodes, nodes, ExternalEdgesOf(steps, gs, {}), {}, {}) && SameIds(nodes, nodes)
    ensures PrefixIds(nodes, 0, {}) && OkFor(steps, gs, {})
  {
    assert ExternalEdgesOf(steps, gs, {}) == {};
    assert nodes[..0] == [];
  }

  lemma ExternalNone(nodes: seq<Node>, i: nat, gs: map<string, StampedRecord>)
    requires i < |nodes|
    ensures ExternalDone(nodes, nodes, ExternalInto(gs, nodes[i].id, [])) && SameIds(nodes, nodes)
    ensures ExternalUpTo(nodes, nodes, ExternalInto(gs, nodes[i].id, []), {}, {})
  {
    assert ExternalInto(gs, nodes[i].id, []) == {};
  }

  lemma IndexKnows(nodes: seq<Node>, nodeIndex: map<Identifier, nat>, id: Identifier)
    requires Indexed(nodes, nodeIndex) && id in Ids(nodes)
    ensures id in nodeIndex && nodeIndex[id] < |nodes| && nodes[nodeIndex[id]].id == id
    ensures forall k :: 0 <= k < |nodes| && nodes[k].id == id ==> k == nodeIndex[id]
  {
  }

  lemma IndexedIsUnique(nodes: seq<Node>, nodeIndex: map<Identifier, nat>)
    requires Indexed(nodes, nodeIndex)
    ensures UniqueIds(nodes)
  {
  }

  lemma SameIdAt(before: seq<Node>, after: seq<Node>, k: nat)
    requires SameIds(before, after) && k < |before|
    ensures k < |after| && after[k].id == before[k].id
  {
  }

  lemma SameIdsReplace(nodes0: seq<Node>, nodes: seq<Node>, i: nat, n: Node)
    requires SameIds(nodes0, nodes) && i < |nodes| && n.id == nodes[i].id
    ensures SameIds(nodes0, nodes[i := n])
  {
  }

  lemma NotOkFor(steps: map<Identifier, Step>, gs: map<string, StampedRecord>, id: Identifier, d: ExternalDependency)
    requires id in steps && d in steps[id].externalDependsOn && !ExternalOk(steps, gs, id, d)
    ensures !OkFor(steps, gs, {id})
  {
  }

  lemma AllOkFor(steps: map<Identifier, Step>, gs: map<string, StampedRecord>, id: Identifier)
    requires id in steps
    requires var ds := steps[id].externalDependsOn; forall l :: 0 <= l < |ds| ==> ExternalOk(steps, gs, id, ds[l])
    ensures OkFor(steps, gs, {id})
  {
  }

  lemma NotAllOk(steps: map<Identifier, Step>, gs: map<string, StampedRecord>, id: Identifier)
    requires !OkFor(steps, gs, {id})
    ensures !AllExternalOk(steps, gs)
  {
  }

  lemma OneMoreExternal(gs: map<string, StampedRecord>, id: Identifier, deps: seq<ExternalDependency>, d: ExternalDependency)
    ensures var parent := ExternalParent(gs, id, d);
            var links := ExternalInto(gs, id, deps);
            && ExternalInto(gs, id, deps + [d]) == links + {Edge(parent, id)}
            && Product([parent], [id]) == {Edge(parent, id)}
            && WithoutLoops(links + {Edge(parent, id)}) == WithoutLoops(links) + if parent == id then {} else {Edge(parent, id)}
  {
    var parent := ExternalParent(gs, id, d);
    var links := ExternalInto(gs, id, deps);
    assert ExternalInto(gs, id, deps + [d]) == links + {Edge(parent, id)};
    assert WithoutLoops(links + {Edge(parent, id)}) == WithoutLoops(links) + if parent == id then {} else {Edge(parent, id)};
  }

  /** One more dependency: the parent gains a child, the local copy of the node gains a parent. */
  lemma ExternalStep(nodes0: seq<Node>, nodes: seq<Node>, i: nat, node: Node, j: nat, grown: Node,
                     gs: map<string, StampedRecord>, deps: seq<ExternalDependency>, d: ExternalDependency)
    requires |nodes| == |nodes0| && i < |nodes| && j < |nodes| && node.id == nodes[i].id
    requires forall k :: 0 <= k < |nodes| && nodes[k].id == nodes[j].id ==> k == j
    requires ExternalDone(nodes0, nodes[i := node], ExternalInto(gs, node.id, deps))
    requires nodes[j].id == ExternalParent(gs, node.id, d) && grown == nodes[j].(children := grown.children)
    requires forall c :: c in grown.children <==> c in nodes[j].children || c == node.id
    ensures Ids(nodes[j := grown]) == Ids(nodes)
    ensures ExternalDone(nodes0, nodes[j := grown][i := node.(parents := node.parents + [nodes[j].id])], ExternalInto(gs, node.id, deps + [d]))
  {
    hide Ids, ChildEdges, ParentEdges, ExternalInto, Product, WithoutLoops;
    var parent := nodes[j].id;
    var links := ExternalInto(gs, node.id, deps);
    OneMoreExternal(gs, node.id, deps, d);
    var more := node.(parents := node.parents + [parent]);
    var now := nodes[i := node];
    MoreParents(now, i, [parent]);
    assert now[i := more] == nodes[i := more];
    LinksUnchanged(nodes, j, grown);
    if i == j {
      assert nodes[j := grown][i := more] == nodes[i := more];
    } else {
      assert nodes[j := grown][i := more] == nodes[i := more][j := grown];
      NewChild(nodes[i := more], j, grown, node.id);
    }
  }

  lemma LinksUnchanged(nodes: seq<Node>, j: nat, grown: Node)
    requires j < |nodes| && grown == nodes[j].(children := grown.children)
    requires forall c :: c in nodes[j].children ==> c in grown.children
    ensures Ids(nodes[j := grown]) == Ids(nodes)
  {
    assert ChildLinks(nodes[j]) <= ChildLinks(grown) && ParentLinks(nodes[j]) <= ParentLinks(grown);
    GrowNode(nodes, j, grown);
  }

  lemma NewChild(nodes: seq<Node>, j: nat, grown: Node, child: Identifier)
    requires j < |nodes| && grown == nodes[j].(children := grown.children)
    requires forall c :: c in grown.children <==> c in nodes[j].children || c == child
    ensures Ids(nodes[j := grown]) == Ids(nodes) && ParentEdges(nodes[j := grown]) == ParentEdges(nodes)
    ensures ChildEdges(nodes[j := grown]) == ChildEdges(nodes) + {Edge(nodes[j].id, child)}
  {
    assert ChildLinks(grown) == ChildLinks(nodes[j]) + {Edge(nodes[j].id, child)};
    assert ParentLinks(grown) == ParentLinks(nodes[j]);
    GrowNode(nodes, j, grown);
    LinksRecorded(nodes, j);
  }

  /**
    * What the local copy of a node sees of its children: what they were, until a dependency on itself may have been
    * written into their array.
    */
  ghost predicate SeenSoFar(children: seq<Identifier>, seen: seq<Identifier>, id: Identifier, links: set<Link>) {
    seen == children || (SeenAs(children, seen, id) && Edge(id, id) in links)
  }

  lemma SeenFirst(children: seq<Identifier>, id: Identifier, links: set<Link>)
    ensures SeenSoFar(children, children, id, links)
  {
  }

  lemma SeenNext(children: seq<Identifier>, seen: seq<Identifier>, id: Identifier, gs: map<string, StampedRecord>,
                 deps: seq<ExternalDependency>, d: ExternalDependency)
    requires SeenSoFar(children, seen, id, ExternalInto(gs, id, deps))
    ensures SeenSoFar(children, seen, id, ExternalInto(gs, id, deps + [d]))
    ensures ExternalParent(gs, id, d) == id ==> SeenSoFar(children, Overwritten(seen, id), id, ExternalInto(gs, id, deps + [d]))
  {
    OneMoreExternal(gs, id, deps, d);
    if seen == children {
      OverwrittenIs(children, id);
    } else {
      OverwrittenAgain(children, seen, id);
    }
    hide SeenAs, ExternalInto, ExternalParent, Overwritten, WithoutLoops, Product;
  }

  /**
    * `after` has the nodes of `before`; `links` were added to the parents, and to the children except that a loop may be
    * missing, or be there in the place of another edge.
    */
  ghost predicate ExternalUpTo(before: seq<Node>, after: seq<Node>, links: set<Link>, loops: set<Link>, lost: set<Link>) {
    && Ids(after) == Ids(before)
    && ParentEdges(after) == ParentEdges(before) + links
    && ChildEdges(after) == ChildEdges(before) + WithoutLoops(links) - lost + loops
    && Displaced(links, loops, lost)
  }

  /** Writing the local copy back, with the children it sees. */
  lemma ExternalFinish(nodes0: seq<Node>, nodes: seq<Node>, nodeIndex: map<Identifier, nat>, i: nat, node: Node, last: Node, links: set<Link>)
    returns (loops: set<Link>, lost: set<Link>)
    requires i < |nodes| && node.id == nodes[i].id && Indexed(nodes, nodeIndex) && Ids(nodes) == Ids(nodes0)
    requires ExternalDone(nodes0, nodes[i := node], links)
    requires last == Node(node.id, last.children, last.parents) && forall p :: p in last.parents <==> p in node.parents
    requires SeenSoFar(node.children, last.children, node.id, links)
    ensures ExternalUpTo(nodes0, nodes[i := last], links, loops, lost) && Indexed(nodes[i := last], nodeIndex)
    ensures Ids(nodes[i := last]) == Ids(nodes)
    ensures forall e :: e in loops || e in lost ==> e.from == node.id
  {
    var now := nodes[i := node];
    assert now[i := last] == nodes[i := last];
    assert ParentLinks(last) == ParentLinks(node);
    ReplaceNode(now, i, last);
    LinksRecorded(now, i);
    IndexReplace(nodes, nodeIndex, i, last);
    loops, lost := ChildLinks(last) - ChildLinks(node), ChildLinks(node) - ChildLinks(last);
    hide Ids, ParentEdges, ChildEdges, Indexed, SeenAs;
    SeenLinks(node, last, links, loops, lost);
    Exchange(ChildEdges(now), ChildLinks(node), ChildLinks(last));
  }

  lemma Exchange(edges: set<Link>, before: set<Link>, after: set<Link>)
    requires before <= edges
    ensures edges - before + after == edges - (before - after) + (after - before)
  {
  }

  lemma SeenLinks(node: Node, last: Node, links: set<Link>, loops: set<Link>, lost: set<Link>)
    requires node.id == last.id && SeenSoFar(node.children, last.children, node.id, links)
    requires loops == ChildLinks(last) - ChildLinks(node) && lost == ChildLinks(node) - ChildLinks(last)
    ensures Displaced(links, loops, lost) && forall e :: e in loops || e in lost ==> e.from == node.id
  {
    if gone :| AtMostOne(node.children, node.id, gone) && SeenBut(node.children, last.children, node.id, gone) {
      forall e, f | e in lost && f in lost ensures e == f {
        assert e.to in gone && f.to in gone;
        OneElement(gone, e.to, f.to);
      }
      if e :| e in lost {
        NewChildIsSelf(node, last, gone, e);
      }
    }
  }

  lemma OneElement(s: set<Identifier>, a: Identifier, b: Identifier)
    requires |s| <= 1 && a in s && b in s
    ensures a == b
  {
    var rest := s - {a};
    assert |rest| == |s| - 1;
    assert b == a || b in rest;
  }

  /** Where a child is gone the identifier itself is new. */
  lemma NewChildIsSelf(node: Node, last: Node, gone: set<Identifier>, e: Link)
    requires last.id == node.id && AtMostOne(node.children, node.id, gone) && SeenBut(node.children, last.children, node.id, gone)
    requires e in ChildLinks(node) - ChildLinks(last)
    ensures e.to in gone && Edge(node.id, node.id) in ChildLinks(last) - ChildLinks(node)
  {
    assert e.to in node.children && e.to !in last.children;
  }

  lemma ExternalNext(nodes0: seq<Node>, before: seq<Node>, after: seq<Node>, i: nat, ids: set<Identifier>,
                     steps: map<Identifier, Step>, gs: map<string, StampedRecord>,
                     loops1: set<Link>, lost1: set<Link>, loops2: set<Link>, lost2: set<Link>)
    returns (loops: set<Link>, lost: set<Link>)
    requires i < |nodes0| == |before| == |after| && SameIds(nodes0, before) && SameIds(before, after) && PrefixIds(nodes0, i, ids)
    requires nodes0[i].id in steps && UniqueIds(nodes0)
    requires ExternalUpTo(nodes0, before, ExternalEdgesOf(steps, gs, ids), loops1, lost1)
    requires ExternalUpTo(before, after, ExternalInto(gs, nodes0[i].id, steps[nodes0[i].id].externalDependsOn), loops2, lost2)
    requires forall e :: e in loops2 || e in lost2 ==> e.from == nodes0[i].id
    requires OkFor(steps, gs, ids) && OkFor(steps, gs, {nodes0[i].id})
    ensures ExternalUpTo(nodes0, after, ExternalEdgesOf(steps, gs, ids + {nodes0[i].id}), loops, lost)
    ensures SameIds(nodes0, after) && PrefixIds(nodes0, i + 1, ids + {nodes0[i].id}) && OkFor(steps, gs, ids + {nodes0[i].id})
  {
    var id := nodes0[i].id;
    assert nodes0[..i + 1][..i] == nodes0[..i];
    var a, b := ExternalEdgesOf(steps, gs, ids), ExternalInto(gs, id, steps[id].externalDependsOn);
    assert ExternalEdgesOf(steps, gs, ids + {id}) == a + b;
    NotInPrefix(nodes0, i, ids);
    assert forall e :: e in a ==> e.to in ids;
    hide Ids, ParentEdges, ChildEdges, ExternalEdgesOf, ExternalInto, OkFor, UniqueIds;
    loops, lost := UpToBoth(nodes0, before, after, a, b, loops1, lost1, loops2, lost2, id);
  }

  lemma NotInPrefix(nodes: seq<Node>, i: nat, ids: set<Identifier>)
    requires i < |nodes| && UniqueIds(nodes) && PrefixIds(nodes, i, ids)
    ensures nodes[i].id !in ids
  {
    RecordedEdges(nodes[..i]);
  }

  lemma UpToBoth(nodes0: seq<Node>, before: seq<Node>, after: seq<Node>, a: set<Link>, b: set<Link>,
                 loops1: set<Link>, lost1: set<Link>, loops2: set<Link>, lost2: set<Link>, id: Identifier)
    returns (loops: set<Link>, lost: set<Link>)
    requires ExternalUpTo(nodes0, before, a, loops1, lost1) && ExternalUpTo(before, after, b, loops2, lost2)
    requires forall e :: e in loops2 || e in lost2 ==> e.from == id
    requires forall e :: e in a ==> e.to != id
    ensures ExternalUpTo(nodes0, after, a + b, loops, lost)
  {
    hide Ids, ParentEdges, ChildEdges;
    assert WithoutLoops(a + b) == WithoutLoops(a) + WithoutLoops(b);
    var all := ChildEdges(nodes0) + WithoutLoops(a + b);
    loops, lost := loops1 + loops2, all - ChildEdges(after);
    forall e | e in lost ensures e in lost1 || e in lost2 {
    }
    forall e, f | e in lost && f in lost && e.from == f.from ensures e == f {
      assert e in lost1 && f in lost2 ==> Edge(e.from, e.from) in a;
      assert e in lost2 && f in lost1 ==> Edge(f.from, f.from) in a;
    }
    assert ChildEdges(after) == all - lost + loops;
  }

  lemma ExternalEnd(nodes: seq<Node>, after: seq<Node>, ids: set<Identifier>, steps: map<Identifier, Step>, gs: map<string, StampedRecord>,
                    loops: set<Link>, lost: set<Link>)
    requires PrefixIds(nodes, |nodes|, ids) && steps.Keys == Ids(nodes) && OkFor(steps, gs, ids)
    requires ExternalUpTo(nodes, after, ExternalEdgesOf(steps, gs, ids), loops, lost)
    ensures AllExternalOk(steps, gs)
    ensures ParentEdges(after) == ParentEdges(nodes) + ExternalEdges(steps, gs)
    ensures ChildEdges(after) == ChildEdges(nodes) + WithoutLoops(ExternalEdges(steps, gs)) - lost + loops
    ensures Displaced(ExternalEdges(steps, gs), loops, lost)
  {
    assert nodes[..|nodes|] == nodes;
  }

  /** The iterations a service was expanded with are the ones its stamps call for. */
  ghost predicate Expanded(s: Service, sp: StampPipelines, its: seq<StampIteration>) {
    Resolved(s, sp, its) && NoneUnfit(s, its)
  }

  /** Every expansion asks for one subscription at most, and only stamped services have stamped groups. */
  ghost predicate NoneUnfit(s: Service, its: seq<StampIteration>) {
    forall it :: it in its ==> !Unfit(s, it)
  }

  lemma ExpandedIs(s: Service, sp: StampPipelines, its: seq<StampIteration>)
    requires Resolved(s, sp, its) && NoneUnfit(s, its)
    ensures Expanded(s, sp, its)
  {
  }

  lemma NoLeaves(s: Service)
    ensures LeafTable(map[], ServiceLeaves([])) && ServiceEdges([]) == {} && NoneUnfit(s, [])
  {
  }

  lemma FitsMore(s: Service, its: seq<StampIteration>, it: StampIteration)
    requires NoneUnfit(s, its) && !Unfit(s, it)
    ensures NoneUnfit(s, its + [it])
  {
  }

  /** A rejected iteration makes its service faulty among the services known to be built. */
  lemma RejectionIsFault(known: set<Service>, services: map<string, Service>, plan: Plan, sp: StampPipelines, s: Service, it: StampIteration)
    requires CandidatesOnly(services, plan, sp) && s in known && forall g :: g in services ==> services[g] in known
    requires Candidate(s, sp, it)
    requires s.serviceGroup in plan && forall x :: x in plan[s.serviceGroup] ==> x.stamp != it.stamp
    requires Unfit(s, it) || exists g, x :: InPlan(plan, g, x) && Clash(x, it)
    ensures Faulty(known, s, sp)
  {
    hide Candidate, Unfit, Clash, Resolvable;
    if !Unfit(s, it) {
      var g, x :| InPlan(plan, g, x) && Clash(x, it);
      assert services[g] in known && Candidate(services[g], sp, x) && services[g].serviceGroup == g;
      assert ClashesWith(known, s, it, sp);
    }
  }

  lemma CandidatesExtend(services: map<string, Service>, plan: Plan, sp: StampPipelines, sg: string, it: StampIteration)
    requires CandidatesOnly(services, plan, sp) && sg in plan && sg in services && Candidate(services[sg], sp, it)
    ensures CandidatesOnly(services, Extend(plan, sg, it), sp)
  {
    hide Candidate;
    forall g, x | InPlan(Extend(plan, sg, it), g, x) ensures g in services && Candidate(services[g], sp, x) {
      assert InPlan(plan, g, x) || (g == sg && x == it);
    }
  }

  ghost predicate SomeFault(known: set<Service>, sp: StampPipelines) {
    exists t :: t in known && Faulty(known, t, sp)
  }

  lemma FaultIsFault(known: set<Service>, t: Service, sp: StampPipelines)
    requires t in known
    ensures Faulty(known, t, sp) ==> SomeFault(known, sp)
  {
  }

  lemma UnresolvableIsFault(known: set<Service>, t: Service, sp: StampPipelines)
    requires !Resolvable(t, sp)
    ensures Faulty(known, t, sp)
  {
  }

  /** A name in the list occurs twice or is recorded already. */
  ghost predicate Repeats(recorded: set<string>, names: seq<string>) {
    !NoDuplicates(names) || exists g :: g in names && g in recorded
  }

  lemma RootInTree(s: Service, known: set<Service>)
    requires Subtrees(s) <= known
    ensures s in known && ForestSubtrees(s.children) <= known
  {
  }

  lemma RootRepeats(recorded: set<string>, s: Service)
    ensures s.serviceGroup in recorded ==> Repeats(recorded, Groups(s))
  {
    assert s.serviceGroup in Groups(s);
  }

  lemma ChildrenRepeat(recorded: set<string>, s: Service)
    ensures Repeats(recorded + {s.serviceGroup}, ForestGroups(s.children)) ==> Repeats(recorded, Groups(s))
  {
    var names := ForestGroups(s.children);
    var all := Groups(s);
    assert all == [s.serviceGroup] + names;
    assert forall i :: 0 <= i < |names| ==> all[i + 1] == names[i];
    if !NoDuplicates(names) {
      var i, j :| 0 <= i < j < |names| && names[i] == names[j];
      assert all[i + 1] == all[j + 1];
    } else if s.serviceGroup in names {
      var j :| 0 <= j < |names| && names[j] == s.serviceGroup;
      assert all[0] == all[j + 1];
    }
  }

  lemma ChildInForest(ss: seq<Service>, i: nat, known: set<Service>)
    requires i < |ss| && ForestSubtrees(ss) <= known
    ensures Subtrees(ss[i]) <= known
  {
    ForestContains(ss);
  }

  /** A repetition met at a later child is a repetition in the whole forest. */
  lemma LaterRepeats(services0: map<string, Service>, plan0: Plan, ss: seq<Service>, i: nat, sp: StampPipelines,
                     services1: map<string, Service>, plan1: Plan)
    requires i < |ss| && TreeRecorded(services0, plan0, ForestGroups(ss[..i]), ForestSubtrees(ss[..i]), sp, services1, plan1)
    ensures Repeats(plan1.Keys, Groups(ss[i])) ==> Repeats(plan0.Keys, ForestGroups(ss))
  {
    hide *;
    var a, b, c := ForestGroups(ss[..i]), Groups(ss[i]), ForestGroups(ss[i + 1..]);
    assert ss == ss[..i] + ([ss[i]] + ss[i + 1..]);
    ForestConcat(ss[..i], [ss[i]] + ss[i + 1..]);
    ForestConcat([ss[i]], ss[i + 1..]);
    ForestSingle(ss[i]);
    RecordedNames(services0, plan0, a, ForestSubtrees(ss[..i]), sp, services1, plan1);
    RepeatsInside(plan0.Keys, a, b, c);
  }

  lemma RecordedNames(services: map<string, Service>, plan: Plan, names: seq<string>, tree: set<Service>, sp: StampPipelines,
                      services': map<string, Service>, plan': Plan)
    requires TreeRecorded(services, plan, names, tree, sp, services', plan')
    ensures plan'.Keys == plan.Keys + Elements(names)
  {
    hide Expanded;
  }

  lemma RepeatsInside(recorded: set<string>, a: seq<string>, b: seq<string>, c: seq<string>)
    ensures Repeats(recorded + Elements(a), b) ==> Repeats(recorded, a + (b + c))
  {
    var all := a + (b + c);
    if Repeats(recorded + Elements(a), b) {
      if !NoDuplicates(b) {
        var k, l :| 0 <= k < l < |b| && b[k] == b[l];
        assert all[|a| + k] == all[|a| + l];
      } else {
        var g :| g in b && g in recorded + Elements(a);
        var l :| 0 <= l < |b| && b[l] == g;
        assert all[|a| + l] == g;
        if g !in recorded {
          var k :| 0 <= k < |a| && a[k] == g;
          assert all[k] == all[|a| + l];
        }
      }
    }
  }

  lemma CandidatesOpen(services: map<string, Service>, plan: Plan, sp: StampPipelines, s: Service)
    requires CandidatesOnly(services, plan, sp) && s.serviceGroup !in plan && s.serviceGroup !in services
    ensures CandidatesOnly(services[s.serviceGroup := s], plan[s.serviceGroup := []], sp)
  {
    hide Candidate;
    var services', plan' := services[s.serviceGroup := s], plan[s.serviceGroup := []];
    forall g, x | InPlan(plan', g, x) ensures g in services' && Candidate(services'[g], sp, x) {
      assert InPlan(plan, g, x);
    }
  }

  lemma ExtendIs(plan: Plan, sg: string, its: seq<StampIteration>, it: StampIteration)
    ensures Extend(plan[sg := its], sg, it) == plan[sg := its + [it]]
  {
  }

  /** The services of a tree were new, are pairwise distinct, and are all recorded and expanded. */
  ghost predicate TreeRecorded(services: map<string, Service>, plan: Plan, names: seq<string>, tree: set<Service>, sp: StampPipelines,
                               services': map<string, Service>, plan': Plan) {
    && PlanExtends(plan, plan')
    && NoDuplicates(names)
    && (forall g :: g in names ==> g !in plan)
    && (forall g :: g in plan' <==> g in plan || g in names)
    && (forall g :: g in services ==> g in services' && services'[g] == services[g])
    && (forall t :: t in tree ==> t.serviceGroup in names && t.serviceGroup in services' && services'[t.serviceGroup] == t)
    && (forall t :: t in tree ==> t.serviceGroup in plan' && Expanded(t, sp, plan'[t.serviceGroup]))
  }

  lemma NothingRecorded(services: map<string, Service>, plan: Plan, sp: StampPipelines)
    ensures TreeRecorded(services, plan, ForestGroups([]), ForestSubtrees([]), sp, services, plan)
  {
  }

  lemma ResolvedOk(s: Service, sp: StampPipelines, its: seq<StampIteration>)
    requires PipelinesOk(sp) && Resolved(s, sp, its)
    ensures forall it :: it in its ==> WellFormed(it.pipeline) && it.pipeline.serviceGroup == s.serviceGroup
  {
  }

  lemma OpenIds(plan: Plan, sg: string)
    requires sg !in plan
    ensures AllIds(plan[sg := []]) == AllIds(plan)
  {
    var plan' := plan[sg := []];
    forall id | id in AllIds(plan) ensures id in AllIds(plan') {
      var g :| g in plan && id in ServiceIds(plan[g]);
      assert id in ServiceIds(plan'[g]);
    }
  }

  lemma OpenIntra(plan: Plan, edges: set<Link>, sg: string)
    requires PlanOk(plan) && EdgesInside(edges, AllIds(plan)) && IntraOk(plan, edges) && sg !in plan
    ensures IntraOk(plan[sg := []], edges)
  {
    PlanServiceGroups(plan);
    forall e | e in edges ensures e.from.serviceGroup != sg {
      var g :| g in plan && e.from in ServiceIds(plan[g]);
    }
    assert Intra(edges, sg) == {};
    assert ServiceEdges([]) == {};
  }

  lemma OpenSteps(plan: Plan, steps: map<Identifier, Step>, sg: string)
    requires PlanOk(plan) && StepsOk(plan, steps) && sg !in plan
    ensures StepsOk(plan[sg := []], steps) && PlanOk(plan[sg := []])
  {
    hide FinalStep;
    OpenIds(plan, sg);
    assert ServiceIds([]) == {};
  }

  lemma OpenPlan(plan: Plan, nodes: seq<Node>, nodeIndex: map<Identifier, nat>, steps: map<Identifier, Step>, sg: string)
    requires StateOk(plan, nodes, nodeIndex, steps) && sg !in plan
    ensures StateOk(plan[sg := []], nodes, nodeIndex, steps)
  {
    OpenIds(plan, sg);
    OpenSteps(plan, steps, sg);
    OpenIntra(plan, ParentEdges(nodes), sg);
  }

  lemma SubtreesAre(s: Service)
    ensures Subtrees(s) == {s} + ForestSubtrees(s.children) && Groups(s) == [s.serviceGroup] + ForestGroups(s.children)
  {
  }

  lemma RootAlone(s: Service, sp: StampPipelines, its: seq<StampIteration>, services: map<string, Service>, plan: Plan)
    requires s.serviceGroup !in plan && plan.Keys == services.Keys && Expanded(s, sp, its)
    ensures TreeRecorded(services, plan, [s.serviceGroup], {s}, sp, services[s.serviceGroup := s], plan[s.serviceGroup := its])
  {
    hide Expanded;
  }

  lemma PlanKept(services: map<string, Service>, plan: Plan, names: seq<string>, tree: set<Service>, sp: StampPipelines,
                 services': map<string, Service>, plan': Plan, sg: string)
    requires TreeRecorded(services, plan, names, tree, sp, services', plan') && sg in plan
    ensures sg in plan' && plan'[sg] == plan[sg]
  {
    hide Expanded;
  }

  lemma TreeComplete(s: Service, sp: StampPipelines, its: seq<StampIteration>, services: map<string, Service>, plan: Plan,
                     services1: map<string, Service>, plan1: Plan, services2: map<string, Service>, plan2: Plan)
    requires s.serviceGroup !in plan && plan.Keys == services.Keys
    requires services1 == services[s.serviceGroup := s]
    requires plan1 == plan[s.serviceGroup := its] && Expanded(s, sp, its)
    requires TreeRecorded(services1, plan1, ForestGroups(s.children), ForestSubtrees(s.children), sp, services2, plan2)
    ensures TreeRecorded(services, plan, Groups(s), Subtrees(s), sp, services2, plan2)
    ensures s.serviceGroup in plan1 && s.serviceGroup in plan2 && plan2[s.serviceGroup] == plan1[s.serviceGroup]
  {
    hide *;
    SubtreesAre(s);
    RootAlone(s, sp, its, services, plan);
    PlanKept(services1, plan1, ForestGroups(s.children), ForestSubtrees(s.children), sp, services2, plan2, s.serviceGroup);
    RecordedTwice([s.serviceGroup], {s}, ForestGroups(s.children), ForestSubtrees(s.children), sp,
                  services, plan, services1, plan1, services2, plan2);
  }

  lemma RecordedTwice(names: seq<string>, tree: set<Service>, names': seq<string>, tree': set<Service>, sp: StampPipelines,
                      services0: map<string, Service>, plan0: Plan, services1: map<string, Service>, plan1: Plan,
                      services2: map<string, Service>, plan2: Plan)
    requires TreeRecorded(services0, plan0, names, tree, sp, services1, plan1)
    requires TreeRecorded(services1, plan1, names', tree', sp, services2, plan2)
    ensures TreeRecorded(services0, plan0, names + names', tree + tree', sp, services2, plan2)
  {
    hide Expanded;
    assert NoDuplicates(names + names') by {
      forall i, j | 0 <= i < j < |names + names'| ensures (names + names')[i] != (names + names')[j] {
        if i < |names| <= j {
          assert names[i] in plan1 && names'[j - |names|] in names';
        }
      }
    }
  }

  /** A recorded forest is planned with all its children, under names that were new. */
  lemma RecordedPlanned(roots: seq<Service>, services: map<string, Service>, plan: Plan, sp: StampPipelines,
                        services': map<string, Service>, plan': Plan)
    requires TreeRecorded(services, plan, ForestGroups(roots), ForestSubtrees(roots), sp, services', plan')
    ensures Planned(ForestSubtrees(roots), plan') && PlanExtends(plan, plan')
    ensures forall g :: g in plan ==> g in plan' && plan'[g] == plan[g]
    ensures forall c :: c in roots ==> c.serviceGroup in plan' && c.serviceGroup !in plan
  {
    hide Expanded, ForestGroups, ForestSubtrees;
    ForestClosed(roots);
    ForestContains(roots);
    forall c | c in roots ensures c in ForestSubtrees(roots) {
      SubtreesAre(c);
    }
  }

  lemma PlanOfIs(plan: Plan, sg: string)
    requires sg in plan
    ensures PlanOf(plan, sg) == plan[sg]
  {
  }

  lemma ChildRecorded(sg: string, children: seq<Service>, child: Service, sp: StampPipelines,
                      services0: map<string, Service>, plan0: Plan, services1: map<string, Service>, plan1: Plan,
                      services2: map<string, Service>, plan2: Plan)
    requires sg in plan0
    requires TreeRecorded(services0, plan0, ForestGroups(children), ForestSubtrees(children), sp, services1, plan1)
    requires TreeRecorded(services1, plan1, Groups(child), Subtrees(child), sp, services2, plan2)
    ensures TreeRecorded(services0, plan0, ForestGroups(children + [child]), ForestSubtrees(children + [child]), sp, services2, plan2)
    ensures sg in plan2 && plan2[sg] == plan0[sg] && child.serviceGroup in plan2 && child.serviceGroup != sg
    ensures Partial(sg, children + [child], plan2) ==
      Partial(sg, children, plan1) + ForestEdges(Subtrees(child), plan2) + WireEdges(plan2[sg], plan2[child.serviceGroup])
  {
    hide *;
    RecordedTwice(ForestGroups(children), ForestSubtrees(children), Groups(child), Subtrees(child), sp,
                  services0, plan0, services1, plan1, services2, plan2);
    ForestConcat(children, [child]);
    ForestSingle(child);
    RecordedPlanned(children, services0, plan0, sp, services1, plan1);
    RecordedPlanned([child], services1, plan1, sp, services2, plan2);
    RecordedPlanned(children + [child], services0, plan0, sp, services2, plan2);
    assert child in [child];
    PlanOfIs(plan2, sg);
    PlanOfIs(plan2, child.serviceGroup);
    PartialStep(sg, children, child, plan1, plan2);
  }

  /** `after` lists the nodes of `before` with `links` recorded on both ends. */
  ghost predicate Adds(before: seq<Node>, links: set<Link>, after: seq<Node>) {
    && Ids(after) == Ids(before)
    && ChildEdges(after) == ChildEdges(before) + links
    && ParentEdges(after) == ParentEdges(before) + links
  }

  lemma AddsNothing(nodes: seq<Node>, leaves: set<Identifier>, roots: set<Identifier>)
    ensures Adds(nodes, WiresOf(leaves, roots, {}), nodes)
  {
    assert WiresOf(leaves, roots, {}) == {};
  }

  lemma AddsTransitive(before: seq<Node>, links: set<Link>, middle: seq<Node>, more: set<Link>, after: seq<Node>)
    requires Adds(before, links, middle) && Adds(middle, more, after)
    ensures Adds(before, links + more, after)
  {
  }

  function StampWires(leaves: seq<Identifier>, stamp: Stamp, roots: set<Identifier>): set<Link> {
    set l, r | l in leaves && r in roots && Compatible(stamp, r.stamp) :: Edge(l, r)
  }

  /** The wires that start at leaves with a stamp in `stamps`. */
  function WiresOf(leaves: set<Identifier>, roots: set<Identifier>, stamps: set<Stamp>): set<Link> {
    set l, r | l in leaves && r in roots && l.stamp in stamps && Compatible(l.stamp, r.stamp) :: Edge(l, r)
  }

  /** The leaves of a service, grouped by stamp. */
  ghost predicate LeafTable(table: map<Stamp, seq<Identifier>>, leaves: set<Identifier>) {
    && (forall st, l :: st in table && l in table[st] ==> l.stamp == st && l in leaves)
    && (forall l :: l in leaves ==> l.stamp in table && l in table[l.stamp])
  }

  lemma LeafTableAt(table: map<Stamp, seq<Identifier>>, leaves: set<Identifier>, stamp: Stamp)
    requires LeafTable(table, leaves) && stamp in table
    ensures forall l :: l in table[stamp] ==> l in leaves
  {
  }

  lemma WiresAreProduct(leaves: seq<Identifier>, stamp: Stamp, roots: set<Identifier>, matching: seq<Identifier>)
    requires forall id :: id in matching <==> id in roots && Compatible(stamp, id.stamp)
    ensures Product(leaves, matching) == StampWires(leaves, stamp, roots)
  {
  }

  /** Edges between different services leave the intra-service edges alone. */
  lemma WiresCross(plan: Plan, child: string, leaves: seq<Identifier>, roots: seq<Identifier>, edges: set<Link>)
    requires IntraOk(plan, edges)
    requires forall l :: l in leaves ==> l.serviceGroup != child
    requires child in plan && PlanOk(plan) && forall r :: r in roots ==> r in ServiceIds(plan[child])
    ensures IntraOk(plan, edges + Product(leaves, roots))
  {
    PlanServiceGroups(plan);
    forall sg | sg in plan ensures Intra(edges + Product(leaves, roots), sg) == ServiceEdges(plan[sg]) {
      assert Intra(edges + Product(leaves, roots), sg) == Intra(edges, sg);
    }
  }

  lemma LeavesRecorded(plan: Plan, sg: string)
    requires sg in plan && PlanOk(plan)
    ensures forall l :: l in ServiceLeaves(plan[sg]) ==> l in ServiceIds(plan[sg]) && l in AllIds(plan) && l.serviceGroup == sg
  {
    PlanServiceGroups(plan);
    forall l | l in ServiceLeaves(plan[sg]) ensures l in ServiceIds(plan[sg]) {
      var it :| it in plan[sg] && l in IterLeaves(it);
      assert l in IterIds(it);
    }
  }

  lemma WiresStep(table: map<Stamp, seq<Identifier>>, leaves: set<Identifier>, roots: set<Identifier>, done: set<Stamp>, stamp: Stamp)
    requires LeafTable(table, leaves) && stamp in table
    ensures WiresOf(leaves, roots, done + {stamp}) == WiresOf(leaves, roots, done) + StampWires(table[stamp], stamp, roots)
  {
  }

  lemma WiresInside(plan: Plan, parent: string, child: string)
    requires parent in plan && child in plan && PlanOk(plan)
    ensures EdgesInside(WireEdges(plan[parent], plan[child]), AllIds(plan))
  {
    LeavesRecorded(plan, parent);
    forall r | r in ServiceRoots(plan[child]) ensures r in AllIds(plan) {
      assert r in ServiceIds(plan[child]);
    }
  }

  lemma StateParts(plan: Plan, nodes: seq<Node>, nodeIndex: map<Identifier, nat>, steps: map<Identifier, Step>)
    requires StateOk(plan, nodes, nodeIndex, steps)
    ensures Indexed(nodes, nodeIndex) && steps.Keys == Ids(nodes) == AllIds(plan)
    ensures PlanOk(plan) && StepsOk(plan, steps) && ChildEdges(nodes) == ParentEdges(nodes)
    ensures EdgesInside(ChildEdges(nodes), AllIds(plan)) && IntraOk(plan, ParentEdges(nodes))
  {
  }


  /** Wires added to both sides keep the recorded state. */
  lemma WiredState(plan: Plan, before: seq<Node>, nodeIndex: map<Identifier, nat>, steps: map<Identifier, Step>,
                   links: set<Link>, after: seq<Node>)
    requires StateOk(plan, before, nodeIndex, steps) && Adds(before, links, after) && EdgesInside(links, AllIds(plan))
    requires Indexed(after, nodeIndex) && IntraOk(plan, ParentEdges(after))
    ensures StateOk(plan, after, nodeIndex, steps) && ChildEdges(after) == ChildEdges(before) + links
  {
  }

  lemma AllWires(table: map<Stamp, seq<Identifier>>, parent: seq<StampIteration>, child: seq<StampIteration>)
    requires LeafTable(table, ServiceLeaves(parent))
    ensures WiresOf(ServiceLeaves(parent), ServiceRoots(child), table.Keys) == WireEdges(parent, child)
  {
  }

  function Product(from: seq<Identifier>, to: seq<Identifier>): set<Link> {
    set l, r | l in from && r in to :: Edge(l, r)
  }

  lemma ProductSnocRight(from: seq<Identifier>, to: seq<Identifier>, r: Identifier)
    ensures Product(from, to + [r]) == Product(from, to) + Product(from, [r])
  {
  }

  lemma ProductSnocLeft(from: seq<Identifier>, l: Identifier, to: seq<Identifier>)
    ensures Product(from + [l], to) == Product(from, to) + Product([l], to)
  {
  }

  lemma MoreParents(nodes: seq<Node>, i: nat, extra: seq<Identifier>)
    requires i < |nodes|
    ensures var now := nodes[i := nodes[i].(parents := nodes[i].parents + extra)];
            && Ids(now) == Ids(nodes) && ChildEdges(now) == ChildEdges(nodes)
            && ParentEdges(now) == ParentEdges(nodes) + Product(extra, [nodes[i].id])
  {
    var n := nodes[i].(parents := nodes[i].parents + extra);
    assert ParentLinks(n) == ParentLinks(nodes[i]) + Product(extra, [nodes[i].id]);
    assert ChildLinks(n) == ChildLinks(nodes[i]);
    GrowNode(nodes, i, n);
    LinksRecorded(nodes, i);
  }

  lemma MoreChildren(nodes: seq<Node>, i: nat, extra: seq<Identifier>)
    requires i < |nodes|
    ensures var now := nodes[i := nodes[i].(children := nodes[i].children + extra)];
            && Ids(now) == Ids(nodes) && ParentEdges(now) == ParentEdges(nodes)
            && ChildEdges(now) == ChildEdges(nodes) + Product([nodes[i].id], extra)
  {
    var n := nodes[i].(children := nodes[i].children + extra);
    assert ChildLinks(n) == ChildLinks(nodes[i]) + Product([nodes[i].id], extra);
    assert ParentLinks(n) == ParentLinks(nodes[i]);
    GrowNode(nodes, i, n);
    LinksRecorded(nodes, i);
  }

  lemma NothingToWire(from: seq<Identifier>)
    ensures Product(from, []) == {} && Product([], from) == {}
  {
  }

  lemma ParentsGrow(nodes: seq<Node>, nodeIndex: map<Identifier, nat>, id: Identifier, leaves: seq<Identifier>)
    requires Indexed(nodes, nodeIndex) && id in nodeIndex
    ensures nodeIndex[id] < |nodes|
    ensures var i := nodeIndex[id];
            var now := nodes[i := nodes[i].(parents := nodes[i].parents + leaves)];
            && Indexed(now, nodeIndex) && Ids(now) == Ids(nodes) && ChildEdges(now) == ChildEdges(nodes)
            && ParentEdges(now) == ParentEdges(nodes) + Product(leaves, [id])
  {
    hide ParentEdges, ChildEdges, Ids, Product;
    var i := nodeIndex[id];
    MoreParents(nodes, i, leaves);
    IndexReplace(nodes, nodeIndex, i, nodes[i].(parents := nodes[i].parents + leaves));
  }

  lemma ChildrenGrow(nodes: seq<Node>, nodeIndex: map<Identifier, nat>, id: Identifier, roots: seq<Identifier>)
    requires Indexed(nodes, nodeIndex) && id in nodeIndex
    ensures nodeIndex[id] < |nodes|
    ensures var i := nodeIndex[id];
            var now := nodes[i := nodes[i].(children := nodes[i].children + roots)];
            && Indexed(now, nodeIndex) && Ids(now) == Ids(nodes) && ParentEdges(now) == ParentEdges(nodes)
            && ChildEdges(now) == ChildEdges(nodes) + Product([id], roots)
  {
    hide ParentEdges, ChildEdges, Ids, Product;
    var i := nodeIndex[id];
    MoreChildren(nodes, i, roots);
    IndexReplace(nodes, nodeIndex, i, nodes[i].(children := nodes[i].children + roots));
  }

  /** Recorded parents decide which nodes of a service are its roots. */
  lemma RootsRecorded(plan: Plan, nodes: seq<Node>, child: string)
    requires child in plan && Ids(nodes) == AllIds(plan)
    ensures forall id :: id in ServiceRoots(plan[child]) ==> exists k :: 0 <= k < |nodes| && nodes[k].id == id
  {
    hide ServiceIds, ServiceEdges;
    RecordedEdges(nodes);
    forall id | id in ServiceRoots(plan[child]) ensures exists k :: 0 <= k < |nodes| && nodes[k].id == id {
      assert id in AllIds(plan);
      var n :| n in nodes && n.id == id;
      var k :| 0 <= k < |nodes| && nodes[k] == n;
    }
  }

  lemma RootIs(plan: Plan, nodes: seq<Node>, child: string, n: Node)
    requires child in plan && PlanOk(plan) && Ids(nodes) == AllIds(plan) && IntraOk(plan, ParentEdges(nodes))
    requires n in nodes && UniqueIds(nodes)
    ensures n.id in ServiceRoots(plan[child]) <==>
      n.id.serviceGroup == child && forall p :: p in n.parents ==> p.serviceGroup != child
  {
    hide IterIds, IterEdges, WellFormed, PlanOk;
    PlanServiceGroups(plan);
    RecordedEdges(nodes);
    assert n.id in AllIds(plan);
    if n.id.serviceGroup == child {
      var sg :| sg in plan && n.id in ServiceIds(plan[sg]);
      assert sg == child;
      forall p | p in n.parents && p.serviceGroup == child ensures n.id !in ServiceRoots(plan[child]) {
        assert Edge(p, n.id) in Intra(ParentEdges(nodes), child);
      }
      forall e | e in ServiceEdges(plan[child]) && e.to == n.id ensures e.from in n.parents {
        assert e in Intra(ParentEdges(nodes), child);
        var m :| m in nodes && m.id == n.id && e.from in m.parents;
        var i :| 0 <= i < |nodes| && nodes[i] == m;
        var j :| 0 <= j < |nodes| && nodes[j] == n;
        assert i == j;
      }
    }
  }

  lemma RegisteredKeys(it: StampIteration, gs: map<string, StampedRecord>, groups: map<GroupKey, GroupMeta>)
    requires Registered(gs, groups, it)
    ensures forall id :: id in IterIds(it) ==> KeyOf(id) in groups
  {
  }

  lemma NodesInside(it: StampIteration, ns: seq<Node>)
    requires WellFormed(it.pipeline)
    requires Ids(ns) == IterIds(it) && ChildEdges(ns) == IterEdges(it)
    ensures forall n :: n in ns ==> n.id in IterIds(it) && forall c :: c in n.children ==> c in IterIds(it)
  {
    RecordedEdges(ns);
    IterEdgesStayInside(it);
    forall n, c | n in ns && c in n.children ensures c in IterIds(it) {
      assert Edge(n.id, c) in ChildEdges(ns);
    }
  }

  lemma LeafIs(it: StampIteration, ns: seq<Node>, n: Node)
    requires ChildEdges(ns) == IterEdges(it) && Ids(ns) == IterIds(it) && n in ns && UniqueIds(ns)
    ensures n.id in IterLeaves(it) <==> n.id in IterCompletion(it) && forall c :: c in n.children ==> c !in IterCompletion(it)
  {
    RecordedEdges(ns);
    forall c ensures Edge(n.id, c) in IterEdges(it) <==> c in n.children {
      if Edge(n.id, c) in IterEdges(it) {
        var m :| m in ns && m.id == n.id && c in m.children;
        var i :| 0 <= i < |ns| && ns[i] == m;
        var j :| 0 <= j < |ns| && ns[j] == n;
        assert i == j;
      }
    }
    if n.id in IterLeaves(it) {
      forall c | c in n.children ensures c !in IterCompletion(it) {
        assert Edge(n.id, c) in IterEdges(it);
      }
    }
  }

  lemma AscendingMeansUnique(ns: seq<Node>)
    requires forall i, j :: 0 <= i < j < |ns| ==> IdLess(ns[i].id, ns[j].id)
    ensures UniqueIds(ns)
  {
    IdLessIsTotal();
  }

  function Extend(plan: Plan, sg: string, it: StampIteration): (r: Plan)
    requires sg in plan
    ensures r.Keys == plan.Keys
  {
    plan[sg := plan[sg] + [it]]
  }

  lemma ExtendPlanIds(plan: Plan, sg: string, it: StampIteration)
    requires sg in plan
    ensures AllIds(Extend(plan, sg, it)) == AllIds(plan) + IterIds(it)
  {
    var plan' := Extend(plan, sg, it);
    AddIteration(plan[sg], it);
    forall id | id in AllIds(plan) ensures id in AllIds(plan') {
      var g :| g in plan && id in ServiceIds(plan[g]);
      assert id in ServiceIds(plan'[g]);
    }
    assert forall id :: id in IterIds(it) ==> id in ServiceIds(plan'[sg]);
  }

  lemma ExtendServiceSteps(its: seq<StampIteration>, it: StampIteration, before: map<Identifier, Step>, steps: map<Identifier, Step>)
    requires ServiceStepsOk(its, before) && before.Keys <= steps.Keys
    requires forall id :: id in IterIds(it) ==> id in steps && steps[id] == IterStep(it, id)
    requires forall id :: id in before && id !in IterIds(it) ==> steps[id] == before[id]
    ensures ServiceStepsOk(its + [it], steps)
  {
    forall id | id in ServiceIds(its + [it]) ensures id in steps && steps[id] == FinalStep(its + [it], id) {
      AddIterationStep(its, it, id);
    }
  }

  lemma ExtendPlanSteps(plan: Plan, sg: string, it: StampIteration, before: map<Identifier, Step>, steps: map<Identifier, Step>)
    requires sg in plan && PlanOk(plan) && it.pipeline.serviceGroup == sg && StepsOk(plan, before)
    requires steps.Keys == before.Keys + IterIds(it)
    requires forall id :: id in IterIds(it) ==> steps[id] == IterStep(it, id)
    requires forall id :: id in before && id !in IterIds(it) ==> steps[id] == before[id]
    ensures StepsOk(Extend(plan, sg, it), steps)
  {
    ExtendPlanIds(plan, sg, it);
    ExtendServiceSteps(plan[sg], it, before, steps);
    IterServiceGroup(it);
    PlanServiceGroups(plan);
    forall g | g in plan && g != sg ensures ServiceStepsOk(plan[g], steps) {
      assert ServiceStepsOk(plan[g], before);
    }
  }

  /** Edges inside one service count for that service only. */
  lemma IntraOfOne(edges: set<Link>, more: set<Link>, sg: string, g: string)
    requires forall e :: e in more ==> e.from.serviceGroup == e.to.serviceGroup == sg
    ensures Intra(edges + more, g) == Intra(edges, g) + if g == sg then more else {}
  {
  }

  lemma ExtendPlanEdges(plan: Plan, sg: string, it: StampIteration, edges: set<Link>)
    requires sg in plan && it.pipeline.serviceGroup == sg && IntraOk(plan, edges)
    ensures IntraOk(Extend(plan, sg, it), edges + IterEdges(it))
  {
    AddIteration(plan[sg], it);
    IterServiceGroup(it);
    hide IterEdges, ServiceEdges, Intra;
    forall g | g in plan ensures Intra(edges + IterEdges(it), g) == ServiceEdges(Extend(plan, sg, it)[g]) {
      IntraOfOne(edges, IterEdges(it), sg, g);
    }
  }

  lemma ExtendPlanGroups(plan: Plan, sg: string, it: StampIteration, gs: map<string, StampedRecord>, groups: map<GroupKey, GroupMeta>,
                         gs': map<string, StampedRecord>, groups': map<GroupKey, GroupMeta>)
    requires sg in plan && AllRegistered(gs, groups, plan) && Keeps(gs, groups, gs', groups') && Registered(gs', groups', it)
    ensures AllRegistered(gs', groups', Extend(plan, sg, it))
  {
    forall g, x | g in plan && x in plan[g] ensures Registered(gs', groups', x) {
      forall rg | rg in x.pipeline.resourceGroups
        ensures rg.meta.name in gs' && gs'[rg.meta.name].stamped == rg.meta.stamped
        ensures GroupKey(x.stamp.If(rg.meta.stamped), rg.meta.name) in groups'
        ensures MetaEqual(rg.meta, groups'[GroupKey(x.stamp.If(rg.meta.stamped), rg.meta.name)])
      {
        assert Registered(gs, groups, x);
      }
    }
  }

  lemma ExtendState(plan: Plan, nodes: seq<Node>, nodeIndex: map<Identifier, nat>, steps: map<Identifier, Step>,
                    sg: string, it: StampIteration, added: seq<Node>,
                    nodes': seq<Node>, nodeIndex': map<Identifier, nat>, steps': map<Identifier, Step>)
    requires StateOk(plan, nodes, nodeIndex, steps) && sg in plan
    requires WellFormed(it.pipeline) && it.pipeline.serviceGroup == sg
    requires Ids(added) == IterIds(it) && ChildEdges(added) == IterEdges(it) && ParentEdges(added) == IterEdges(it)
    requires Indexed(nodes', nodeIndex') && Grown(nodes, added, nodes')
    requires steps'.Keys == steps.Keys + IterIds(it)
    requires forall id :: id in IterIds(it) ==> steps'[id] == IterStep(it, id)
    requires forall id :: id in steps && id !in IterIds(it) ==> steps'[id] == steps[id]
    ensures StateOk(Extend(plan, sg, it), nodes', nodeIndex', steps')
  {
    hide WellFormed, StepsOk, IntraOk, Indexed, PlanOk, AllIds, IterIds, IterEdges, Extend, Ids, ChildEdges, ParentEdges;
    ExtendPlanOk(plan, sg, it);
    ExtendPlanIds(plan, sg, it);
    ExtendPlanSteps(plan, sg, it, steps, steps');
    ExtendPlanEdges(plan, sg, it, ParentEdges(nodes));
    IterEdgesStayInside(it);
  }

  lemma ExtendPlanOk(plan: Plan, sg: string, it: StampIteration)
    requires PlanOk(plan) && sg in plan && WellFormed(it.pipeline) && it.pipeline.serviceGroup == sg
    ensures PlanOk(Extend(plan, sg, it))
  {
    hide WellFormed;
  }

  /** Every recorded identifier carries the name of the service it was recorded for. */
  lemma PlanServiceGroups(plan: Plan)
    requires PlanOk(plan)
    ensures forall sg, id :: sg in plan && id in ServiceIds(plan[sg]) ==> id.serviceGroup == sg
    ensures forall sg, e :: sg in plan && e in ServiceEdges(plan[sg]) ==> e.from.serviceGroup == sg && e.to.serviceGroup == sg
  {
    forall sg, id | sg in plan && id in ServiceIds(plan[sg]) ensures id.serviceGroup == sg {
      var it :| it in plan[sg] && id in IterIds(it);
      IterServiceGroup(it);
    }
    forall sg, e | sg in plan && e in ServiceEdges(plan[sg]) ensures e.from.serviceGroup == sg && e.to.serviceGroup == sg {
      var it :| it in plan[sg] && e in IterEdges(it);
      IterServiceGroup(it);
    }
  }

  lemma GroupIdsInside(it: StampIteration, rg: ResourceGroup)
    requires rg in it.pipeline.resourceGroups
    ensures GroupsIds(it, [rg]) <= IterIds(it)
    ensures forall id :: id in GroupsIds(it, [rg]) ==> id.resourceGroup == rg.meta.name
  {
  }

  ghost predicate GroupRecorded(it: StampIteration, rg: ResourceGroup, steps: map<Identifier, Step>) {
    forall st :: st in rg.steps ==> StepId(it, rg, st) in steps && steps[StepId(it, rg, st)] == st
  }

  lemma GroupsKept(it: StampIteration, rg: ResourceGroup, remaining: set<string>,
                   before: map<Identifier, Step>, after: map<Identifier, Step>)
    requires UniqueGroups(it.pipeline) && rg in it.pipeline.resourceGroups
    requires before.Keys <= after.Keys && GroupRecorded(it, rg, after)
    requires forall id :: id in before && id !in GroupsIds(it, [rg]) ==> after[id] == before[id]
    requires forall r :: r in it.pipeline.resourceGroups && r.meta.name !in remaining ==> GroupRecorded(it, r, before)
    ensures forall r :: r in it.pipeline.resourceGroups && r.meta.name !in remaining - {rg.meta.name} ==> GroupRecorded(it, r, after)
  {
    forall r | r in it.pipeline.resourceGroups && r.meta.name !in remaining - {rg.meta.name}
      ensures GroupRecorded(it, r, after)
    {
      if r != rg {
        forall st | st in r.steps ensures StepId(it, r, st) !in GroupsIds(it, [rg]) {
        }
      }
    }
  }

  lemma RegisteredStepsAre(it: StampIteration, steps: map<Identifier, Step>)
    requires WellFormed(it.pipeline)
    requires forall rg :: rg in it.pipeline.resourceGroups ==> GroupRecorded(it, rg, steps)
    ensures forall id :: id in IterIds(it) ==> id in steps && steps[id] == IterStep(it, id)
  {
    forall id | id in IterIds(it) ensures id in steps && steps[id] == IterStep(it, id) {
      var rg, st :| rg in it.pipeline.resourceGroups && st in rg.steps && StepId(it, rg, st) == id;
      IterStepIs(it, rg, st);
    }
  }
}
