/** The nodes and lookup tables of a single pipeline expansion. */
module PipelineNodes {
  import opened Wrappers
  import opened Reachability
  import opened Ordering
  import opened GraphTypes
  import opened Pipelines
  import opened GraphSpec

  datatype Subscription = Subscription(serviceGroup: string, resourceGroup: string, config: string)

  datatype Tables = Tables(
    groups: map<string, GroupMeta>,
    subscription: Option<Subscription>,
    steps: map<string, map<string, Step>>,
    validationSteps: map<Identifier, Step>,
    nodes: seq<Node>)

  ghost predicate OneProvisioning(p: Pipeline) {
    forall i, j :: 0 <= i < j < |p.resourceGroups| ==>
      p.resourceGroups[i].provisioning.None? || p.resourceGroups[j].provisioning.None?
  }

  /** The provisioning request of a pipeline, if any of its groups has one. */
  ghost predicate SubscriptionOf(p: Pipeline, s: Option<Subscription>) {
    match s
    case None => forall rg :: rg in p.resourceGroups ==> rg.provisioning.None?
    case Some(sub) => exists rg :: rg in p.resourceGroups && rg.provisioning.Some? &&
                                   sub == Subscription(p.serviceGroup, rg.meta.name, rg.provisioning.value)
  }

  function ValidationIds(it: StampIteration): set<Identifier> {
    set rg, st | rg in it.pipeline.resourceGroups && st in rg.validationSteps :: StepId(it, rg, st)
  }

  predicate DependencyLess(a: StepDependency, b: StepDependency) {
    FieldsLess([a.resourceGroup, a.step], [b.resourceGroup, b.step])
  }

  lemma DependencyLessIsTotal()
    ensures TotalOrder(DependencyLess)
  {
    forall x: StepDependency, y: StepDependency
      ensures !DependencyLess(x, x) && (x == y || DependencyLess(x, y) || DependencyLess(y, x))
    {
      var a, b := [x.resourceGroup, x.step], [y.resourceGroup, y.step];
      FieldsLessTotal(a, b);
      assert x == y <==> a[0] == b[0] && a[1] == b[1];
    }
    forall x, y, z | DependencyLess(x, y) && DependencyLess(y, z) ensures DependencyLess(x, z) {
      FieldsLessTransitive([x.resourceGroup, x.step], [y.resourceGroup, y.step], [z.resourceGroup, z.step]);
    }
  }

  function GroupNames(groups: seq<ResourceGroup>): set<string> {
    set rg | rg in groups :: rg.meta.name
  }

  /** The steps of one group by name. */
  ghost predicate NamesSteps(rg: ResourceGroup, byName: map<string, Step>) {
    && (forall n :: n in byName <==> HasStep(rg, n))
    && (forall st :: st in rg.steps ==> st.name in byName && byName[st.name] == st)
  }

  ghost predicate StepTable(groups: seq<ResourceGroup>, steps: map<string, map<string, Step>>) {
    && steps.Keys == GroupNames(groups)
    && (forall rg :: rg in groups ==> NamesSteps(rg, steps[rg.meta.name]))
  }

  ghost predicate GroupTable(groups: seq<ResourceGroup>, table: map<string, GroupMeta>) {
    && table.Keys == GroupNames(groups)
    && (forall rg :: rg in groups ==> table[rg.meta.name] == rg.meta)
  }

  method StepsByName(rg: ResourceGroup) returns (byName: map<string, Step>)
    requires UniqueSteps(rg)
    ensures NamesSteps(rg, byName)
  {
    byName := map[];
    for j := 0 to |rg.steps|
      invariant forall n :: n in byName <==> exists k :: 0 <= k < j && rg.steps[k].name == n
      invariant forall k :: 0 <= k < j ==> byName[rg.steps[k].name] == rg.steps[k]
    {
      byName := byName[rg.steps[j].name := rg.steps[j]];
    }
    forall n ensures n in byName <==> HasStep(rg, n) {
      if n in byName {
        var k :| 0 <= k < |rg.steps| && rg.steps[k].name == n;
        assert rg.steps[k] in rg.steps;
      }
    }
  }

  method CollectSubscription(p: Pipeline) returns (ok: bool, subscription: Option<Subscription>)
    ensures ok <==> OneProvisioning(p)
    ensures ok ==> SubscriptionOf(p, subscription)
  {
    var rgs := p.resourceGroups;
    subscription := None;
    ghost var at := 0;
    for i := 0 to |rgs|
      invariant subscription.None? ==> forall k :: 0 <= k < i ==> rgs[k].provisioning.None?
      invariant subscription.Some? ==>
        && 0 <= at < i && rgs[at].provisioning.Some?
        && subscription.value == Subscription(p.serviceGroup, rgs[at].meta.name, rgs[at].provisioning.value)
        && forall k :: 0 <= k < i && k != at ==> rgs[k].provisioning.None?
    {
      if rgs[i].provisioning.Some? && subscription.Some? {
        return false, None;
      }
      if rgs[i].provisioning.Some? {
        subscription := Some(Subscription(p.serviceGroup, rgs[i].meta.name, rgs[i].provisioning.value));
        at := i;
      }
    }
    ok := true;
  }

  lemma ExtendTables(groups: seq<ResourceGroup>, rg: ResourceGroup, table: map<string, GroupMeta>,
                     steps: map<string, map<string, Step>>, byName: map<string, Step>)
    requires GroupTable(groups, table) && StepTable(groups, steps)
    requires forall r :: r in groups ==> r.meta.name != rg.meta.name
    requires NamesSteps(rg, byName)
    ensures GroupTable(groups + [rg], table[rg.meta.name := rg.meta])
    ensures StepTable(groups + [rg], steps[rg.meta.name := byName])
  {
    assert forall r :: r in groups + [rg] <==> r in groups || r == rg;
    assert GroupNames(groups + [rg]) == GroupNames(groups) + {rg.meta.name};
  }

  lemma NoTables()
    ensures GroupTable([], map[]) && StepTable([], map[])
  {
  }

  /** The names of a validated pipeline tell its groups and the steps of each group apart. */
  lemma NamesTellApart(p: Pipeline, i: nat)
    requires WellFormed(p) && i < |p.resourceGroups|
    ensures UniqueSteps(p.resourceGroups[i])
    ensures forall r :: r in p.resourceGroups[..i] ==> r.meta.name != p.resourceGroups[i].meta.name
  {
    hide UniqueSteps, DependencyExists, HasStep;
  }

  method CollectTables(p: Pipeline) returns (groups: map<string, GroupMeta>, steps: map<string, map<string, Step>>)
    requires WellFormed(p)
    ensures GroupTable(p.resourceGroups, groups) && StepTable(p.resourceGroups, steps)
  {
    hide *;
    var rgs := p.resourceGroups;
    groups, steps := map[], map[];
    NoTables();
    for i := 0 to |rgs|
      invariant GroupTable(rgs[..i], groups) && StepTable(rgs[..i], steps)
    {
      NamesTellApart(p, i);
      var byName := StepsByName(rgs[i]);
      ExtendTables(rgs[..i], rgs[i], groups, steps, byName);
      groups := groups[rgs[i].meta.name := rgs[i].meta];
      steps := steps[rgs[i].meta.name := byName];
      assert rgs[..i + 1] == rgs[..i] + [rgs[i]];
    }
    assert rgs[..|rgs|] == rgs;
  }

  method CollectValidationSteps(it: StampIteration) returns (validationSteps: map<Identifier, Step>)
    ensures validationSteps.Keys == ValidationIds(it)
  {
    var rgs := it.pipeline.resourceGroups;
    validationSteps := map[];
    for i := 0 to |rgs|
      invariant validationSteps.Keys == set rg, st | rg in rgs[..i] && st in rg.validationSteps :: StepId(it, rg, st)
    {
      var rg := rgs[i];
      ghost var before := validationSteps.Keys;
      for j := 0 to |rg.validationSteps|
        invariant validationSteps.Keys == before + set st | st in rg.validationSteps[..j] :: StepId(it, rg, st)
      {
        var st := rg.validationSteps[j];
        validationSteps := validationSteps[StepId(it, rg, st) := st];
        assert rg.validationSteps[..j + 1] == rg.validationSteps[..j] + [st];
      }
      assert rg.validationSteps[..|rg.validationSteps|] == rg.validationSteps;
      assert rgs[..i + 1] == rgs[..i] + [rg];
    }
    assert rgs[..|rgs|] == rgs;
  }

  function LinkSet(links: seq<Link>): set<Link> { set e | e in links }

  function DependencyLinks(it: StampIteration, rg: ResourceGroup, st: Step, deps: seq<StepDependency>): set<Link> {
    set d | d in deps :: Edge(DependencyId(it, d), StepId(it, rg, st))
  }

  function StepsLinks(it: StampIteration, rg: ResourceGroup, steps: seq<Step>): set<Link> {
    set st, d | st in steps && d in Dependencies(st) :: Edge(DependencyId(it, d), StepId(it, rg, st))
  }

  function GroupsLinks(it: StampIteration, groups: seq<ResourceGroup>): set<Link> {
    set rg, e | rg in groups && e in StepsLinks(it, rg, rg.steps) :: e
  }

  function GroupsIds(it: StampIteration, groups: seq<ResourceGroup>): set<Identifier> {
    set rg, st | rg in groups && st in rg.steps :: StepId(it, rg, st)
  }

  lemma GroupsLinksAreEdges(it: StampIteration)
    ensures GroupsLinks(it, it.pipeline.resourceGroups) == IterEdges(it)
  {
    forall e | e in IterEdges(it) ensures e in GroupsLinks(it, it.pipeline.resourceGroups) {
      var rg, st, d :| rg in it.pipeline.resourceGroups && st in rg.steps && d in Dependencies(st) &&
        e == Edge(DependencyId(it, d), StepId(it, rg, st));
      assert e in StepsLinks(it, rg, rg.steps);
    }
  }

  /** The links into one step, its dependency list sorted and compacted first. */
  method CollectStep(it: StampIteration, rg: ResourceGroup, st: Step) returns (links: seq<Link>)
    ensures LinkSet(links) == StepsLinks(it, rg, [st])
  {
    DependencyLessIsTotal();
    var deps := SortCompact(DependencyLess, Dependencies(st));
    links := [];
    for k := 0 to |deps|
      invariant LinkSet(links) == DependencyLinks(it, rg, st, deps[..k])
    {
      links := links + [Edge(DependencyId(it, deps[k]), StepId(it, rg, st))];
      assert deps[..k + 1] == deps[..k] + [deps[k]];
      assert DependencyLinks(it, rg, st, deps[..k + 1]) ==
        DependencyLinks(it, rg, st, deps[..k]) + {Edge(DependencyId(it, deps[k]), StepId(it, rg, st))};
    }
    assert deps[..|deps|] == deps;
  }

  method CollectGroup(it: StampIteration, rg: ResourceGroup) returns (links: seq<Link>, ids: seq<Identifier>)
    ensures LinkSet(links) == StepsLinks(it, rg, rg.steps)
    ensures forall id :: id in ids <==> id in GroupsIds(it, [rg])
  {
    links, ids := [], [];
    for j := 0 to |rg.steps|
      invariant LinkSet(links) == StepsLinks(it, rg, rg.steps[..j])
      invariant forall id :: id in ids <==> exists st :: st in rg.steps[..j] && id == StepId(it, rg, st)
    {
      var stepLinks := CollectStep(it, rg, rg.steps[j]);
      assert rg.steps[..j + 1] == rg.steps[..j] + [rg.steps[j]];
      assert StepsLinks(it, rg, rg.steps[..j + 1]) == StepsLinks(it, rg, rg.steps[..j]) + StepsLinks(it, rg, [rg.steps[j]]);
      assert LinkSet(links + stepLinks) == LinkSet(links) + LinkSet(stepLinks);
      links := links + stepLinks;
      ids := ids + [StepId(it, rg, rg.steps[j])];
    }
    assert rg.steps[..|rg.steps|] == rg.steps;
  }

  /** The dependency edges and the node identifiers, group by group and step by step. */
  method CollectSteps(it: StampIteration) returns (links: seq<Link>, ids: seq<Identifier>)
    ensures LinkSet(links) == IterEdges(it)
    ensures forall id :: id in ids <==> id in IterIds(it)
  {
    var rgs := it.pipeline.resourceGroups;
    links, ids := [], [];
    for i := 0 to |rgs|
      invariant LinkSet(links) == GroupsLinks(it, rgs[..i])
      invariant forall id :: id in ids <==> id in GroupsIds(it, rgs[..i])
    {
      var groupLinks, groupIds := CollectGroup(it, rgs[i]);
      assert rgs[..i + 1] == rgs[..i] + [rgs[i]];
      assert GroupsIds(it, rgs[..i + 1]) == GroupsIds(it, rgs[..i]) + GroupsIds(it, [rgs[i]]);
      assert GroupsLinks(it, rgs[..i + 1]) == GroupsLinks(it, rgs[..i]) + StepsLinks(it, rgs[i], rgs[i].steps);
      assert LinkSet(links + groupLinks) == LinkSet(links) + LinkSet(groupLinks);
      links := links + groupLinks;
      ids := ids + groupIds;
    }
    assert rgs[..|rgs|] == rgs;
    GroupsLinksAreEdges(it);
  }

  function Neighbours(m: map<Identifier, seq<Identifier>>, id: Identifier): seq<Identifier> {
    if id in m then m[id] else []
  }

  lemma NoNeighbours()
    ensures forall a :: Neighbours(map[], a) == []
  {
  }

  lemma OneMoreNeighbour(m: map<Identifier, seq<Identifier>>, a: Identifier, b: Identifier)
    ensures forall x :: Neighbours(m[a := Neighbours(m, a) + [b]], x) == Neighbours(m, x) + if x == a then [b] else []
  {
  }

  method IndexLinks(links: seq<Link>)
    returns (childrenOf: map<Identifier, seq<Identifier>>, parentsOf: map<Identifier, seq<Identifier>>)
    ensures forall a, b :: b in Neighbours(childrenOf, a) <==> Edge(a, b) in links
    ensures forall a, b :: a in Neighbours(parentsOf, b) <==> Edge(a, b) in links
  {
    NoNeighbours();
    hide Neighbours;
    childrenOf, parentsOf := map[], map[];
    for k := 0 to |links|
      invariant forall a, b :: b in Neighbours(childrenOf, a) <==> Edge(a, b) in links[..k]
      invariant forall a, b :: a in Neighbours(parentsOf, b) <==> Edge(a, b) in links[..k]
    {
      var e := links[k];
      assert links[..k + 1] == links[..k] + [e];
      OneMoreNeighbour(childrenOf, e.from, e.to);
      OneMoreNeighbour(parentsOf, e.to, e.from);
      childrenOf := childrenOf[e.from := Neighbours(childrenOf, e.from) + [e.to]];
      parentsOf := parentsOf[e.to := Neighbours(parentsOf, e.to) + [e.from]];
    }
    assert links[..|links|] == links;
  }

  /** The nodes of one expansion carry exactly its edges, each on both ends, and are listed in identifier order. */
  method NodesFor(it: StampIteration) returns (r: Option<Tables>)
    requires WellFormed(it.pipeline)
    ensures r.Some? <==> OneProvisioning(it.pipeline)
    ensures r.Some? ==>
      && GroupTable(it.pipeline.resourceGroups, r.value.groups)
      && StepTable(it.pipeline.resourceGroups, r.value.steps)
      && SubscriptionOf(it.pipeline, r.value.subscription)
      && r.value.validationSteps.Keys == ValidationIds(it)
    ensures r.Some? ==>
      && Ids(r.value.nodes) == IterIds(it)
      && ChildEdges(r.value.nodes) == IterEdges(it)
      && ParentEdges(r.value.nodes) == IterEdges(it)
      && forall i, j :: 0 <= i < j < |r.value.nodes| ==> IdLess(r.value.nodes[i].id, r.value.nodes[j].id)
    ensures r.Some? ==> forall e ::
      (e in ParentEdges(r.value.nodes) <==> ListedEdge(it, e)) && (e in ChildEdges(r.value.nodes) <==> ListedEdge(it, e))
  {
    var ok, subscription := CollectSubscription(it.pipeline);
    if !ok {
      return None;
    }
    var groups, steps := CollectTables(it.pipeline);
    var validationSteps := CollectValidationSteps(it);
    var links, ids := CollectSteps(it);
    var childrenOf, parentsOf := IndexLinks(links);
    IdLessIsTotal();
    var sorted := SortCompact(IdLess, ids);
    var nodes := seq(|sorted|, k requires 0 <= k < |sorted| =>
      Node(sorted[k], Neighbours(childrenOf, sorted[k]), Neighbours(parentsOf, sorted[k])));
    NodesCarry(it, links, sorted, nodes);
    forall e ensures e in IterEdges(it) <==> ListedEdge(it, e) {
      IterEdgesAreListed(it, e);
    }
    r := Some(Tables(groups, subscription, steps, validationSteps, nodes));
  }

  /** The nodes listed for `ids` record exactly `links` on both ends. */
  ghost predicate Carries(links: seq<Link>, ids: seq<Identifier>, nodes: seq<Node>) {
    && |nodes| == |ids|
    && (forall k :: 0 <= k < |ids| ==> nodes[k].id == ids[k])
    && (forall k, b :: 0 <= k < |ids| ==> (b in nodes[k].children <==> Edge(ids[k], b) in links))
    && (forall k, a :: 0 <= k < |ids| ==> (a in nodes[k].parents <==> Edge(a, ids[k]) in links))
  }

  lemma CarriedIds(links: seq<Link>, ids: seq<Identifier>, nodes: seq<Node>)
    requires Carries(links, ids, nodes)
    ensures Ids(nodes) == set id | id in ids
  {
    RecordedEdges(nodes);
    forall id | id in ids ensures id in Ids(nodes) {
      var k :| 0 <= k < |ids| && ids[k] == id;
      assert nodes[k] in nodes;
    }
  }

  lemma CarriedEdges(links: seq<Link>, ids: seq<Identifier>, nodes: seq<Node>, e: Link)
    requires Carries(links, ids, nodes) && e.from in ids && e.to in ids
    ensures e in ChildEdges(nodes) <==> e in links
    ensures e in ParentEdges(nodes) <==> e in links
  {
    RecordedEdges(nodes);
    var k :| 0 <= k < |ids| && ids[k] == e.from;
    var l :| 0 <= l < |ids| && ids[l] == e.to;
    assert e == Edge(ids[k], e.to) && e == Edge(e.from, ids[l]);
    assert nodes[k] in nodes && nodes[l] in nodes;
    if e in ChildEdges(nodes) {
      var n :| n in nodes && n.id == e.from && e.to in n.children;
      var i :| 0 <= i < |nodes| && nodes[i] == n;
      assert Edge(ids[i], e.to) in links;
    }
    if e in ParentEdges(nodes) {
      var n :| n in nodes && n.id == e.to && e.from in n.parents;
      var i :| 0 <= i < |nodes| && nodes[i] == n;
      assert Edge(e.from, ids[i]) in links;
    }
  }

  lemma CarriedEndpoints(links: seq<Link>, ids: seq<Identifier>, nodes: seq<Node>, e: Link)
    requires Carries(links, ids, nodes) && forall x :: x in links ==> x.from in ids && x.to in ids
    requires e in ChildEdges(nodes) || e in ParentEdges(nodes)
    ensures e.from in ids && e.to in ids
  {
    RecordedEdges(nodes);
    if e in ChildEdges(nodes) {
      var n :| n in nodes && n.id == e.from && e.to in n.children;
      var i :| 0 <= i < |nodes| && nodes[i] == n;
      assert Edge(ids[i], e.to) in links;
    } else {
      var n :| n in nodes && n.id == e.to && e.from in n.parents;
      var i :| 0 <= i < |nodes| && nodes[i] == n;
      assert Edge(e.from, ids[i]) in links;
    }
  }

  lemma NodesCarry(it: StampIteration, links: seq<Link>, ids: seq<Identifier>, nodes: seq<Node>)
    requires WellFormed(it.pipeline)
    requires LinkSet(links) == IterEdges(it)
    requires forall id :: id in ids <==> id in IterIds(it)
    requires Carries(links, ids, nodes)
    ensures Ids(nodes) == IterIds(it)
    ensures ChildEdges(nodes) == IterEdges(it) && ParentEdges(nodes) == IterEdges(it)
  {
    IterEdgesStayInside(it);
    CarriedIds(links, ids, nodes);
    assert Ids(nodes) == IterIds(it);
    assert forall x :: x in links <==> x in LinkSet(links);
    forall e ensures e in ChildEdges(nodes) <==> e in links {
      if e in ChildEdges(nodes) { CarriedEndpoints(links, ids, nodes, e); }
      if e.from in ids && e.to in ids { CarriedEdges(links, ids, nodes, e); }
    }
    forall e ensures e in ParentEdges(nodes) <==> e in links {
      if e in ParentEdges(nodes) { CarriedEndpoints(links, ids, nodes, e); }
      if e.from in ids && e.to in ids { CarriedEdges(links, ids, nodes, e); }
    }
  }
}
