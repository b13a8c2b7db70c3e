/** The edges an execution graph must have, stated over services, stamps and pipelines without the builder. */
module GraphSpec {
  import opened Reachability
  import opened GraphTypes
  import opened Pipelines
  import opened ServiceTree

  type Link = Edge<Identifier>

  /** One expansion of a service: a stamp and the pipeline processed for it. */
  datatype StampIteration = StampIteration(stamp: Stamp, pipeline: Pipeline)

  /** The expansions of every service, in processing order. */
  type Plan = map<string, seq<StampIteration>>

  function PlanOf(plan: Plan, group: string): seq<StampIteration> {
    if group in plan then plan[group] else []
  }

  /** The stamped declaration of a resource group name and the service that made it last. */
  datatype StampedRecord = StampedRecord(stamped: bool, serviceGroup: string)

  // ----- one iteration

  predicate Has(it: StampIteration, rg: ResourceGroup, st: Step) {
    rg in it.pipeline.resourceGroups && st in rg.steps
  }

  function StepId(it: StampIteration, rg: ResourceGroup, st: Step): Identifier {
    Identifier(it.stamp.If(rg.meta.stamped), it.pipeline.serviceGroup, rg.meta.name, st.name)
  }

  predicate GroupStamped(p: Pipeline, name: string) {
    exists rg :: rg in p.resourceGroups && rg.meta.name == name && rg.meta.stamped
  }

  function DependencyId(it: StampIteration, d: StepDependency): Identifier {
    Identifier(it.stamp.If(GroupStamped(it.pipeline, d.resourceGroup)), it.pipeline.serviceGroup, d.resourceGroup, d.step)
  }

  function IterIds(it: StampIteration): set<Identifier> {
    set rg, st | rg in it.pipeline.resourceGroups && st in rg.steps :: StepId(it, rg, st)
  }

  function IterEdges(it: StampIteration): set<Link> {
    set rg, st, d | rg in it.pipeline.resourceGroups && st in rg.steps && d in Dependencies(st) ::
      Edge(DependencyId(it, d), StepId(it, rg, st))
  }

  /** The steps that count for the completion of the service group. */
  function IterCompletion(it: StampIteration): set<Identifier> {
    set rg, st | rg in it.pipeline.resourceGroups && st in rg.steps && st.completion :: StepId(it, rg, st)
  }

  /** Completion steps none of whose direct children is one. */
  function IterLeaves(it: StampIteration): set<Identifier> {
    set id | id in IterCompletion(it) && forall e :: e in IterEdges(it) && e.from == id ==> e.to !in IterCompletion(it)
  }

  ghost function IterStep(it: StampIteration, id: Identifier): Step
    requires id in IterIds(it)
  {
    var rg, st :| Has(it, rg, st) && StepId(it, rg, st) == id;
    st
  }

  lemma GroupStampedIs(p: Pipeline, rg: ResourceGroup)
    requires UniqueGroups(p) && rg in p.resourceGroups
    ensures GroupStamped(p, rg.meta.name) == rg.meta.stamped
  {
  }

  lemma StepIdInjective(it: StampIteration, rg: ResourceGroup, st: Step, rg': ResourceGroup, st': Step)
    requires WellFormed(it.pipeline)
    requires Has(it, rg, st) && Has(it, rg', st') && StepId(it, rg, st) == StepId(it, rg', st')
    ensures rg == rg' && st == st'
  {
  }

  lemma IterStepIs(it: StampIteration, rg: ResourceGroup, st: Step)
    requires WellFormed(it.pipeline) && Has(it, rg, st)
    ensures StepId(it, rg, st) in IterIds(it) && IterStep(it, StepId(it, rg, st)) == st
  {
    var id := StepId(it, rg, st);
    var rg', st' :| Has(it, rg', st') && StepId(it, rg', st') == id && st' == IterStep(it, id);
    StepIdInjective(it, rg, st, rg', st');
  }

  lemma IterCompletionIs(it: StampIteration, id: Identifier)
    requires WellFormed(it.pipeline) && id in IterIds(it)
    ensures id in IterCompletion(it) <==> IterStep(it, id).completion
  {
    var rg, st :| Has(it, rg, st) && StepId(it, rg, st) == id;
    IterStepIs(it, rg, st);
    if id in IterCompletion(it) {
      var rg', st' :| Has(it, rg', st') && st'.completion && StepId(it, rg', st') == id;
      StepIdInjective(it, rg, st, rg', st');
    }
  }

  /** A dependency names a node of the same iteration. */
  lemma DependencyIdIn(it: StampIteration, d: StepDependency)
    requires WellFormed(it.pipeline) && DependencyExists(it.pipeline, d)
    ensures DependencyId(it, d) in IterIds(it)
  {
    var rg :| rg in it.pipeline.resourceGroups && rg.meta.name == d.resourceGroup && HasStep(rg, d.step);
    var st :| st in rg.steps && st.name == d.step;
    GroupStampedIs(it.pipeline, rg);
    assert DependencyId(it, d) == StepId(it, rg, st);
  }

  lemma IterEdgesStayInside(it: StampIteration)
    requires WellFormed(it.pipeline)
    ensures forall e :: e in IterEdges(it) ==> e.from in IterIds(it) && e.to in IterIds(it)
  {
    forall e | e in IterEdges(it) ensures e.from in IterIds(it) && e.to in IterIds(it) {
      var rg, st, d :| rg in it.pipeline.resourceGroups && st in rg.steps && d in Dependencies(st) &&
        e == Edge(DependencyId(it, d), StepId(it, rg, st));
      DependencyIdIn(it, d);
    }
  }

  /** The step lists the other one among its dependencies or its required inputs. */
  predicate Lists(st: Step, group: string, step: string) {
    StepDependency(group, step) in st.dependsOn || StepDependency(group, step) in st.requiredInputs
  }

  /** The step a listed entry names is there. */
  lemma ListedStep(it: StampIteration, rg: ResourceGroup, st: Step, d: StepDependency) returns (rg': ResourceGroup, st': Step)
    requires WellFormed(it.pipeline) && Has(it, rg, st) && (d in st.dependsOn || d in st.requiredInputs)
    ensures Has(it, rg', st') && rg'.meta.name == d.resourceGroup && st'.name == d.step
    ensures Edge(StepId(it, rg', st'), StepId(it, rg, st)) in IterEdges(it)
  {
    assert d in Dependencies(st);
    assert DependencyExists(it.pipeline, d);
    rg' :| rg' in it.pipeline.resourceGroups && rg'.meta.name == d.resourceGroup && HasStep(rg', d.step);
    st' :| st' in rg'.steps && st'.name == d.step;
    GroupStampedIs(it.pipeline, rg');
    assert DependencyId(it, d) == StepId(it, rg', st');
  }

  lemma EdgeIsListed(it: StampIteration, e: Link) returns (rg: ResourceGroup, st: Step, rg': ResourceGroup, st': Step)
    requires WellFormed(it.pipeline) && e in IterEdges(it)
    ensures Has(it, rg, st) && Has(it, rg', st') && e == Edge(StepId(it, rg', st'), StepId(it, rg, st))
    ensures Lists(st, rg'.meta.name, st'.name)
  {
    var d;
    rg, st, d :| rg in it.pipeline.resourceGroups && st in rg.steps && d in Dependencies(st) && e == Edge(DependencyId(it, d), StepId(it, rg, st));
    assert d in st.dependsOn || d in st.requiredInputs;
    rg', st' := ListedStep(it, rg, st, d);
    GroupStampedIs(it.pipeline, rg');
    assert d == StepDependency(rg'.meta.name, st'.name);
  }

  /** From one step of the expansion to another that lists it. */
  ghost predicate ListedEdge(it: StampIteration, e: Link) {
    exists rg, st, rg', st' ::
      && Has(it, rg, st) && Has(it, rg', st') && Lists(st, rg'.meta.name, st'.name)
      && e == Edge(StepId(it, rg', st'), StepId(it, rg, st))
  }

  /** The edges of an expansion are those its steps list as dependencies or required inputs. */
  lemma IterEdgesAreListed(it: StampIteration, e: Link)
    requires WellFormed(it.pipeline)
    ensures e in IterEdges(it) <==> ListedEdge(it, e)
  {
    if e in IterEdges(it) {
      var rg, st, rg', st' := EdgeIsListed(it, e);
    }
    if ListedEdge(it, e) {
      var rg, st, rg', st' :|
        && Has(it, rg, st) && Has(it, rg', st') && Lists(st, rg'.meta.name, st'.name)
        && e == Edge(StepId(it, rg', st'), StepId(it, rg, st));
      var rg2, st2 := ListedStep(it, rg, st, StepDependency(rg'.meta.name, st'.name));
      GroupStampedIs(it.pipeline, rg2);
      GroupStampedIs(it.pipeline, rg');
    }
  }

  // ----- one service

  function ServiceIds(its: seq<StampIteration>): set<Identifier> {
    set it, id | it in its && id in IterIds(it) :: id
  }

  function ServiceEdges(its: seq<StampIteration>): set<Link> {
    set it, e | it in its && e in IterEdges(it) :: e
  }

  function ServiceLeaves(its: seq<StampIteration>): set<Identifier> {
    set it, id | it in its && id in IterLeaves(it) :: id
  }

  /** Nodes without a parent in their own service. */
  function ServiceRoots(its: seq<StampIteration>): set<Identifier> {
    set id | id in ServiceIds(its) && forall e :: e in ServiceEdges(its) ==> e.to != id
  }

  /** Every leaf of the parent service leads to every root of the child service, within one stamp. */
  function WireEdges(parent: seq<StampIteration>, child: seq<StampIteration>): set<Link> {
    set l, r | l in ServiceLeaves(parent) && r in ServiceRoots(child) && Compatible(l.stamp, r.stamp) :: Edge(l, r)
  }

  /** The step recorded for an identifier; later iterations overwrite earlier ones. */
  ghost function FinalStep(its: seq<StampIteration>, id: Identifier): Step
    requires id in ServiceIds(its)
  {
    var last := its[|its| - 1];
    if id in IterIds(last) then IterStep(last, id)
    else
      assert its == its[..|its| - 1] + [last];
      FinalStep(its[..|its| - 1], id)
  }

  lemma IterServiceGroup(it: StampIteration)
    ensures forall id :: id in IterIds(it) ==> id.serviceGroup == it.pipeline.serviceGroup
    ensures forall e :: e in IterEdges(it) ==> e.from.serviceGroup == e.to.serviceGroup == it.pipeline.serviceGroup
  {
  }

  lemma AddIteration(its: seq<StampIteration>, it: StampIteration)
    ensures ServiceIds(its + [it]) == ServiceIds(its) + IterIds(it)
    ensures ServiceEdges(its + [it]) == ServiceEdges(its) + IterEdges(it)
    ensures ServiceLeaves(its + [it]) == ServiceLeaves(its) + IterLeaves(it)
  {
    assert forall x :: x in its + [it] <==> x in its || x == it;
  }

  lemma AddIterationStep(its: seq<StampIteration>, it: StampIteration, id: Identifier)
    requires id in ServiceIds(its + [it])
    ensures id in IterIds(it) ==> FinalStep(its + [it], id) == IterStep(it, id)
    ensures id !in IterIds(it) ==> id in ServiceIds(its) && FinalStep(its + [it], id) == FinalStep(its, id)
  {
    AddIteration(its, it);
    assert (its + [it])[..|its|] == its;
  }

  // ----- a set of services

  function StepEdges(services: set<Service>, plan: Plan): set<Link> {
    set s, e | s in services && e in ServiceEdges(PlanOf(plan, s.serviceGroup)) :: e
  }

  function TopologyEdges(services: set<Service>, plan: Plan): set<Link> {
    set s, c, e | s in services && c in s.children &&
      e in WireEdges(PlanOf(plan, s.serviceGroup), PlanOf(plan, c.serviceGroup)) :: e
  }

  /** The node an external dependency of `id` names. */
  function ExternalParent(groupStamped: map<string, StampedRecord>, id: Identifier, d: ExternalDependency): Identifier {
    var target := d.resourceGroup in groupStamped && groupStamped[d.resourceGroup].stamped;
    Identifier(id.stamp.If(target), d.serviceGroup, d.resourceGroup, d.step)
  }

  /** The edges one node's external dependencies call for. */
  function ExternalInto(groupStamped: map<string, StampedRecord>, id: Identifier, deps: seq<ExternalDependency>): set<Link> {
    set d | d in deps :: Edge(ExternalParent(groupStamped, id, d), id)
  }

  function ExternalEdgesOf(steps: map<Identifier, Step>, groupStamped: map<string, StampedRecord>, ids: set<Identifier>): set<Link> {
    set id, e | id in ids && id in steps && e in ExternalInto(groupStamped, id, steps[id].externalDependsOn) :: e
  }

  function ExternalEdges(steps: map<Identifier, Step>, groupStamped: map<string, StampedRecord>): set<Link> {
    ExternalEdgesOf(steps, groupStamped, steps.Keys)
  }

  function WithoutLoops(links: set<Link>): set<Link> {
    set e | e in links && e.from != e.to
  }

  /**
    * `loops` are edges of `links` that lead from an identifier to itself; for each of them at most one other edge is
    * `lost`, which starts at the same identifier.
    */
  ghost predicate Displaced(links: set<Link>, loops: set<Link>, lost: set<Link>) {
    && (forall e :: e in loops ==> e in links && e.from == e.to)
    && (forall e :: e in lost ==> e.from != e.to && Edge(e.from, e.from) in loops)
    && (forall e, f :: e in lost && f in lost && e.from == f.from ==> e == f)
  }

  /** A dependency of `id` can be wired: both groups are known, stamped groups are not reached from unstamped ones, the target exists. */
  predicate ExternalOk(steps: map<Identifier, Step>, groupStamped: map<string, StampedRecord>, id: Identifier, d: ExternalDependency) {
    && d.resourceGroup in groupStamped
    && id.resourceGroup in groupStamped
    && (groupStamped[d.resourceGroup].stamped ==> groupStamped[id.resourceGroup].stamped)
    && ExternalParent(groupStamped, id, d) in steps
  }

  ghost predicate AllExternalOk(steps: map<Identifier, Step>, groupStamped: map<string, StampedRecord>) {
    forall id, d :: id in steps && d in steps[id].externalDependsOn ==> ExternalOk(steps, groupStamped, id, d)
  }
}
