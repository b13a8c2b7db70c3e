/** How the expected edges of a service tree are put together from those of its services. */
module ServicePlans {
  import opened ServiceTree
  import opened GraphSpec

  /** The edges within the given services and between them and their children. */
  function ForestEdges(services: set<Service>, plan: Plan): set<Link> {
    StepEdges(services, plan) + TopologyEdges(services, plan)
  }

  /** The later plan has the same expansions for every service the earlier one knows. */
  ghost predicate PlanExtends(plan: Plan, plan': Plan) {
    forall sg :: sg in plan ==> sg in plan' && plan'[sg] == plan[sg]
  }

  /** The services of the set and their children are all planned. */
  ghost predicate Planned(services: set<Service>, plan: Plan) {
    forall s :: s in services ==> s.serviceGroup in plan && forall c :: c in s.children ==> c.serviceGroup in plan
  }

  lemma ForestEdgesFrame(services: set<Service>, plan: Plan, plan': Plan)
    requires Planned(services, plan) && PlanExtends(plan, plan')
    ensures ForestEdges(services, plan) == ForestEdges(services, plan')
    ensures Planned(services, plan')
  {
    forall s | s in services ensures PlanOf(plan, s.serviceGroup) == PlanOf(plan', s.serviceGroup) {
    }
    forall s, c | s in services && c in s.children ensures PlanOf(plan, c.serviceGroup) == PlanOf(plan', c.serviceGroup) {
    }
    assert StepEdges(services, plan) == StepEdges(services, plan');
    assert TopologyEdges(services, plan) == TopologyEdges(services, plan');
  }

  lemma ForestEdgesUnion(a: set<Service>, b: set<Service>, plan: Plan)
    ensures ForestEdges(a + b, plan) == ForestEdges(a, plan) + ForestEdges(b, plan)
  {
    StepEdgesUnion(a, b, plan);
    TopologyEdgesUnion(a, b, plan);
    hide StepEdges, TopologyEdges;
  }

  lemma StepEdgesUnion(a: set<Service>, b: set<Service>, plan: Plan)
    ensures StepEdges(a + b, plan) == StepEdges(a, plan) + StepEdges(b, plan)
  {
    hide ServiceEdges, PlanOf;
  }

  lemma TopologyEdgesUnion(a: set<Service>, b: set<Service>, plan: Plan)
    ensures TopologyEdges(a + b, plan) == TopologyEdges(a, plan) + TopologyEdges(b, plan)
  {
    hide WireEdges, PlanOf;
  }

  /** The wires from a service to its children in `children`. */
  function WiresDown(sg: string, children: seq<Service>, plan: Plan): set<Link> {
    set c, e | c in children && e in WireEdges(PlanOf(plan, sg), PlanOf(plan, c.serviceGroup)) :: e
  }

  /** What the processed children of a service contribute. */
  function Partial(sg: string, children: seq<Service>, plan: Plan): set<Link> {
    ForestEdges(ForestSubtrees(children), plan) + WiresDown(sg, children, plan)
  }

  lemma PartialNone(sg: string, plan: Plan)
    ensures Partial(sg, [], plan) == {}
  {
    assert ForestSubtrees([]) == {};
    assert StepEdges({}, plan) == {} && TopologyEdges({}, plan) == {};
  }

  lemma PartialStep(sg: string, children: seq<Service>, c: Service, plan: Plan, plan': Plan)
    requires sg in plan && PlanExtends(plan, plan')
    requires Planned(ForestSubtrees(children), plan) && forall x :: x in children ==> x.serviceGroup in plan
    ensures Partial(sg, children + [c], plan') ==
      Partial(sg, children, plan) + ForestEdges(Subtrees(c), plan') + WireEdges(PlanOf(plan', sg), PlanOf(plan', c.serviceGroup))
  {
    hide ForestSubtrees, Subtrees, StepEdges, TopologyEdges, WireEdges, WiresDown, PlanOf, Planned, PlanExtends, ForestEdges;
    ForestConcat(children, [c]);
    ForestSingle(c);
    ForestEdgesUnion(ForestSubtrees(children), Subtrees(c), plan');
    ForestEdgesFrame(ForestSubtrees(children), plan, plan');
    WiresDownFrame(sg, children, plan, plan');
    WiresDownSnoc(sg, children, c, plan');
  }

  lemma WiresDownFrame(sg: string, children: seq<Service>, plan: Plan, plan': Plan)
    requires sg in plan && PlanExtends(plan, plan') && forall x :: x in children ==> x.serviceGroup in plan
    ensures WiresDown(sg, children, plan') == WiresDown(sg, children, plan)
  {
    forall e ensures e in WiresDown(sg, children, plan') <==> e in WiresDown(sg, children, plan) {
      if c :| c in children && e in WireEdges(PlanOf(plan, sg), PlanOf(plan, c.serviceGroup)) {
        assert e in WireEdges(PlanOf(plan', sg), PlanOf(plan', c.serviceGroup));
      }
      if c :| c in children && e in WireEdges(PlanOf(plan', sg), PlanOf(plan', c.serviceGroup)) {
        assert e in WireEdges(PlanOf(plan, sg), PlanOf(plan, c.serviceGroup));
      }
    }
  }

  lemma WiresDownSnoc(sg: string, children: seq<Service>, c: Service, plan: Plan)
    ensures WiresDown(sg, children + [c], plan) ==
      WiresDown(sg, children, plan) + WireEdges(PlanOf(plan, sg), PlanOf(plan, c.serviceGroup))
  {
    assert forall x :: x in children + [c] <==> x in children || x == c;
  }

  lemma PartialAll(s: Service, plan: Plan)
    requires s.serviceGroup in plan
    ensures ServiceEdges(plan[s.serviceGroup]) + Partial(s.serviceGroup, s.children, plan) == ForestEdges(Subtrees(s), plan)
  {
    ForestEdgesUnion({s}, ForestSubtrees(s.children), plan);
    OwnEdges(s, plan);
  }

  lemma OwnEdges(s: Service, plan: Plan)
    requires s.serviceGroup in plan
    ensures ForestEdges({s}, plan) == ServiceEdges(plan[s.serviceGroup]) + WiresDown(s.serviceGroup, s.children, plan)
  {
    hide WireEdges, ServiceEdges;
    forall e ensures e in StepEdges({s}, plan) <==> e in ServiceEdges(plan[s.serviceGroup]) {
      assert s in {s} && PlanOf(plan, s.serviceGroup) == plan[s.serviceGroup];
    }
    assert TopologyEdges({s}, plan) == WiresDown(s.serviceGroup, s.children, plan);
  }
}
