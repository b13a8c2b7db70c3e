/** Pipelines and the structural validation that graph construction relies on. */
module Pipelines {
  import opened Wrappers

  datatype StepDependency = StepDependency(resourceGroup: string, step: string)

  datatype ExternalDependency = ExternalDependency(serviceGroup: string, resourceGroup: string, step: string)

  /** What graph construction sees of a step; `completion` is false when it is omitted from service group completion. */
  datatype Step = Step(
    name: string,
    dependsOn: seq<StepDependency>,
    requiredInputs: seq<StepDependency>,
    externalDependsOn: seq<ExternalDependency>,
    completion: bool)

  datatype ExecutionConstraint = ExecutionConstraint(
    singleton: bool, clouds: seq<string>, environments: seq<string>, regions: seq<string>)

  datatype GroupMeta = GroupMeta(
    name: string,
    resourceGroup: string,
    subscription: string,
    stamped: bool,
    constraints: seq<ExecutionConstraint>)

  datatype ResourceGroup = ResourceGroup(
    meta: GroupMeta,
    provisioning: Option<string>,
    steps: seq<Step>,
    validationSteps: seq<Step>)

  datatype Pipeline = Pipeline(serviceGroup: string, resourceGroups: seq<ResourceGroup>)

  function Dependencies(st: Step): seq<StepDependency> {
    st.dependsOn + st.requiredInputs
  }

  datatype ValidationError =
    | DuplicateGroup(group: nat)
    | DuplicateStep(group: nat, step: nat)
    | ValidationStepClash(group: nat, step: nat)
    | UnknownGroup(group: nat, step: nat, dep: nat)
    | UnknownStep(group: nat, step: nat, dep: nat)
    | MissingName(group: nat)
    | MissingSubscription(group: nat)

  ghost predicate UniqueGroups(p: Pipeline) {
    forall i, j :: 0 <= i < j < |p.resourceGroups| ==> p.resourceGroups[i].meta.name != p.resourceGroups[j].meta.name
  }

  ghost predicate UniqueSteps(rg: ResourceGroup) {
    forall i, j :: 0 <= i < j < |rg.steps| ==> rg.steps[i].name != rg.steps[j].name
  }

  predicate HasStep(rg: ResourceGroup, name: string) {
    exists st :: st in rg.steps && st.name == name
  }

  predicate DependencyExists(p: Pipeline, d: StepDependency) {
    exists rg :: rg in p.resourceGroups && rg.meta.name == d.resourceGroup && HasStep(rg, d.step)
  }

  /** What a validated pipeline guarantees; whatever a step lists, a dependency or a required input, is a step of the pipeline. */
  ghost predicate WellFormed(p: Pipeline) {
    && UniqueGroups(p)
    && (forall rg :: rg in p.resourceGroups ==>
          && UniqueSteps(rg)
          && (forall v :: v in rg.validationSteps ==> !HasStep(rg, v.name))
          && rg.meta.name != ""
          && rg.meta.subscription != "")
    && (forall rg, st, d ::
          (rg in p.resourceGroups && st in rg.steps && (d in st.dependsOn || d in st.requiredInputs)) ==> DependencyExists(p, d))
  }

  /** The reported error points at a defect of the pipeline. */
  ghost predicate Justified(p: Pipeline, e: ValidationError) {
    && e.group < |p.resourceGroups|
    && var rg := p.resourceGroups[e.group];
       match e
       case DuplicateGroup(i) => exists k :: 0 <= k < i && p.resourceGroups[k].meta.name == rg.meta.name
       case DuplicateStep(_, j) =>
         j < |rg.steps| && exists k :: 0 <= k < j && rg.steps[k].name == rg.steps[j].name
       case ValidationStepClash(_, j) => j < |rg.validationSteps| && HasStep(rg, rg.validationSteps[j].name)
       case UnknownGroup(_, j, k) =>
         && j < |rg.steps| && k < |rg.steps[j].dependsOn + rg.steps[j].requiredInputs|
         && forall g :: g in p.resourceGroups ==> g.meta.name != (rg.steps[j].dependsOn + rg.steps[j].requiredInputs)[k].resourceGroup
       case UnknownStep(_, j, k) =>
         && j < |rg.steps| && k < |rg.steps[j].dependsOn + rg.steps[j].requiredInputs|
         && !DependencyExists(p, (rg.steps[j].dependsOn + rg.steps[j].requiredInputs)[k])
       case MissingName(_) => rg.meta.name == ""
       case MissingSubscription(_) => rg.meta.subscription == ""
  }

  lemma JustifiedRefutes(p: Pipeline, e: ValidationError)
    requires Justified(p, e)
    ensures !WellFormed(p)
  {
    var rg := p.resourceGroups[e.group];
    assert rg in p.resourceGroups;
    match e {
      case ValidationStepClash(_, j) => assert rg.validationSteps[j] in rg.validationSteps;
      case UnknownGroup(_, j, k) =>
        assert rg.steps[j] in rg.steps && Dependencies(rg.steps[j])[k] in Dependencies(rg.steps[j]);
        assert !DependencyExists(p, Dependencies(rg.steps[j])[k]);
      case UnknownStep(_, j, k) =>
        assert rg.steps[j] in rg.steps && Dependencies(rg.steps[j])[k] in Dependencies(rg.steps[j]);
      case _ =>
    }
  }

  /** The step names of the groups read so far, keyed by group name. */
  ghost predicate References(groups: seq<ResourceGroup>, references: map<string, set<string>>) {
    && (forall n :: n in references <==> exists rg :: rg in groups && rg.meta.name == n)
    && (forall rg :: rg in groups ==> references[rg.meta.name] == set st | st in rg.steps :: st.name)
  }

  method ValidateGroupSteps(rg: ResourceGroup, i: nat) returns (err: Option<ValidationError>, steps: set<string>)
    ensures err.None? ==> UniqueSteps(rg) && forall v :: v in rg.validationSteps ==> !HasStep(rg, v.name)
    ensures err.None? ==> steps == set st | st in rg.steps :: st.name
    ensures err.Some? ==> err.value.group == i
    ensures err.Some? ==>
      match err.value
      case DuplicateStep(_, j) => j < |rg.steps| && exists k :: 0 <= k < j && rg.steps[k].name == rg.steps[j].name
      case ValidationStepClash(_, j) => j < |rg.validationSteps| && HasStep(rg, rg.validationSteps[j].name)
      case _ => false
  {
    steps := {};
    for j := 0 to |rg.steps|
      invariant steps == set k | 0 <= k < j :: rg.steps[k].name
      invariant forall k, l :: 0 <= k < l < j ==> rg.steps[k].name != rg.steps[l].name
    {
      if rg.steps[j].name in steps {
        return Some(DuplicateStep(i, j)), steps;
      }
      steps := steps + {rg.steps[j].name};
    }
    forall n | n in steps ensures exists st :: st in rg.steps && st.name == n {
      var k :| 0 <= k < |rg.steps| && rg.steps[k].name == n;
      assert rg.steps[k] in rg.steps;
    }
    for j := 0 to |rg.validationSteps|
      invariant forall k :: 0 <= k < j ==> !HasStep(rg, rg.validationSteps[k].name)
    {
      if rg.validationSteps[j].name in steps {
        return Some(ValidationStepClash(i, j)), steps;
      }
    }
    err := None;
  }

  lemma ReferencesGrow(groups: seq<ResourceGroup>, references: map<string, set<string>>, rg: ResourceGroup, steps: set<string>)
    requires References(groups, references) && rg.meta.name !in references
    requires steps == set st | st in rg.steps :: st.name
    ensures References(groups + [rg], references[rg.meta.name := steps])
  {
  }

  lemma NoReferences()
    ensures References([], map[])
  {
  }

  lemma ReferencesKnow(groups: seq<ResourceGroup>, references: map<string, set<string>>, name: string)
    requires References(groups, references)
    ensures name in references <==> exists k :: 0 <= k < |groups| && groups[k].meta.name == name
  {
    if k :| 0 <= k < |groups| && groups[k].meta.name == name {
      assert groups[k] in groups;
    }
  }

  method CollectReferences(p: Pipeline) returns (err: Option<ValidationError>, references: map<string, set<string>>)
    ensures err.None? ==> UniqueGroups(p) && References(p.resourceGroups, references)
    ensures err.None? ==> forall rg :: rg in p.resourceGroups ==>
      UniqueSteps(rg) && forall v :: v in rg.validationSteps ==> !HasStep(rg, v.name)
    ensures err.Some? ==> Justified(p, err.value)
  {
    hide References, UniqueSteps, HasStep;
    references := map[];
    var groups := {};
    NoReferences();
    for i := 0 to |p.resourceGroups|
      invariant groups == set k | 0 <= k < i :: p.resourceGroups[k].meta.name
      invariant forall k, l :: 0 <= k < l < i ==> p.resourceGroups[k].meta.name != p.resourceGroups[l].meta.name
      invariant References(p.resourceGroups[..i], references)
      invariant forall rg :: rg in p.resourceGroups[..i] ==>
        UniqueSteps(rg) && forall v :: v in rg.validationSteps ==> !HasStep(rg, v.name)
    {
      var rg := p.resourceGroups[i];
      if rg.meta.name in groups {
        return Some(DuplicateGroup(i)), references;
      }
      groups := groups + {rg.meta.name};
      var steps;
      err, steps := ValidateGroupSteps(rg, i);
      if err.Some? {
        return;
      }
      ReferencesKnow(p.resourceGroups[..i], references, rg.meta.name);
      ReferencesGrow(p.resourceGroups[..i], references, rg, steps);
      references := references[rg.meta.name := steps];
      assert p.resourceGroups[..i + 1] == p.resourceGroups[..i] + [rg];
    }
    assert p.resourceGroups[..|p.resourceGroups|] == p.resourceGroups;
    err := None;
  }

  lemma ReferencesAnswer(p: Pipeline, references: map<string, set<string>>, d: StepDependency)
    requires UniqueGroups(p) && References(p.resourceGroups, references)
    ensures DependencyExists(p, d) <==> d.resourceGroup in references && d.step in references[d.resourceGroup]
  {
    if d.resourceGroup in references && d.step in references[d.resourceGroup] {
      var rg :| rg in p.resourceGroups && rg.meta.name == d.resourceGroup;
      var st :| st in rg.steps && st.name == d.step;
      assert HasStep(rg, d.step);
    }
  }

  method ValidateDependencies(p: Pipeline, references: map<string, set<string>>) returns (err: Option<ValidationError>)
    requires UniqueGroups(p) && References(p.resourceGroups, references)
    ensures err.None? ==> forall rg, st, d ::
      rg in p.resourceGroups && st in rg.steps && (d in st.dependsOn || d in st.requiredInputs) ==> DependencyExists(p, d)
    ensures err.Some? ==> Justified(p, err.value)
  {
    for i := 0 to |p.resourceGroups|
      invariant forall l :: 0 <= l < i ==> forall st, d ::
        st in p.resourceGroups[l].steps && d in Dependencies(st) ==> DependencyExists(p, d)
    {
      var rg := p.resourceGroups[i];
      for j := 0 to |rg.steps|
        invariant forall l, d :: 0 <= l < j && d in Dependencies(rg.steps[l]) ==> DependencyExists(p, d)
      {
        var deps := Dependencies(rg.steps[j]);
        for k := 0 to |deps|
          invariant forall l :: 0 <= l < k ==> DependencyExists(p, deps[l])
        {
          ReferencesAnswer(p, references, deps[k]);
          if deps[k].resourceGroup !in references {
            return Some(UnknownGroup(i, j, k));
          }
          if deps[k].step !in references[deps[k].resourceGroup] {
            return Some(UnknownStep(i, j, k));
          }
        }
      }
    }
    forall rg, st, d | rg in p.resourceGroups && st in rg.steps && (d in st.dependsOn || d in st.requiredInputs)
      ensures DependencyExists(p, d)
    {
      assert d in Dependencies(st);
    }
    err := None;
  }

  method ValidateGroups(p: Pipeline) returns (err: Option<ValidationError>)
    ensures err.None? ==> forall rg :: rg in p.resourceGroups ==> rg.meta.name != "" && rg.meta.subscription != ""
    ensures err.Some? ==> Justified(p, err.value)
  {
    for i := 0 to |p.resourceGroups|
      invariant forall l :: 0 <= l < i ==> p.resourceGroups[l].meta.name != "" && p.resourceGroups[l].meta.subscription != ""
    {
      if p.resourceGroups[i].meta.name == "" {
        return Some(MissingName(i));
      }
      if p.resourceGroups[i].meta.subscription == "" {
        return Some(MissingSubscription(i));
      }
    }
    err := None;
  }

  /** Accepts exactly the well-formed pipelines, and justifies every rejection. */
  method Validate(p: Pipeline) returns (err: Option<ValidationError>)
    ensures err.None? <==> WellFormed(p)
    ensures err.Some? ==> Justified(p, err.value)
  {
    var references;
    err, references := CollectReferences(p);
    if err.None? {
      err := ValidateDependencies(p, references);
    }
    if err.None? {
      err := ValidateGroups(p);
    }
    if err.Some? {
      JustifiedRefutes(p, err.value);
    }
  }
}
