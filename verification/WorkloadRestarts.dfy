/** Finding the workloads behind pods with a stale sidecar, and restarting them. */
module WorkloadRestarts {
  import opened Wrappers

  datatype OwnerRef = OwnerRef(kind: string, name: string, controller: bool)

  /** A running pod with a sidecar of some revision. */
  datatype Pod = Pod(name: string, owners: seq<OwnerRef>, revision: string)

  datatype ReplicaSet = ReplicaSet(name: string, owners: seq<OwnerRef>)

  datatype Kind = OrphanPod | Deployment | StatefulSet | DaemonSet

  datatype Workload = Workload(kind: Kind, name: string)

  function ControllingOwner(refs: seq<OwnerRef>): Option<OwnerRef> {
    if refs == [] then None
    else if refs[0].controller then Some(refs[0])
    else ControllingOwner(refs[1..])
  }

  /** The deployment behind each replica set that has one; of two sets with one name the later counts. */
  function OwnerMap(sets: seq<ReplicaSet>): map<string, string> {
    if sets == [] then map[]
    else
      var before, s := OwnerMap(sets[..|sets| - 1]), sets[|sets| - 1];
      if OwnedByDeployment(s) then before[s.name := ControllingOwner(s.owners).value.name] else before
  }

  /** Nothing later in the list owns the same name. */
  predicate LastOwner(sets: seq<ReplicaSet>, k: nat)
    requires k < |sets|
  {
    OwnedByDeployment(sets[k]) && forall j :: k < j < |sets| && sets[j].name == sets[k].name ==> !OwnedByDeployment(sets[j])
  }

  lemma {:induction false} OwnersMapped(sets: seq<ReplicaSet>)
    ensures forall n :: n in OwnerMap(sets) <==> exists k :: 0 <= k < |sets| && sets[k].name == n && OwnedByDeployment(sets[k])
  {
    hide OwnedByDeployment, ControllingOwner;
    if sets != [] {
      var init, s := sets[..|sets| - 1], sets[|sets| - 1];
      OwnersMapped(init);
      assert forall k :: 0 <= k < |init| ==> init[k] == sets[k];
      forall n ensures n in OwnerMap(sets) <==> exists k :: 0 <= k < |sets| && sets[k].name == n && OwnedByDeployment(sets[k]) {
        assert n in OwnerMap(sets) <==> n in OwnerMap(init) || (OwnedByDeployment(s) && n == s.name);
      }
    }
  }

  lemma {:induction false} LastOwnerMapped(sets: seq<ReplicaSet>, k: nat)
    requires k < |sets| && LastOwner(sets, k)
    ensures sets[k].name in OwnerMap(sets) && OwnerMap(sets)[sets[k].name] == ControllingOwner(sets[k].owners).value.name
  {
    hide ControllingOwner;
    var init, s := sets[..|sets| - 1], sets[|sets| - 1];
    if k < |init| {
      assert LastOwner(init, k) && init[k] == sets[k];
      LastOwnerMapped(init, k);
      assert s.name == sets[k].name ==> !OwnedByDeployment(s);
    }
  }

  method BuildReplicaSetOwnerMap(sets: seq<ReplicaSet>) returns (owners: map<string, string>)
    ensures owners == OwnerMap(sets)
    ensures forall n :: n in owners <==> exists k :: 0 <= k < |sets| && sets[k].name == n && OwnedByDeployment(sets[k])
    ensures forall k :: 0 <= k < |sets| && LastOwner(sets, k) ==>
      sets[k].name in owners && owners[sets[k].name] == ControllingOwner(sets[k].owners).value.name
  {
    owners := map[];
    for i := 0 to |sets|
      invariant owners == OwnerMap(sets[..i])
    {
      assert sets[..i + 1][..i] == sets[..i];
      var owner := ControllingOwner(sets[i].owners);
      if owner.Some? && owner.value.kind == "Deployment" {
        owners := owners[sets[i].name := owner.value.name];
      }
    }
    assert sets[..|sets|] == sets;
    OwnersMapped(sets);
    forall k | 0 <= k < |sets| && LastOwner(sets, k)
      ensures sets[k].name in owners && owners[sets[k].name] == ControllingOwner(sets[k].owners).value.name
    {
      LastOwnerMapped(sets, k);
    }
  }

  predicate OwnedByDeployment(s: ReplicaSet) {
    ControllingOwner(s.owners).Some? && ControllingOwner(s.owners).value.kind == "Deployment"
  }

  /** What has to be restarted to replace a pod: the workload that controls it, or the pod itself. */
  function WorkloadOf(pod: Pod, rsOwners: map<string, string>): Workload {
    match ControllingOwner(pod.owners)
    case None => Workload(OrphanPod, pod.name)
    case Some(c) =>
      if c.kind == "ReplicaSet" then
        if c.name in rsOwners then Workload(Deployment, rsOwners[c.name]) else Workload(OrphanPod, pod.name)
      else if c.kind == "StatefulSet" then Workload(StatefulSet, c.name)
      else if c.kind == "DaemonSet" then Workload(DaemonSet, c.name)
      else Workload(OrphanPod, pod.name)
  }

  /** The first owner marked as the controlling one. */
  predicate Controls(owners: seq<OwnerRef>, k: int) {
    0 <= k < |owners| && owners[k].controller && forall j :: 0 <= j < k ==> !owners[j].controller
  }

  predicate NoController(owners: seq<OwnerRef>) {
    forall j :: 0 <= j < |owners| ==> !owners[j].controller
  }

  /** The listed set has a deployment as its controlling owner. */
  predicate ByDeployment(sets: seq<ReplicaSet>, i: int, j: int) {
    0 <= i < |sets| && Controls(sets[i].owners, j) && sets[i].owners[j].kind == "Deployment"
  }

  /** Of the sets with this name that a deployment controls the last one listed is controlled by this one. */
  ghost predicate DeployedBy(sets: seq<ReplicaSet>, name: string, deployment: string) {
    exists i, j ::
      && ByDeployment(sets, i, j) && sets[i].name == name && sets[i].owners[j].name == deployment
      && forall i', j' :: i < i' && ByDeployment(sets, i', j') ==> sets[i'].name != name
  }

  ghost predicate NotDeployed(sets: seq<ReplicaSet>, name: string) {
    forall i, j :: ByDeployment(sets, i, j) ==> sets[i].name != name
  }

  /** What has to be restarted when the given owner controls the pod. */
  ghost predicate ReplacesOwned(pod: Pod, owner: OwnerRef, sets: seq<ReplicaSet>, w: Workload) {
    match owner.kind
    case "StatefulSet" => w == Workload(StatefulSet, owner.name)
    case "DaemonSet" => w == Workload(DaemonSet, owner.name)
    case "ReplicaSet" =>
      || (w.kind == Deployment && DeployedBy(sets, owner.name, w.name))
      || (w == Workload(OrphanPod, pod.name) && NotDeployed(sets, owner.name))
    case _ => w == Workload(OrphanPod, pod.name)
  }

  /** What has to be restarted to replace the pod, by its owners and those of the listed replica sets. */
  ghost predicate Replaces(pod: Pod, sets: seq<ReplicaSet>, w: Workload) {
    || (NoController(pod.owners) && w == Workload(OrphanPod, pod.name))
    || exists k :: Controls(pod.owners, k) && ReplacesOwned(pod, pod.owners[k], sets, w)
  }

  lemma {:induction false} ControllerFound(owners: seq<OwnerRef>)
    ensures ControllingOwner(owners).None? <==> NoController(owners)
    ensures forall k :: Controls(owners, k) ==> ControllingOwner(owners) == Some(owners[k])
    ensures ControllingOwner(owners).Some? ==> exists k :: Controls(owners, k)
  {
    if owners != [] && !owners[0].controller {
      ControllerFound(owners[1..]);
      assert forall k :: 0 < k < |owners| ==> owners[k] == owners[1..][k - 1];
      forall k | Controls(owners, k) ensures Controls(owners[1..], k - 1) {
      }
      if k :| Controls(owners[1..], k) {
        assert Controls(owners, k + 1);
      }
    } else if owners != [] {
      assert Controls(owners, 0);
    }
  }

  lemma OwnedMeansByDeployment(sets: seq<ReplicaSet>, i: nat)
    requires i < |sets|
    ensures OwnedByDeployment(sets[i]) <==> exists j :: ByDeployment(sets, i, j)
    ensures forall j :: ByDeployment(sets, i, j) ==> ControllingOwner(sets[i].owners) == Some(sets[i].owners[j])
  {
    ControllerFound(sets[i].owners);
    if k :| Controls(sets[i].owners, k) && sets[i].owners[k].kind == "Deployment" {
      assert ByDeployment(sets, i, k);
    }
  }

  lemma MapOfDeployments(sets: seq<ReplicaSet>, name: string)
    ensures name !in OwnerMap(sets) <==> NotDeployed(sets, name)
    ensures forall d :: DeployedBy(sets, name, d) <==> name in OwnerMap(sets) && OwnerMap(sets)[name] == d
  {
    hide OwnedByDeployment, ControllingOwner, OwnerMap;
    forall i: nat | i < |sets|
      ensures OwnedByDeployment(sets[i]) <==> exists j :: ByDeployment(sets, i, j)
      ensures forall j :: ByDeployment(sets, i, j) ==> ControllingOwner(sets[i].owners) == Some(sets[i].owners[j])
    {
      OwnedMeansByDeployment(sets, i);
    }
    OwnersMapped(sets);
    forall d | DeployedBy(sets, name, d) ensures name in OwnerMap(sets) && OwnerMap(sets)[name] == d {
      var i, j :|
        && ByDeployment(sets, i, j) && sets[i].name == name && sets[i].owners[j].name == d
        && forall i', j' :: i < i' && ByDeployment(sets, i', j') ==> sets[i'].name != name;
      LastOwnerMapped(sets, i);
    }
    if name in OwnerMap(sets) {
      var i := LastSetOf(sets, name);
      LastOwnerMapped(sets, i);
      var j :| ByDeployment(sets, i, j);
      assert DeployedBy(sets, name, sets[i].owners[j].name);
    }
  }

  lemma {:induction false} LastSetOf(sets: seq<ReplicaSet>, name: string) returns (i: nat)
    requires exists k :: 0 <= k < |sets| && sets[k].name == name && OwnedByDeployment(sets[k])
    ensures i < |sets| && sets[i].name == name && LastOwner(sets, i)
  {
    hide OwnedByDeployment;
    i := |sets| - 1;
    while !(sets[i].name == name && OwnedByDeployment(sets[i]))
      invariant i < |sets|
      invariant exists k :: 0 <= k <= i && sets[k].name == name && OwnedByDeployment(sets[k])
      invariant forall j :: i < j < |sets| && sets[j].name == name ==> !OwnedByDeployment(sets[j])
      decreases i
    {
      i := i - 1;
    }
  }

  lemma ReplacementIs(pod: Pod, sets: seq<ReplicaSet>, w: Workload)
    ensures Replaces(pod, sets, w) <==> w == WorkloadOf(pod, OwnerMap(sets))
  {
    ControllerFound(pod.owners);
    var c := ControllingOwner(pod.owners);
    if c.Some? {
      MapOfDeployments(sets, c.value.name);
    }
    hide OwnerMap, ControllingOwner, DeployedBy, NotDeployed;
  }

  function StaleWorkloads(pods: seq<Pod>, rsOwners: map<string, string>, target: string): set<Workload> {
    set p | p in pods && p.revision != target :: WorkloadOf(p, rsOwners)
  }

  datatype Stale = Stale(orphanPods: seq<string>, deployments: set<string>, statefulSets: set<string>, daemonSets: set<string>)

  function OfKind(kind: Kind, names: set<string>): set<Workload> {
    set n | n in names :: Workload(kind, n)
  }

  function AllStale(s: Stale): set<Workload> {
    OfKind(OrphanPod, Elements(s.orphanPods)) + OfKind(Deployment, s.deployments) +
    OfKind(StatefulSet, s.statefulSets) + OfKind(DaemonSet, s.daemonSets)
  }

  method IdentifyStaleWorkloads(pods: seq<Pod>, rsOwners: map<string, string>, target: string) returns (stale: Stale)
    ensures AllStale(stale) == StaleWorkloads(pods, rsOwners, target)
    ensures forall sets, w :: rsOwners == OwnerMap(sets) ==>
      (w in AllStale(stale) <==> exists p :: p in pods && p.revision != target && Replaces(p, sets, w))
  {
    hide OwnerMap, Replaces;
    stale := Stale([], {}, {}, {});
    for i := 0 to |pods|
      invariant AllStale(stale) == StaleWorkloads(pods[..i], rsOwners, target)
    {
      var pod := pods[i];
      assert pods[..i + 1] == pods[..i] + [pod];
      OneMorePod(pods[..i], pod, rsOwners, target);
      ghost var before := stale;
      if pod.revision == target {
        continue;
      }
      var controller := ControllingOwner(pod.owners);
      if controller.None? {
        stale := stale.(orphanPods := stale.orphanPods + [pod.name]);
      } else {
        var c := controller.value;
        if c.kind == "ReplicaSet" {
          if c.name in rsOwners {
            stale := stale.(deployments := stale.deployments + {rsOwners[c.name]});
          } else {
            stale := stale.(orphanPods := stale.orphanPods + [pod.name]);
          }
        } else if c.kind == "StatefulSet" {
          stale := stale.(statefulSets := stale.statefulSets + {c.name});
        } else if c.kind == "DaemonSet" {
          stale := stale.(daemonSets := stale.daemonSets + {c.name});
        } else {
          stale := stale.(orphanPods := stale.orphanPods + [pod.name]);
        }
      }
      OneMoreWorkload(before, stale, WorkloadOf(pod, rsOwners));
    }
    assert pods[..|pods|] == pods;
    forall sets, w | rsOwners == OwnerMap(sets)
      ensures w in AllStale(stale) <==> exists p :: p in pods && p.revision != target && Replaces(p, sets, w)
    {
      StaleAreReplaced(pods, sets, target, w);
    }
  }

  lemma StaleAreReplaced(pods: seq<Pod>, sets: seq<ReplicaSet>, target: string, w: Workload)
    ensures w in StaleWorkloads(pods, OwnerMap(sets), target) <==> exists p :: p in pods && p.revision != target && Replaces(p, sets, w)
  {
    hide OwnerMap, Replaces, WorkloadOf;
    forall p: Pod ensures Replaces(p, sets, w) <==> w == WorkloadOf(p, OwnerMap(sets)) {
      ReplacementIs(p, sets, w);
    }
  }

  lemma OneMorePod(pods: seq<Pod>, pod: Pod, rsOwners: map<string, string>, target: string)
    ensures StaleWorkloads(pods + [pod], rsOwners, target) ==
      StaleWorkloads(pods, rsOwners, target) + if pod.revision == target then {} else {WorkloadOf(pod, rsOwners)}
  {
    assert forall p :: p in pods + [pod] <==> p in pods || p == pod;
  }

  lemma OneMoreWorkload(before: Stale, after: Stale, w: Workload)
    requires match w.kind
             case OrphanPod => after == before.(orphanPods := before.orphanPods + [w.name])
             case Deployment => after == before.(deployments := before.deployments + {w.name})
             case StatefulSet => after == before.(statefulSets := before.statefulSets + {w.name})
             case DaemonSet => after == before.(daemonSets := before.daemonSets + {w.name})
    ensures AllStale(after) == AllStale(before) + {w}
  {
  }

  // ----- requests about the pods of a cluster

  /** A listing, which may fail, or an attempt to restart a workload or delete a pod. */
  datatype PodRequest =
    | PodsListed(namespace: string, pods: Option<seq<Pod>>)
    | SetsListed(namespace: string, sets: Option<seq<ReplicaSet>>)
    | Acted(namespace: string, workload: Workload, ok: bool)

  /** The workloads of a cluster. What a request sees or achieves is arbitrary; that it was made is recorded. */
  class PodApi {
    ghost var requests: seq<PodRequest>

    constructor ()
      ensures requests == []
    {
      requests := [];
    }

    method ListPods(namespace: string) returns (r: Option<seq<Pod>>)
      modifies this
      ensures requests == old(requests) + [PodsListed(namespace, r)]
    {
      r := *;
      requests := requests + [PodsListed(namespace, r)];
    }

    method ListReplicaSets(namespace: string) returns (r: Option<seq<ReplicaSet>>)
      modifies this
      ensures requests == old(requests) + [SetsListed(namespace, r)]
    {
      r := *;
      requests := requests + [SetsListed(namespace, r)];
    }

    /** Restarts a workload, or deletes a pod that no workload replaces. */
    method Act(namespace: string, w: Workload) returns (ok: bool)
      modifies this
      ensures requests == old(requests) + [Acted(namespace, w, ok)]
    {
      ok := *;
      requests := requests + [Acted(namespace, w, ok)];
    }
  }

  /** The workloads acted on with success. */
  function Succeeded(t: seq<PodRequest>): set<Workload> {
    set e | e in t && e.Acted? && e.ok :: e.workload
  }

  /** The workloads an attempt to act on has failed for. */
  function Failed(t: seq<PodRequest>): set<Workload> {
    set e | e in t && e.Acted? && !e.ok :: e.workload
  }

  lemma OutcomesAdd(a: seq<PodRequest>, b: seq<PodRequest>)
    ensures Succeeded(a + b) == Succeeded(a) + Succeeded(b) && Failed(a + b) == Failed(a) + Failed(b)
  {
    assert forall e :: e in a + b <==> e in a || e in b;
  }

  lemma InItsOutcome(t: seq<PodRequest>, e: PodRequest)
    requires e in t && e.Acted?
    ensures e.workload in if e.ok then Succeeded(t) else Failed(t)
  {
  }

  lemma OneMoreAct(t: seq<PodRequest>, namespace: string, w: Workload, ok: bool)
    ensures var more := t + [Acted(namespace, w, ok)];
            && Succeeded(more) == Succeeded(t) + (if ok then {w} else {})
            && Failed(more) == Failed(t) + (if ok then {} else {w})
  {
    OutcomesAdd(t, [Acted(namespace, w, ok)]);
    assert Acted(namespace, w, ok) in [Acted(namespace, w, ok)];
  }

  // ----- one pass over a namespace

  /** Both listings a pass starts from were shown. */
  predicate Observed(pass: seq<PodRequest>) {
    |pass| >= 2 && pass[0].PodsListed? && pass[0].pods.Some? && pass[1].SetsListed? && pass[1].sets.Some?
  }

  function StaleIn(pass: seq<PodRequest>, target: string): set<Workload>
    requires Observed(pass)
  {
    StaleWorkloads(pass[0].pods.value, OwnerMap(pass[1].sets.value), target)
  }

  /** The requests of one pass: list, and then act on exactly the workloads behind stale pods, or give up early. */
  ghost predicate IsPass(pass: seq<PodRequest>, namespace: string, target: string) {
    && (forall e :: e in pass ==> e.namespace == namespace)
    && |pass| > 0 && pass[0].PodsListed?
    && (pass[0].pods.None? ==> |pass| == 1)
    && (pass[0].pods.Some? ==> |pass| > 1 && pass[1].SetsListed? && (pass[1].sets.None? ==> |pass| == 2))
    && (Observed(pass) ==>
          && (forall e :: e in pass[2..] ==> e.Acted?)
          && Succeeded(pass[2..]) + Failed(pass[2..]) == StaleIn(pass, target))
  }

  /** Nothing failed. */
  predicate Flawless(pass: seq<PodRequest>) {
    Observed(pass) && Failed(pass[2..]) == {}
  }

  datatype RestartResult = RestartResult(namespace: string, restarted: set<Workload>, errors: set<Workload>)

  /** What a pass reports: nothing when it could not observe the namespace. */
  function Report(pass: seq<PodRequest>, namespace: string): Option<RestartResult> {
    if Observed(pass) then Some(RestartResult(namespace, Succeeded(pass[2..]), Failed(pass[2..]))) else None
  }

  method ActOnAll(api: PodApi, kind: Kind, names: seq<string>, result: RestartResult) returns (r: RestartResult, ghost t: seq<PodRequest>)
    modifies api
    ensures api.requests == old(api.requests) + t
    ensures forall e :: e in t ==> e.Acted? && e.namespace == result.namespace
    ensures Succeeded(t) + Failed(t) == OfKind(kind, Elements(names))
    ensures r == RestartResult(result.namespace, result.restarted + Succeeded(t), result.errors + Failed(t))
  {
    hide *;
    r, t := result, [];
    NothingActedOn(kind);
    for i := 0 to |names|
      invariant api.requests == old(api.requests) + t
      invariant forall e :: e in t ==> e.Acted? && e.namespace == result.namespace
      invariant Succeeded(t) + Failed(t) == OfKind(kind, Elements(names[..i]))
      invariant r == RestartResult(result.namespace, result.restarted + Succeeded(t), result.errors + Failed(t))
    {
      OneMoreName(kind, names[..i], names[i]);
      assert names[..i + 1] == names[..i] + [names[i]];
      var w := Workload(kind, names[i]);
      var ok := api.Act(result.namespace, w);
      OneMoreAct(t, result.namespace, w, ok);
      t := t + [Acted(result.namespace, w, ok)];
      if ok {
        r := r.(restarted := r.restarted + {w});
      } else {
        r := r.(errors := r.errors + {w});
      }
    }
    assert names[..|names|] == names;
  }

  lemma NothingActedOn(kind: Kind)
    ensures Succeeded([]) == Failed([]) == OfKind(kind, Elements([])) == {}
  {
  }

  lemma OneMoreName(kind: Kind, names: seq<string>, name: string)
    ensures OfKind(kind, Elements(names + [name])) == OfKind(kind, Elements(names)) + {Workload(kind, name)}
  {
  }

  /** The elements of a set in some order. */
  method InSomeOrder(names: set<string>) returns (list: seq<string>)
    ensures Elements(list) == names
  {
    list := [];
    var remaining := names;
    while remaining != {}
      invariant remaining <= names
      invariant forall n :: n in list <==> n in names && n !in remaining
    {
      var n :| n in remaining;
      list := list + [n];
      remaining := remaining - {n};
    }
  }

  method ExecuteRestart(api: PodApi, namespace: string, target: string)
    returns (result: Option<RestartResult>, failed: bool, ghost pass: seq<PodRequest>)
    modifies api
    ensures api.requests == old(api.requests) + pass && IsPass(pass, namespace, target)
    ensures result == Report(pass, namespace) && (failed <==> !Flawless(pass))
    ensures Observed(pass) ==> ReplacesStale(pass, namespace, target, !failed) && ReplacesOnlyStale(pass, target)
  {
    hide *;
    var pods := api.ListPods(namespace);
    pass := [PodsListed(namespace, pods)];
    NothingObserved(namespace, target, pods);
    if pods.None? {
      return None, true, pass;
    }
    var sets := api.ListReplicaSets(namespace);
    pass := [PodsListed(namespace, pods), SetsListed(namespace, sets)];
    if sets.None? {
      return None, true, pass;
    }
    var rsOwners := BuildReplicaSetOwnerMap(sets.value);
    var stale := IdentifyStaleWorkloads(pods.value, rsOwners, target);
    var r;
    ghost var acts;
    r, acts := ActOnStale(api, namespace, stale);
    PassIs(namespace, target, pods.value, sets.value, acts);
    pass := pass + acts;
    if Observed(pass) {
      PassReplacesStale(pass, namespace, target);
    }
    result := Some(r);
    failed := r.errors != {};
  }

  /** Deletes the pods nothing replaces, then restarts the workloads kind by kind. */
  method ActOnStale(api: PodApi, namespace: string, stale: Stale) returns (r: RestartResult, ghost acts: seq<PodRequest>)
    modifies api
    ensures api.requests == old(api.requests) + acts
    ensures forall e :: e in acts ==> e.Acted? && e.namespace == namespace
    ensures Succeeded(acts) + Failed(acts) == AllStale(stale)
    ensures r == RestartResult(namespace, Succeeded(acts), Failed(acts))
  {
    hide *;
    r := RestartResult(namespace, {}, {});
    ghost var orphans, deployments, statefulSets, daemonSets;
    r, orphans := ActOnAll(api, OrphanPod, stale.orphanPods, r);
    assert {} + Succeeded(orphans) == Succeeded(orphans) && {} + Failed(orphans) == Failed(orphans);
    var names := InSomeOrder(stale.deployments);
    r, deployments := ActOnAll(api, Deployment, names, r);
    names := InSomeOrder(stale.statefulSets);
    r, statefulSets := ActOnAll(api, StatefulSet, names, r);
    names := InSomeOrder(stale.daemonSets);
    r, daemonSets := ActOnAll(api, DaemonSet, names, r);
    acts := orphans + deployments + statefulSets + daemonSets;
    InARow(old(api.requests), orphans, deployments, statefulSets, daemonSets);
    FoundIn(orphans, deployments, statefulSets, daemonSets);
    ActsAreAllStale(stale, orphans, deployments, statefulSets, daemonSets);
  }

  lemma InARow(q: seq<PodRequest>, a: seq<PodRequest>, b: seq<PodRequest>, c: seq<PodRequest>, d: seq<PodRequest>)
    ensures q + a + b + c + d == q + (a + b + c + d)
  {
  }

  lemma FoundIn(a: seq<PodRequest>, b: seq<PodRequest>, c: seq<PodRequest>, d: seq<PodRequest>)
    ensures forall e :: e in a + b + c + d <==> e in a || e in b || e in c || e in d
  {
  }

  /** A listing that fails ends the pass. */
  lemma NothingObserved(namespace: string, target: string, pods: Option<seq<Pod>>)
    ensures var pass := [PodsListed(namespace, None)];
            IsPass(pass, namespace, target) && !Observed(pass) && !Flawless(pass) && Report(pass, namespace).None?
    ensures pods.Some? ==>
      var pass := [PodsListed(namespace, pods), SetsListed(namespace, None)];
      IsPass(pass, namespace, target) && !Observed(pass) && !Flawless(pass) && Report(pass, namespace).None?
  {
  }

  lemma ActsAreAllStale(stale: Stale, orphans: seq<PodRequest>, deployments: seq<PodRequest>, statefulSets: seq<PodRequest>, daemonSets: seq<PodRequest>)
    requires Succeeded(orphans) + Failed(orphans) == OfKind(OrphanPod, Elements(stale.orphanPods))
    requires Succeeded(deployments) + Failed(deployments) == OfKind(Deployment, stale.deployments)
    requires Succeeded(statefulSets) + Failed(statefulSets) == OfKind(StatefulSet, stale.statefulSets)
    requires Succeeded(daemonSets) + Failed(daemonSets) == OfKind(DaemonSet, stale.daemonSets)
    ensures var acts := orphans + deployments + statefulSets + daemonSets;
            && Succeeded(acts) == Succeeded(orphans) + Succeeded(deployments) + Succeeded(statefulSets) + Succeeded(daemonSets)
            && Failed(acts) == Failed(orphans) + Failed(deployments) + Failed(statefulSets) + Failed(daemonSets)
            && Succeeded(acts) + Failed(acts) == AllStale(stale)
  {
    hide Succeeded, Failed, OfKind, Elements;
    OutcomesAdd(orphans, deployments);
    OutcomesAdd(orphans + deployments, statefulSets);
    OutcomesAdd(orphans + deployments + statefulSets, daemonSets);
  }

  lemma PassIs(namespace: string, target: string, pods: seq<Pod>, sets: seq<ReplicaSet>, acts: seq<PodRequest>)
    requires forall e :: e in acts ==> e.Acted? && e.namespace == namespace
    requires Succeeded(acts) + Failed(acts) == StaleWorkloads(pods, OwnerMap(sets), target)
    ensures var pass := [PodsListed(namespace, Some(pods)), SetsListed(namespace, Some(sets))] + acts;
            && IsPass(pass, namespace, target) && (Flawless(pass) <==> Failed(acts) == {})
            && Report(pass, namespace) == Some(RestartResult(namespace, Succeeded(acts), Failed(acts)))
  {
    hide Succeeded, Failed, StaleWorkloads, OwnerMap;
    var pass := [PodsListed(namespace, Some(pods)), SetsListed(namespace, Some(sets))] + acts;
    assert pass[2..] == acts;
  }

  // ----- all namespaces

  function Flatten(passes: seq<seq<PodRequest>>): seq<PodRequest> {
    if passes == [] then [] else Flatten(passes[..|passes| - 1]) + passes[|passes| - 1]
  }

  /** The reports of all passes that have one, in the order of the namespaces. */
  function Reports(namespaces: seq<string>, passes: seq<seq<PodRequest>>): seq<RestartResult>
    requires |passes| == |namespaces|
  {
    if passes == [] then []
    else
      var n := |passes| - 1;
      var last := Report(passes[n], namespaces[n]);
      Reports(namespaces[..n], passes[..n]) + if last.Some? then [last.value] else []
  }

  /** One pass over each namespace. */
  ghost predicate ArePasses(passes: seq<seq<PodRequest>>, namespaces: seq<string>, target: string) {
    |passes| == |namespaces| && forall i :: 0 <= i < |passes| ==> IsPass(passes[i], namespaces[i], target)
  }

  predicate AllFlawless(passes: seq<seq<PodRequest>>) {
    forall i :: 0 <= i < |passes| ==> Flawless(passes[i])
  }

  /** What happened in one namespace. */
  datatype Outcome = Outcome(result: Option<RestartResult>, failed: bool)

  ghost predicate AreOutcomes(outcomes: seq<Outcome>, passes: seq<seq<PodRequest>>, namespaces: seq<string>)
    requires |passes| == |namespaces|
  {
    |outcomes| == |passes| &&
    forall i :: 0 <= i < |passes| ==> outcomes[i] == Outcome(Report(passes[i], namespaces[i]), !Flawless(passes[i]))
  }

  /** Restarts namespace by namespace; a failure in one does not stop the others. */
  method ExecuteRestartAll(api: PodApi, namespaces: seq<string>, target: string)
    returns (results: seq<RestartResult>, failed: bool, ghost passes: seq<seq<PodRequest>>)
    modifies api
    ensures api.requests == old(api.requests) + Flatten(passes) && ArePasses(passes, namespaces, target)
    ensures results == Reports(namespaces, passes) && (failed <==> !AllFlawless(passes))
  {
    hide *;
    var outcomes := new Outcome[|namespaces|](i => Outcome(None, false));
    passes := [];
    NoPasses(target);
    for i := 0 to |namespaces|
      invariant |passes| == i && api.requests == old(api.requests) + Flatten(passes)
      invariant ArePasses(passes, namespaces[..i], target) && AreOutcomes(outcomes[..i], passes, namespaces[..i])
    {
      var result, bad;
      ghost var pass;
      result, bad, pass := ExecuteRestart(api, namespaces[i], target);
      OnePassMore(passes, pass, namespaces[..i], namespaces[i], target, outcomes[..i]);
      passes := passes + [pass];
      outcomes[i] := Outcome(result, bad);
      assert outcomes[..i + 1] == outcomes[..i] + [outcomes[i]] && namespaces[..i + 1] == namespaces[..i] + [namespaces[i]];
    }
    assert namespaces[..|namespaces|] == namespaces && outcomes[..|namespaces|] == outcomes[..];
    ghost var all, made := outcomes[..], api.requests;
    results, failed := [], false;
    for i := 0 to outcomes.Length
      invariant outcomes[..] == all && api.requests == made
      invariant results == Reports(namespaces[..i], passes[..i]) && (failed <==> !AllFlawless(passes[..i]))
    {
      OneReportMore(passes, namespaces, all, i);
      assert outcomes[i] == all[i];
      if outcomes[i].failed {
        failed := true;
      }
      if outcomes[i].result.Some? {
        results := results + [outcomes[i].result.value];
      }
    }
    assert passes[..|passes|] == passes;
  }

  lemma NoPasses(target: string)
    ensures Flatten([]) == [] && ArePasses([], [], target) && AreOutcomes([], [], []) && Reports([], []) == [] && AllFlawless([])
  {
  }

  lemma OnePassMore(passes: seq<seq<PodRequest>>, pass: seq<PodRequest>, namespaces: seq<string>, namespace: string, target: string,
                    outcomes: seq<Outcome>)
    requires ArePasses(passes, namespaces, target) && IsPass(pass, namespace, target) && AreOutcomes(outcomes, passes, namespaces)
    ensures Flatten(passes + [pass]) == Flatten(passes) + pass
    ensures ArePasses(passes + [pass], namespaces + [namespace], target)
    ensures AreOutcomes(outcomes + [Outcome(Report(pass, namespace), !Flawless(pass))], passes + [pass], namespaces + [namespace])
  {
    hide IsPass, Report, Flawless;
    assert (passes + [pass])[..|passes|] == passes;
  }

  lemma OneReportMore(passes: seq<seq<PodRequest>>, namespaces: seq<string>, outcomes: seq<Outcome>, i: nat)
    requires i < |passes| == |namespaces| && AreOutcomes(outcomes, passes, namespaces)
    ensures Reports(namespaces[..i + 1], passes[..i + 1]) ==
      Reports(namespaces[..i], passes[..i]) + if outcomes[i].result.Some? then [outcomes[i].result.value] else []
    ensures AllFlawless(passes[..i + 1]) <==> AllFlawless(passes[..i]) && !outcomes[i].failed
  {
    hide Report, Flawless;
    assert passes[..i + 1][..i] == passes[..i] && namespaces[..i + 1][..i] == namespaces[..i];
    assert passes[..i + 1] == passes[..i] + [passes[i]];
  }

  // ----- what a pass did, by the owners of the pods and sets it was shown

  /** Every stale pod shown had what replaces it acted on, with success if `sure`. */
  ghost predicate ReplacesStale(pass: seq<PodRequest>, namespace: string, target: string, sure: bool)
    requires Observed(pass)
  {
    forall p :: p in pass[0].pods.value && p.revision != target ==>
      exists w, ok :: Replaces(p, pass[1].sets.value, w) && (sure ==> ok) && Acted(namespace, w, ok) in pass
  }

  /** Everything acted on replaces a stale pod that was shown. */
  ghost predicate ReplacesOnlyStale(pass: seq<PodRequest>, target: string)
    requires Observed(pass)
  {
    forall e :: e in pass && e.Acted? ==>
      exists p :: p in pass[0].pods.value && p.revision != target && Replaces(p, pass[1].sets.value, e.workload)
  }

  /** One thing replaces a pod. */
  lemma ReplacementIsUnique(pod: Pod, sets: seq<ReplicaSet>, w: Workload, w': Workload)
    requires Replaces(pod, sets, w) && Replaces(pod, sets, w')
    ensures w == w'
  {
    ReplacementIs(pod, sets, w);
    ReplacementIs(pod, sets, w');
    hide *;
  }

  /** A pass that saw its namespace acted on what replaces the stale pods, and on nothing else. */
  lemma PassReplacesStale(pass: seq<PodRequest>, namespace: string, target: string)
    requires IsPass(pass, namespace, target) && Observed(pass)
    ensures ReplacesStale(pass, namespace, target, Flawless(pass)) && ReplacesOnlyStale(pass, target)
  {
    hide OwnerMap, WorkloadOf, Replaces;
    var sets := pass[1].sets.value;
    forall p | p in pass[0].pods.value && p.revision != target
      ensures exists w, ok :: Replaces(p, sets, w) && (Flawless(pass) ==> ok) && Acted(namespace, w, ok) in pass
    {
      var w := WorkloadOf(p, OwnerMap(sets));
      ReplacementIs(p, sets, w);
      assert w in StaleIn(pass, target);
      var e :| e in pass[2..] && e.Acted? && e.workload == w;
      assert e in pass && e == Acted(namespace, w, e.ok);
      InItsOutcome(pass[2..], e);
    }
    forall e | e in pass && e.Acted?
      ensures exists p :: p in pass[0].pods.value && p.revision != target && Replaces(p, sets, e.workload)
    {
      assert e in pass[2..];
      InItsOutcome(pass[2..], e);
      var p :| p in pass[0].pods.value && p.revision != target && WorkloadOf(p, OwnerMap(sets)) == e.workload;
      ReplacementIs(p, sets, e.workload);
    }
  }

  /** Passes without an error saw every namespace they were made for, and everything they acted on was restarted. */
  lemma ErrorFreePassCoversAll(passes: seq<seq<PodRequest>>, namespaces: seq<string>, target: string, i: nat)
    requires ArePasses(passes, namespaces, target) && AllFlawless(passes) && i < |namespaces|
    ensures Observed(passes[i]) && ReplacesStale(passes[i], namespaces[i], target, true) && ReplacesOnlyStale(passes[i], target)
    ensures forall e :: e in passes[i] && e.Acted? ==> e.ok
  {
    PassReplacesStale(passes[i], namespaces[i], target);
    FlawlessActsSucceed(passes[i], namespaces[i], target);
    hide ReplacesStale, ReplacesOnlyStale;
  }

  lemma FlawlessActsSucceed(pass: seq<PodRequest>, namespace: string, target: string)
    requires IsPass(pass, namespace, target) && Flawless(pass)
    ensures forall e :: e in pass && e.Acted? ==> e.ok
  {
    hide OwnerMap, WorkloadOf;
    forall e | e in pass && e.Acted? ensures e.ok {
      assert e in pass[2..];
      InItsOutcome(pass[2..], e);
    }
  }

  /** The pods that still run a sidecar of a revision about to be retired. */
  function Orphans(pods: seq<Pod>, retiring: set<string>): set<Pod> {
    set p | p in pods && p.revision in retiring
  }
}
