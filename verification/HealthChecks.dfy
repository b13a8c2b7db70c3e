/** What the health check, the orphan check and the final verification conclude from what they observe. */
module HealthChecks {
  import opened Wrappers
  import opened NamespaceLabels
  import opened TagWebhook
  import opened WorkloadRestarts

  datatype ControlPlane = ControlPlane(revision: string, replicas: int, available: int)
  {
    predicate Ready() { available >= replicas }
  }

  datatype Gateway = Gateway(externalIP: string, healthyPods: nat)

  datatype HealthObservation = HealthObservation(
    systemExists: bool, ingressExists: bool, planes: seq<ControlPlane>, gateways: seq<Gateway>)

  datatype CheckResult = CheckResult(passed: bool, issues: nat, cpUnhealthy: bool, gwUnhealthy: bool)
  {
    function AddIssue(): CheckResult { this.(passed := false, issues := issues + 1) }
  }

  predicate AllReady(planes: seq<ControlPlane>) {
    forall p :: p in planes ==> p.Ready()
  }

  predicate Serves(g: Gateway) { g.externalIP != "" && g.healthyPods > 0 }

  predicate PlanesHealthy(planes: seq<ControlPlane>) { planes != [] && AllReady(planes) }

  predicate GatewaysHealthy(gateways: seq<Gateway>) {
    gateways != [] && forall g :: g in gateways ==> Serves(g)
  }

  predicate Healthy(o: HealthObservation) {
    o.systemExists && o.ingressExists && PlanesHealthy(o.planes) && GatewaysHealthy(o.gateways)
  }

  method HealthCheck(o: HealthObservation) returns (r: CheckResult)
    ensures r.passed <==> Healthy(o)
    ensures r.passed <==> r.issues == 0
    ensures o.systemExists && o.ingressExists ==>
      (r.cpUnhealthy <==> !PlanesHealthy(o.planes)) && (r.gwUnhealthy <==> !GatewaysHealthy(o.gateways))
    ensures !(o.systemExists && o.ingressExists) ==> !r.cpUnhealthy && !r.gwUnhealthy
  {
    r := CheckResult(true, 0, false, false);
    if !o.systemExists {
      r := r.AddIssue();
    }
    if !o.ingressExists {
      r := r.AddIssue();
    }
    if !r.passed {
      return;
    }
    if |o.planes| == 0 {
      r := r.AddIssue().(cpUnhealthy := true);
    }
    for i := 0 to |o.planes|
      invariant r.cpUnhealthy <==> o.planes == [] || exists k :: 0 <= k < i && !o.planes[k].Ready()
      invariant r.passed == !r.cpUnhealthy && (r.passed <==> r.issues == 0) && !r.gwUnhealthy
    {
      if !o.planes[i].Ready() {
        r := r.AddIssue().(cpUnhealthy := true);
      }
    }
    if |o.gateways| == 0 {
      r := r.AddIssue().(gwUnhealthy := true);
    }
    for i := 0 to |o.gateways|
      invariant r.cpUnhealthy <==> !PlanesHealthy(o.planes)
      invariant r.gwUnhealthy <==> o.gateways == [] || exists k :: 0 <= k < i && !Serves(o.gateways[k])
      invariant r.passed == (!r.cpUnhealthy && !r.gwUnhealthy) && (r.passed <==> r.issues == 0)
    {
      if o.gateways[i].externalIP == "" {
        r := r.AddIssue().(gwUnhealthy := true);
      }
      if o.gateways[i].healthyPods == 0 {
        r := r.AddIssue().(gwUnhealthy := true);
      }
    }
  }

  function Retiring(revisions: seq<string>, target: string): set<string> {
    set r | r in revisions && r != target
  }

  /** A pod that still runs a sidecar of a retiring revision, and its namespace. */
  datatype Orphan = Orphan(namespace: string, pod: Pod)

  ghost predicate IsOrphan(o: Orphan, names: seq<string>, pods: seq<seq<Pod>>, retiring: set<string>) {
    exists i :: 0 <= i < |names| && i < |pods| && o.namespace == names[i] && o.pod in Orphans(pods[i], retiring)
  }

  /** The requests that show the pods of namespaces, one by one. */
  function Listings(names: seq<string>, pods: seq<seq<Pod>>): seq<PodRequest>
    requires |pods| <= |names|
  {
    seq(|pods|, i requires 0 <= i < |pods| => PodsListed(names[i], Some(pods[i])))
  }

  /** The pods of all listed namespaces that run a sidecar of a retiring revision; without one to retire nothing is listed. */
  method CheckOrphanedWorkloads(kube: KubeClient, api: PodApi, target: string, revisions: seq<string>)
    returns (orphaned: Option<seq<Orphan>>, ghost pods: seq<seq<Pod>>)
    modifies api, kube`cached, kube`cacheValid
    ensures Retiring(revisions, target) == {} ==> orphaned == Some([]) && api.requests == old(api.requests)
    ensures Retiring(revisions, target) != {} && orphaned.Some? ==>
      kube.cacheValid && |pods| == |kube.cached| && api.requests == old(api.requests) + Listings(Names(kube.cached), pods)
    ensures Retiring(revisions, target) != {} && orphaned.Some? ==>
      forall o :: o in orphaned.value <==> IsOrphan(o, Names(kube.cached), pods, Retiring(revisions, target))
    ensures old(kube.Coherent()) ==> kube.Coherent()
    ensures old(kube.cacheValid) ==> kube.cacheValid && kube.cached == old(kube.cached)
  {
    var retiring := {};
    for i := 0 to |revisions|
      invariant retiring == Retiring(revisions[..i], target)
    {
      assert revisions[..i + 1] == revisions[..i] + [revisions[i]];
      if revisions[i] != target {
        retiring := retiring + {revisions[i]};
      }
    }
    assert revisions[..|revisions|] == revisions;
    pods := [];
    if retiring == {} {
      return Some([]), pods;
    }
    var namespaces := kube.GetMeshNamespaces();
    if namespaces.None? {
      return None, pods;
    }
    orphaned, pods := CheckNamespaces(api, Names(namespaces.value), retiring);
  }

  method CheckNamespaces(api: PodApi, names: seq<string>, retiring: set<string>)
    returns (orphaned: Option<seq<Orphan>>, ghost pods: seq<seq<Pod>>)
    modifies api
    ensures orphaned.Some? ==> |pods| == |names| && api.requests == old(api.requests) + Listings(names, pods)
    ensures orphaned.Some? ==> forall o :: o in orphaned.value <==> IsOrphan(o, names, pods, retiring)
  {
    hide Orphans;
    pods := [];
    var found := [];
    for i := 0 to |names|
      invariant |pods| == i && api.requests == old(api.requests) + Listings(names, pods)
      invariant forall o :: o in found <==> IsOrphan(o, names, pods, retiring)
    {
      var seen := api.ListPods(names[i]);
      if seen.None? {
        return None, pods;
      }
      var more := OrphansOf(names[i], seen.value, retiring);
      OneMoreNamespace(names, pods, seen.value, retiring, found, more);
      pods := pods + [seen.value];
      found := found + more;
    }
    orphaned := Some(found);
  }

  method OrphansOf(namespace: string, pods: seq<Pod>, retiring: set<string>) returns (found: seq<Orphan>)
    ensures forall o :: o in found <==> o.namespace == namespace && o.pod in Orphans(pods, retiring)
  {
    found := [];
    for j := 0 to |pods|
      invariant forall o :: o in found <==> o.namespace == namespace && o.pod in Orphans(pods[..j], retiring)
    {
      assert pods[..j + 1] == pods[..j] + [pods[j]];
      if pods[j].revision in retiring {
        found := found + [Orphan(namespace, pods[j])];
      }
    }
    assert pods[..|pods|] == pods;
  }

  lemma OneMoreNamespace(names: seq<string>, pods: seq<seq<Pod>>, seen: seq<Pod>, retiring: set<string>,
                         found: seq<Orphan>, more: seq<Orphan>)
    requires |pods| < |names|
    requires forall o :: o in found <==> IsOrphan(o, names, pods, retiring)
    requires forall o :: o in more <==> o.namespace == names[|pods|] && o.pod in Orphans(seen, retiring)
    ensures forall o :: o in found + more <==> IsOrphan(o, names, pods + [seen], retiring)
    ensures Listings(names, pods + [seen]) == Listings(names, pods) + [PodsListed(names[|pods|], Some(seen))]
  {
    hide Orphans;
    var all := pods + [seen];
    assert all[|pods|] == seen && forall i :: 0 <= i < |pods| ==> all[i] == pods[i];
  }

  ghost predicate Among(p: Pod, pods: seq<seq<Pod>>) {
    exists i :: 0 <= i < |pods| && p in pods[i]
  }

  /** All pods of the namespaces, or nothing when a listing fails. */
  method ListAllPods(api: PodApi, names: seq<string>) returns (all: Option<seq<Pod>>, ghost pods: seq<seq<Pod>>)
    modifies api
    ensures all.Some? ==> |pods| == |names| && api.requests == old(api.requests) + Listings(names, pods)
    ensures all.Some? ==> forall p :: p in all.value <==> Among(p, pods)
  {
    pods := [];
    var found := [];
    for i := 0 to |names|
      invariant |pods| == i && api.requests == old(api.requests) + Listings(names, pods)
      invariant forall p :: p in found <==> Among(p, pods)
    {
      var seen := api.ListPods(names[i]);
      if seen.None? {
        return None, pods;
      }
      OneMoreListing(names, pods, seen.value);
      pods := pods + [seen.value];
      found := found + seen.value;
    }
    all := Some(found);
  }

  lemma OneMoreListing(names: seq<string>, pods: seq<seq<Pod>>, seen: seq<Pod>)
    requires |pods| < |names|
    ensures Listings(names, pods + [seen]) == Listings(names, pods) + [PodsListed(names[|pods|], Some(seen))]
    ensures forall p :: Among(p, pods + [seen]) <==> Among(p, pods) || p in seen
  {
    var all := pods + [seen];
    assert all[|pods|] == seen && forall k :: 0 <= k < |pods| ==> all[k] == pods[k];
  }

  datatype Verification = Verification(
    configMapExists: bool, namespaces: seq<MeshNamespace>, hooks: map<string, Webhook>, pods: seq<Pod>)

  /** One revision is in charge: its configuration, labels and tag lead to it and every sidecar is of it. */
  ghost predicate InCharge(v: Verification, target: string, tag: string) {
    && v.configMapExists
    && (forall n :: n in v.namespaces ==> n.rev == target || (tag != "" && n.rev == tag))
    && (tag != "" ==> TagVerified(v.hooks, tag, target))
    && (forall p :: p in v.pods ==> p.revision == target)
  }

  method VerifyUpgrade(v: Verification, target: string, tag: string) returns (r: CheckResult)
    ensures r.passed <==> InCharge(v, target, tag)
  {
    r := CheckResult(true, 0, false, false);
    if !v.configMapExists {
      r := r.AddIssue();
    }
    for i := 0 to |v.namespaces|
      invariant r.passed <==>
        (v.configMapExists && forall k :: 0 <= k < i ==> v.namespaces[k].rev == target || (tag != "" && v.namespaces[k].rev == tag))
    {
      if v.namespaces[i].rev != target && !(tag != "" && v.namespaces[i].rev == tag) {
        r := r.AddIssue();
      }
    }
    ghost var labelled := r.passed;
    if tag != "" {
      if TagWebhookName(tag) !in v.hooks {
        r := r.AddIssue();
      } else {
        var entries := v.hooks[TagWebhookName(tag)].entries;
        for i := 0 to |entries|
          invariant r.passed <==>
            (labelled && forall k :: 0 <= k < i ==> entries[k].service.Some? && entries[k].service.value.name == IstiodName(target))
        {
          if entries[i].service.None? {
            r := r.AddIssue();
          } else if entries[i].service.value.name != IstiodName(target) {
            r := r.AddIssue();
          }
        }
      }
    }
    ghost var tagged := r.passed;
    for i := 0 to |v.pods|
      invariant r.passed <==> tagged && forall k :: 0 <= k < i ==> v.pods[k].revision == target
    {
      if v.pods[i].revision != target {
        r := r.AddIssue();
      }
    }
  }
}
