/** The steps of an upgrade run, every request of which may fail before or after it has taken effect. */
module UpgradeRuns {
  import opened Wrappers
  import opened Strings
  import opened Revisions
  import opened UpgradeDecision
  import opened NamespaceLabels
  import opened TagWebhook
  import opened WorkloadRestarts
  import opened HealthChecks

  datatype StopAfter = Never | CanaryStart | OrphanCheck

  datatype Options = Options(
    versions: string, tag: string, ingressIP: string, regionRG: string, dryRun: bool, stopAfter: StopAfter, maxOrphanRetries: int)

  /**
    * What a run observed and did, in order. ARM requests carry the revisions installed when they were sent, a completion
    * also the mesh namespaces of the cluster; a relabelling that fails carries the labels it leaves behind. Restarts and
    * orphan checks carry the namespaces they were made for, with every request or every pod shown in each.
    */
  datatype Event =
    | ControlPlanesSeen(planes: seq<ControlPlane>)
    | Routed(revision: string)
    | RelabelStopped(revision: string, labels: map<string, string>)
    | FlipStopped(revision: string)
    | Restarted(revision: string, names: seq<string>, passes: seq<seq<PodRequest>>, ok: bool)
    | RolledOut(ok: bool)
    | HealthSeen(health: HealthObservation)
    | OrphansSeen(retiring: set<string>, names: seq<string>, pods: seq<seq<Pod>>)
    | RollbackStarted(revision: string)
    | MeshEnabled(before: seq<string>, revision: string)
    | CanaryStarted(before: seq<string>, revision: string)
    | CanaryCompleted(before: seq<string>, revision: string, mesh: set<string>)

  /** What the annotations of the gateway's load balancer point it to. */
  datatype Pin = Pin(resourceGroup: string, ip: string)

  /** How far a migration of workloads got. */
  datatype Migration = Moved | RoutingFailed | RestartFailed | RolloutFailed

  datatype Failure =
    | BadTarget | StateUnknown | EnableFailed | StartFailed | NoOldRevision
    | ConfigMapFailed | TagUnsafe | ControlPlaneFailed | IngressFailed | MigrationFailed(migration: Migration)
    | HealthFailed | OrphansRemain | CompletionFailed | VerificationFailed

  /** The failures of the steps between the safety check and the point of no return. */
  predicate Recoverable(f: Failure) {
    f.ControlPlaneFailed? || f.IngressFailed? || f.MigrationFailed? || f.HealthFailed? || f.OrphansRemain?
  }

  /** Neither a request to ARM nor a rollback, and no routing to another revision. */
  predicate Quiet(e: Event, revision: string) {
    match e
    case Routed(r) => r == revision
    case RelabelStopped(r, _) => r == revision
    case FlipStopped(r) => r == revision
    case Restarted(r, _, _, _) => r == revision
    case RollbackStarted(_) => false
    case MeshEnabled(_, _) => false
    case CanaryStarted(_, _) => false
    case CanaryCompleted(_, _, _) => false
    case _ => true
  }

  ghost predicate AllQuiet(t: seq<Event>, revision: string) {
    forall e :: e in t ==> Quiet(e, revision)
  }

  ghost predicate ControlPlaneReady(e: Event, target: string) {
    e.ControlPlanesSeen? && AllReady(e.planes) && exists p :: p in e.planes && p.revision == target
  }

  /** An orphan check that looked into every one of the namespaces; without a revision to retire there is nothing to look for. */
  ghost predicate IsCheck(e: Event, retiring: set<string>, names: seq<string>) {
    e.OrphansSeen? && e.retiring == retiring && (retiring == {} || (e.names == names && |e.pods| == |names|))
  }

  /** Every one of the namespaces was looked into, and no pod in any of them runs a retiring sidecar. */
  ghost predicate NoOrphans(e: Event, retiring: set<string>, names: seq<string>) {
    IsCheck(e, retiring, names) && forall i :: 0 <= i < |e.pods| ==> Orphans(e.pods[i], retiring) == {}
  }

  /** One pass over each of the namespaces; it succeeds exactly when nothing in it failed. */
  ghost predicate IsRestart(e: Event, target: string, names: seq<string>) {
    e.Restarted? && e.revision == target && e.names == names && ArePasses(e.passes, names, target) && (e.ok <==> AllFlawless(e.passes))
  }

  /** Routed, restarted without an error in every one of the namespaces, and rolled out. */
  ghost predicate IsMove(t: seq<Event>, target: string, names: seq<string>) {
    |t| == 3 && t[0] == Routed(target) && IsRestart(t[1], target, names) && t[1].ok && t[2] == RolledOut(true)
  }

  /**
    * Every orphan check looks into all of the namespaces. After one that finds orphans comes a pass over all of the
    * namespaces, and anything after that only when the pass had no error.
    */
  ghost predicate Guarded(t: seq<Event>, target: string, retiring: set<string>, names: seq<string>) {
    forall i :: 0 <= i < |t| && t[i].OrphansSeen? ==> GuardedAt(t, i, target, retiring, names)
  }

  ghost predicate GuardedAt(t: seq<Event>, i: nat, target: string, retiring: set<string>, names: seq<string>)
    requires i < |t|
  {
    && IsCheck(t[i], retiring, names)
    && (i + 1 < |t| ==> !NoOrphans(t[i], retiring, names) && IsRestart(t[i + 1], target, names))
    && (i + 2 < |t| ==> t[i + 1].ok)
  }

  /** The last check found nothing, or it was the last one that the retries allow. */
  ghost predicate GuardEnds(guard: seq<Event>, retiring: set<string>, names: seq<string>, retries: Option<int>) {
    && guard != [] && IsCheck(guard[|guard| - 1], retiring, names)
    && (NoOrphans(guard[|guard| - 1], retiring, names) || (retries.Some? && CountChecks(guard) == Retries(retries.value) + 1))
  }

  /**
    * All that has to precede a completion, in order, with nothing undone in between: ready control planes, the move, a
    * healthy mesh and the orphan guard. With `retries` the guard may also end because they are used up.
    */
  ghost predicate Cleared(t: seq<Event>, target: string, previous: seq<string>, names: seq<string>, retries: Option<int>) {
    exists a: seq<Event>, ready, b: seq<Event>, move: seq<Event>, health, guard: seq<Event> ::
      && t == a + [ready] + b + move + [health] + guard
      && ControlPlaneReady(ready, target)
      && IsMove(move, target, names)
      && health.HealthSeen? && Healthy(health.health)
      && GuardEnds(guard, Retiring(previous, target), names, retries)
      && Guarded(guard, target, Retiring(previous, target), names)
      && AllQuiet(t, target)
  }

  /** What has to precede the completion of the target: no orphan is left. */
  ghost predicate Prepared(t: seq<Event>, target: string, previous: seq<string>, names: seq<string>) {
    Cleared(t, target, previous, names, None)
  }

  function CountChecks(t: seq<Event>): nat {
    if t == [] then 0 else (if t[0].OrphansSeen? then 1 else 0) + CountChecks(t[1..])
  }

  function CountRestarts(t: seq<Event>): nat {
    if t == [] then 0 else (if t[0].Restarted? then 1 else 0) + CountRestarts(t[1..])
  }

  lemma {:induction false} CountsAdd(a: seq<Event>, b: seq<Event>)
    ensures CountChecks(a + b) == CountChecks(a) + CountChecks(b)
    ensures CountRestarts(a + b) == CountRestarts(a) + CountRestarts(b)
  {
    if a == [] {
      assert a + b == b;
    } else {
      assert (a + b)[1..] == a[1..] + b;
      CountsAdd(a[1..], b);
    }
  }

  lemma CountOne(e: Event)
    ensures CountChecks([e]) == (if e.OrphansSeen? then 1 else 0) && CountRestarts([e]) == (if e.Restarted? then 1 else 0)
  {
    assert [e][1..] == [];
  }

  function Retries(max: int): nat { if max < 0 then 0 else max }

  /** The cluster as one operator sees and changes it. */
  class Operator {
    const kube: KubeClient
    const api: WebhookApi
    const workloads: PodApi
    /** The installed revisions, as ARM lists them. */
    var revisions: seq<string>
    /** The revisions that have a config map. */
    var configMaps: set<string>
    /** What the gateway is pinned to, if it has a load balancer. */
    var gateway: Option<Pin>
    ghost var log: seq<Event>

    constructor (kube: KubeClient, api: WebhookApi, workloads: PodApi, revisions: seq<string>, configMaps: set<string>, gateway: Option<Pin>)
      ensures this.kube == kube && this.api == api && this.workloads == workloads && this.revisions == revisions && log == []
      ensures this.configMaps == configMaps && this.gateway == gateway
    {
      this.kube, this.api, this.workloads, this.revisions, log := kube, api, workloads, revisions, [];
      this.configMaps, this.gateway := configMaps, gateway;
    }

    /** Both or none of the settings are there, and a gateway with a load balancer is pinned to them. */
    ghost predicate Pinned(opts: Options)
      reads `gateway
    {
      if opts.ingressIP == "" || opts.regionRG == "" then opts.ingressIP == opts.regionRG
      else gateway.Some? ==> gateway.value == Pin(opts.regionRG, opts.ingressIP)
    }

    /** The latest requests listed pods of every namespace, all of the revision, and labels, tag and config map are its too. */
    ghost predicate Verified(tag: string, revision: string)
      reads this, kube, api, workloads
    {
      && kube.cacheValid && revision in configMaps && (tag != "" ==> TagVerified(api.hooks, tag, revision))
      && (forall n :: n in kube.cached ==> n.rev == revision || (tag != "" && n.rev == tag))
      && exists before: seq<PodRequest>, pods: seq<seq<Pod>> ::
           && |pods| == |kube.cached| && workloads.requests == before + Listings(Names(kube.cached), pods)
           && forall i, p :: 0 <= i < |pods| && p in pods[i] ==> p.revision == revision
    }

    /** New pods get the sidecar of the revision: the tag, or without a tag every namespace label, leads to it. */
    ghost predicate Leads(tag: string, revision: string)
      reads kube, api
    {
      if tag != "" then TagVerified(api.hooks, tag, revision) else AllLabelled(kube.labels, revision)
    }

    lemma LeadsIs(tag: string, revision: string)
      ensures Leads(tag, revision) <==> if tag != "" then TagVerified(api.hooks, tag, revision) else AllLabelled(kube.labels, revision)
    {
    }

    // ----- requests to ARM

    method EnableMesh(revision: string) returns (ok: bool)
      modifies `revisions, `log
      ensures log == old(log) + [MeshEnabled(old(revisions), revision)]
      ensures revisions == [revision] || (!ok && revisions == old(revisions))
    {
      log := log + [MeshEnabled(revisions, revision)];
      var effect: bool := *;
      ok := *;
      ok := ok && effect;
      if effect {
        revisions := [revision];
      }
    }

    method StartCanaryUpgrade(revision: string) returns (ok: bool)
      modifies `revisions, `log
      ensures log == old(log) + [CanaryStarted(old(revisions), revision)]
      ensures revisions == old(revisions) || (revision !in old(revisions) && revisions == old(revisions) + [revision])
      ensures ok ==> revisions == old(revisions) + [revision] && revision !in old(revisions)
    {
      log := log + [CanaryStarted(revisions, revision)];
      if revision in revisions {
        return false;
      }
      var effect: bool := *;
      ok := *;
      ok := ok && effect;
      if effect {
        revisions := revisions + [revision];
      }
    }

    method CompleteCanaryUpgrade(keep: string) returns (ok: bool)
      modifies `revisions, `log
      ensures log == old(log) + [CanaryCompleted(old(revisions), keep, kube.labels.Keys)]
      ensures revisions == [keep] || (!ok && revisions == old(revisions))
    {
      log := log + [CanaryCompleted(revisions, keep, kube.labels.Keys)];
      var effect: bool := *;
      ok := *;
      ok := ok && effect;
      if effect {
        revisions := [keep];
      }
    }

    // ----- steps inside the cluster

    /** Any request whose effect is not part of the model. */
    method Request() returns (ok: bool)
    {
      ok := *;
    }

    method EnsureTag(tag: string, revision: string) returns (ok: bool)
      requires tag != ""
      modifies `log, api
      ensures log == old(log) + [if ok then Routed(revision) else FlipStopped(revision)]
      ensures ok ==> TagVerified(api.hooks, tag, revision)
    {
      var err := api.EnsureRevisionTag(tag, revision);
      ok := err.None?;
      log := log + [if ok then Routed(revision) else FlipStopped(revision)];
    }

    method CreateConfigMap(revision: string) returns (ok: bool)
      modifies `configMaps
      ensures configMaps == old(configMaps) || configMaps == old(configMaps) + {revision}
      ensures ok ==> revision in configMaps
    {
      var effect: bool := *;
      if effect {
        configMaps := configMaps + {revision};
      }
      ok := *;
      ok := ok && revision in configMaps;
    }

    method DeleteConfigMap(revision: string) returns (ok: bool)
      modifies `configMaps
      ensures configMaps == old(configMaps) || configMaps == old(configMaps) - {revision}
      ensures ok ==> revision !in configMaps
    {
      var effect: bool := *;
      if effect {
        configMaps := configMaps - {revision};
      }
      ok := *;
      ok := ok && revision !in configMaps;
    }

    /** Every control plane is ready, the target's among them; then the tag is flipped to the target. */
    method VerifyControlPlaneAndTag(tag: string, target: string) returns (ok: bool, ghost t: seq<Event>)
      modifies `log, api
      ensures log == old(log) + t && AllQuiet(t, target)
      ensures ok ==> t != [] && ControlPlaneReady(t[0], target)
      ensures ok && tag != "" ==> TagVerified(api.hooks, tag, target)
    {
      t := [];
      var seen: bool := *;
      if !seen {
        return false, t;
      }
      var planes: seq<ControlPlane> := *;
      log := log + [ControlPlanesSeen(planes)];
      t := [ControlPlanesSeen(planes)];
      var targetFound := false;
      for i := 0 to |planes|
        invariant targetFound <==> exists k :: 0 <= k < i && planes[k].revision == target
        invariant forall k :: 0 <= k < i ==> planes[k].Ready()
      {
        if planes[i].revision == target {
          targetFound := true;
        }
        if !planes[i].Ready() {
          return false, t;
        }
      }
      if !targetFound {
        return false, t;
      }
      if tag != "" {
        ok := EnsureTag(tag, target);
        t := t + [if ok then Routed(target) else FlipStopped(target)];
        return;
      }
      ok := true;
    }

    method EnsureIngress(opts: Options) returns (ok: bool)
      modifies `gateway
      ensures opts.ingressIP == "" && opts.regionRG == "" ==> ok
      ensures (opts.ingressIP == "") != (opts.regionRG == "") ==> !ok
      ensures ok ==> Pinned(opts)
      ensures gateway == old(gateway) || (old(gateway).Some? && gateway == Some(Pin(opts.regionRG, opts.ingressIP)))
    {
      if opts.ingressIP == "" && opts.regionRG == "" {
        return true;
      }
      if opts.ingressIP == "" || opts.regionRG == "" {
        return false;
      }
      var listed := Request();
      if !listed {
        return false;
      }
      var pin := Pin(opts.regionRG, opts.ingressIP);
      if gateway.None? || gateway.value == pin {
        return true;
      }
      var effect: bool := *;
      if effect {
        gateway := Some(pin);
      }
      ok := *;
      ok := ok && effect;
    }

    /** Namespaces whose label is neither the target nor any revision need a tag to be flipped. */
    method HasTagBasedNamespaces(target: string) returns (r: Option<bool>)
      modifies kube`cached, kube`cacheValid
      ensures old(kube.Coherent()) ==> kube.Coherent()
      ensures r.Some? ==> kube.cacheValid && (r.value <==> exists n :: n in kube.cached && TagBased(n, target))
      ensures r.Some? && old(kube.Coherent()) ==> (r.value <==> UsesTag(old(kube.labels), target))
      ensures old(kube.cacheValid) ==> r.Some?
    {
      hide *;
      var namespaces := kube.GetMeshNamespaces();
      if namespaces.None? {
        return None;
      }
      TagUsed(kube, target);
      for i := 0 to |namespaces.value|
        invariant forall k :: 0 <= k < i ==> !TagBased(namespaces.value[k], target)
      {
        if TagBased(namespaces.value[i], target) {
          return Some(true);
        }
      }
      r := Some(false);
    }

    /** One pass over every listed namespace. */
    method RestartAllNamespaces(target: string) returns (ok: bool, ghost t: seq<Event>)
      modifies `log, kube`cached, kube`cacheValid, workloads
      ensures log == old(log) + t && |t| <= 1 && (t == [] ==> !ok && !old(kube.cacheValid))
      ensures t != [] ==> kube.cacheValid && IsRestart(t[0], target, Names(kube.cached)) && t[0].ok == ok
      ensures t != [] ==> workloads.requests == old(workloads.requests) + Flatten(t[0].passes)
      ensures old(kube.Coherent()) ==> kube.Coherent()
      ensures old(kube.cacheValid) ==> kube.cacheValid && kube.cached == old(kube.cached)
    {
      hide ArePasses, AllFlawless, Flatten;
      t := [];
      var namespaces := kube.GetMeshNamespaces();
      if namespaces.None? {
        return false, t;
      }
      var names := Names(namespaces.value);
      var results, failed;
      ghost var passes;
      results, failed, passes := ExecuteRestartAll(workloads, names, target);
      ok := !failed;
      t := [Restarted(target, names, passes, ok)];
      log := log + t;
    }

    method WaitForRollout() returns (ok: bool, ghost t: seq<Event>)
      modifies `log, kube`cached, kube`cacheValid
      ensures log == old(log) + t && (t == [RolledOut(ok)] || (t == [] && !ok))
      ensures old(kube.Coherent()) ==> kube.Coherent()
      ensures old(kube.cacheValid) ==> kube.cacheValid && kube.cached == old(kube.cached)
    {
      t := [];
      var namespaces := kube.GetMeshNamespaces();
      if namespaces.None? {
        return false, t;
      }
      ok := Request();
      log := log + [RolledOut(ok)];
      t := [RolledOut(ok)];
    }

    method CheckHealth() returns (ok: bool, ghost t: seq<Event>)
      modifies `log
      ensures log == old(log) + t && |t| <= 1 && forall e :: e in t ==> e.HealthSeen?
      ensures ok ==> t != [] && Healthy(t[0].health)
    {
      t := [];
      var seen: bool := *;
      if !seen {
        return false, t;
      }
      var o: HealthObservation := *;
      log := log + [HealthSeen(o)];
      t := [HealthSeen(o)];
      var r := HealthCheck(o);
      ok := r.passed;
    }

    /** How many pods of the listed namespaces still run a sidecar of a retiring revision. */
    method CheckOrphans(target: string, previous: seq<string>) returns (found: Option<nat>, ghost t: seq<Event>)
      modifies `log, kube`cached, kube`cacheValid, workloads
      ensures log == old(log) + t && |t| <= 1 && (found.None? <==> t == [])
      ensures found.Some? ==> t[0].OrphansSeen? && IsCheck(t[0], Retiring(previous, target), Names(kube.cached))
      ensures found.Some? ==> (found.value == 0 <==> NoOrphans(t[0], Retiring(previous, target), Names(kube.cached)))
      ensures found.Some? && Retiring(previous, target) == {} ==> found.value == 0
      ensures found.Some? && Retiring(previous, target) != {} ==>
        kube.cacheValid && workloads.requests == old(workloads.requests) + Listings(t[0].names, t[0].pods)
      ensures old(kube.Coherent()) ==> kube.Coherent()
      ensures old(kube.cacheValid) ==> kube.cacheValid && kube.cached == old(kube.cached)
    {
      hide Orphans, Listings;
      t := [];
      var orphaned;
      ghost var pods;
      orphaned, pods := CheckOrphanedWorkloads(kube, workloads, target, previous);
      if orphaned.None? {
        return None, t;
      }
      ghost var retiring, names := Retiring(previous, target), Names(kube.cached);
      if retiring == {} {
        t := [OrphansSeen({}, [], [])];
      } else {
        t := [OrphansSeen(retiring, names, pods)];
        NoneFound(names, pods, retiring, orphaned.value);
      }
      log := log + t;
      found := Some(|orphaned.value|);
    }

    /** Points injection at the revision, restarts stale workloads and waits until they are back. */
    method MigrateWorkloads(opts: Options, to: string) returns (m: Migration, ghost t: seq<Event>, ghost listing: seq<MeshNamespace>)
      modifies `log, kube, api, workloads
      ensures log == old(log) + t && AllQuiet(t, to)
      ensures m == Moved ==> kube.cacheValid && IsMove(t, to, Names(kube.cached))
      ensures opts.tag != "" && old(kube.cacheValid) ==> kube.cacheValid && kube.cached == old(kube.cached)
      ensures m != RoutingFailed && opts.tag != "" ==> TagVerified(api.hooks, opts.tag, to)
      ensures m != RoutingFailed && opts.tag == "" ==>
        old(kube.Shows(listing)) && kube.labels == Patched(old(kube.labels), listing, to, |listing|)
      ensures m != RoutingFailed && old(kube.Coherent()) ==> kube.Coherent()
      ensures m != RoutingFailed && opts.tag == "" ==> kube.Coherent()
      ensures m != RoutingFailed && opts.tag == "" && old(kube.Coherent()) ==> AllLabelled(kube.labels, to)
      ensures opts.tag != "" ==> kube.labels == old(kube.labels) && (old(kube.Coherent()) ==> kube.Coherent())
      ensures m == RoutingFailed && opts.tag != "" ==> t == [FlipStopped(to)]
      ensures m == RoutingFailed && opts.tag == "" ==>
        t == [RelabelStopped(to, kube.labels)] && Interrupted(old(kube.labels), to, kube.labels)
      ensures m == RoutingFailed && opts.tag == "" && old(kube.Coherent()) ==>
        (kube.cacheValid ==> Lists(kube.cached, old(kube.labels))) && (kube.labels != old(kube.labels) ==> kube.cacheValid)
      ensures kube.labels.Keys == old(kube.labels).Keys
    {
      hide *;
      RoutedIsQuiet(to);
      t, listing := [], [];
      if opts.tag != "" {
        var ok := EnsureTag(opts.tag, to);
        if !ok {
          t := [FlipStopped(to)];
          return RoutingFailed, t, listing;
        }
      } else {
        var updated;
        updated, listing := kube.UpdateMeshNamespaceLabels(to);
        if updated.None? {
          t := [RelabelStopped(to, kube.labels)];
          log := log + t;
          return RoutingFailed, t, listing;
        }
        log := log + [Routed(to)];
      }
      t := [Routed(to)];
      var ok;
      ghost var more;
      ghost var restart;
      ok, restart := RestartAllNamespaces(to);
      RestartIsQuiet(restart, to, Names(kube.cached));
      QuietUpTo(t, restart, to);
      t := t + restart;
      if !ok {
        return RestartFailed, t, listing;
      }
      ok, more := WaitForRollout();
      RolloutIsQuiet(more, to);
      QuietUpTo(t, more, to);
      if ok {
        MoveIs(to, restart, more, Names(kube.cached));
      }
      t := t + more;
      m := if ok then Moved else RolloutFailed;
    }

    /** A pass over all namespaces, and waiting for it when nothing in it failed. */
    method RestartAndWait(target: string) returns (ok: bool, ghost t: seq<Event>)
      requires kube.cacheValid
      modifies `log, kube`cached, kube`cacheValid, workloads
      ensures log == old(log) + t && IsRound(t, ok, target, Names(kube.cached))
      ensures old(kube.Coherent()) ==> kube.Coherent()
      ensures kube.cacheValid && kube.cached == old(kube.cached)
    {
      hide *;
      ok, t := RestartAllNamespaces(target);
      RoundIs(t, target, Names(kube.cached));
      if !ok {
        return;
      }
      ghost var rollout;
      ok, rollout := WaitForRollout();
      assert t + [] == t;
      t := t + rollout;
    }

    /**
      * Restarts stale workloads until no pod runs a retiring sidecar, or the retries are used up. Every check looks into
      * all listed namespaces, and a check that finds orphans is followed by a pass over all of them unless it was the last.
      */
    method RetireOrphanedWorkloads(target: string, previous: seq<string>, opts: Options, strict: bool)
      returns (ok: bool, ghost t: seq<Event>)
      modifies `log, kube`cached, kube`cacheValid, workloads
      ensures log == old(log) + t && AllQuiet(t, target)
      ensures Guarded(t, target, Retiring(previous, target), Names(kube.cached))
      ensures CountChecks(t) <= Retries(opts.maxOrphanRetries) + 1 && CountRestarts(t) <= Retries(opts.maxOrphanRetries)
      ensures ok ==> t != [] && IsCheck(t[|t| - 1], Retiring(previous, target), Names(kube.cached))
      ensures ok && strict ==> NoOrphans(t[|t| - 1], Retiring(previous, target), Names(kube.cached))
      ensures t != [] && t[|t| - 1].OrphansSeen? ==>
        NoOrphans(t[|t| - 1], Retiring(previous, target), Names(kube.cached)) || CountChecks(t) == Retries(opts.maxOrphanRetries) + 1
      ensures old(kube.Coherent()) ==> kube.Coherent()
      ensures old(kube.cacheValid) ==> kube.cacheValid && kube.cached == old(kube.cached)
    {
      hide *;
      t := [];
      NoEvents(target);
      ghost var retiring := Retiring(previous, target);
      NothingGuarded(target, retiring, Names(kube.cached));
      var attempt := 1;
      while true
        invariant 1 <= attempt <= Retries(opts.maxOrphanRetries) + 1
        invariant log == old(log) + t && AllQuiet(t, target)
        invariant Guarded(t, target, retiring, Names(kube.cached)) && (t != [] ==> kube.cacheValid && t[|t| - 1] == RolledOut(true))
        invariant CountChecks(t) == attempt - 1 && CountRestarts(t) <= attempt - 1
        invariant old(kube.Coherent()) ==> kube.Coherent()
        invariant old(kube.cacheValid) ==> kube.cacheValid && kube.cached == old(kube.cached)
        decreases Retries(opts.maxOrphanRetries) + 1 - attempt
      {
        var orphaned;
        ghost var check, round;
        orphaned, check := CheckOrphans(target, previous);
        NothingGuarded(target, retiring, Names(kube.cached));
        ghost var names := Names(kube.cached);
        if orphaned.None? {
          return false, t;
        }
        CheckCounts(t, check, target, retiring, names);
        t := t + check;
        if orphaned.value == 0 {
          return true, t;
        }
        RetriesAre(opts.maxOrphanRetries);
        if attempt > opts.maxOrphanRetries {
          return !strict, t;
        }
        ok, round := RestartAndWait(target);
        RoundCounts(t, round, ok, target, retiring, names);
        t := t + round;
        if !ok {
          return;
        }
        attempt := attempt + 1;
      }
    }

    /** Moves workloads back to the newest previous revision other than the target, if there is one. */
    method Rollback(opts: Options, previous: seq<string>, target: string)
      returns (m: Option<Migration>, ghost t: seq<Event>, ghost to: string, ghost listing: seq<MeshNamespace>)
      requires "" !in previous
      modifies `log, kube, api, workloads
      ensures log == old(log) + t
      ensures m.Some? <==> Others(previous, target)
      ensures m.None? ==> t == [] && kube.labels == old(kube.labels)
      ensures m.Some? ==> IsRollback(t, to) && to in previous && to != target
      ensures m.Some? && AllFit(previous) ==> forall r :: r in previous && r != target ==> RevisionOrder(r, to) <= 0
      ensures m == Some(Moved) && opts.tag != "" ==> TagVerified(api.hooks, opts.tag, to)
      ensures m == Some(Moved) && opts.tag == "" ==>
        old(kube.Shows(listing)) && kube.labels == Patched(old(kube.labels), listing, to, |listing|)
      ensures m == Some(Moved) && opts.tag == "" && old(kube.Coherent()) ==> AllLabelled(kube.labels, to)
      ensures opts.tag != "" ==> kube.labels == old(kube.labels)
      ensures kube.labels.Keys == old(kube.labels).Keys
    {
      hide *;
      t, to, listing := [], "", [];
      var picked := PickRevision(previous, target, true);
      to := picked;
      if picked == "" {
        return None, t, to, listing;
      }
      PickedIsNewest(previous, target, picked);
      log := log + [RollbackStarted(picked)];
      var moved;
      ghost var more;
      moved, more, listing := MigrateWorkloads(opts, picked);
      t := [RollbackStarted(picked)] + more;
      RollbackIs(more, picked);
      m := Some(moved);
    }

    /** Attempts a rollback after a failure before the point of no return. */
    method RollbackAndReturn(opts: Options, previous: seq<string>, target: string, failure: Failure, ghost pre: seq<Event>)
      returns (err: Option<Failure>, ghost t: seq<Event>, ghost m: Option<Migration>, ghost to: string, ghost listing: seq<MeshNamespace>)
      requires "" !in previous && Recoverable(failure) && AllQuiet(pre, target)
      modifies `log, kube, api, workloads
      ensures err == Some(failure) && pre <= t && log == old(log) + t[|pre|..]
      ensures RolledBack(t, target, previous, m, to)
      ensures m == Some(Moved) && opts.tag != "" ==> TagVerified(api.hooks, opts.tag, to)
      ensures m == Some(Moved) && opts.tag == "" && old(kube.Coherent()) ==> AllLabelled(kube.labels, to)
      ensures m == Some(Moved) && opts.tag == "" ==>
        old(kube.Shows(listing)) && kube.labels == Patched(old(kube.labels), listing, to, |listing|)
      ensures kube.labels.Keys == old(kube.labels).Keys
    {
      hide *;
      ghost var post;
      m, post, to, listing := Rollback(opts, previous, target);
      t := pre + post;
      assert t[|pre|..] == post;
      RolledBackBy(pre, post, target, previous, m, to);
      err := Some(failure);
    }

    /** The same after a failed migration, which may have changed some labels and left an outdated listing behind. */
    method RollbackMigration(opts: Options, previous: seq<string>, target: string, moved: Migration, ghost pre: seq<Event>,
                             ghost labels: map<string, string>)
      returns (err: Option<Failure>, ghost t: seq<Event>, ghost m: Option<Migration>, ghost to: string)
      requires "" !in previous && AllQuiet(pre, target)
      modifies `log, kube, api, workloads
      ensures err == Some(MigrationFailed(moved)) && pre <= t && log == old(log) + t[|pre|..]
      ensures PreparationFailed(err.value, target, previous, t, m, to)
      ensures m == Some(Moved) && opts.tag != "" ==> TagVerified(api.hooks, opts.tag, to)
      ensures m == Some(Moved) && opts.tag == "" && old(kube.Coherent()) ==> AllLabelled(kube.labels, to)
      ensures m == Some(Moved) && opts.tag == "" && Interrupted(labels, target, old(kube.labels)) ==>
        old(Outdated(kube.cacheValid, kube.cached, kube.labels, labels)) ==> ReachedBack(labels, old(kube.labels), kube.labels, target, to)
      ensures kube.labels.Keys == old(kube.labels).Keys
    {
      hide *;
      RecoverableAre();
      ghost var half, valid, cached, listing := kube.labels, kube.cacheValid, kube.cached, [];
      kube.ShowsIs();
      err, t, m, to, listing := RollbackAndReturn(opts, previous, target, MigrationFailed(moved), pre);
      FailedLate(err.value, target, previous, t, m, to);
      if m == Some(Moved) && opts.tag == "" && Interrupted(labels, target, half) && Outdated(valid, cached, half, labels) {
        ShownIsOld(labels, half, valid, cached, listing);
        BackFromHalf(labels, half, kube.labels, listing, target, to);
      }
    }

    /** Verifies that the target is in charge of every listed namespace and of every pod shown in one. */
    method VerifyRun(target: string, tag: string) returns (ok: bool, ghost pods: seq<seq<Pod>>)
      modifies kube`cached, kube`cacheValid, workloads
      ensures ok ==> Verified(tag, target)
      ensures ok ==> |pods| == |kube.cached| && workloads.requests == old(workloads.requests) + Listings(Names(kube.cached), pods)
      ensures ok ==> forall i, p :: 0 <= i < |pods| && p in pods[i] ==> p.revision == target
      ensures old(kube.Coherent()) ==> kube.Coherent()
      ensures old(kube.cacheValid) ==> kube.cacheValid && kube.cached == old(kube.cached)
    {
      hide Listings;
      pods := [];
      var configMapExists := target in configMaps;
      var namespaces := kube.GetMeshNamespaces();
      var failed: bool := *;
      if failed || namespaces.None? {
        return false, pods;
      }
      var all;
      all, pods := ListAllPods(workloads, Names(namespaces.value));
      if all.None? {
        return false, pods;
      }
      var r := VerifyUpgrade(Verification(configMapExists, namespaces.value, api.hooks, all.value), target, tag);
      ok := r.passed;
    }

    /** The steps of a canary up to and including the orphan guard. */
    method PrepareCanary(opts: Options, target: string, previous: seq<string>)
      returns (err: Option<Failure>, ghost t: seq<Event>, ghost m: Option<Migration>, ghost to: string, ghost half: map<string, string>)
      requires "" !in previous
      modifies `log, `configMaps, `gateway, kube, api, workloads
      ensures log == old(log) + t
      ensures err.None? ==> m.None? && kube.cacheValid && Prepared(t, target, previous, Names(kube.cached))
      ensures err.None? ==> target in configMaps && Pinned(opts)
      ensures configMaps == old(configMaps) || configMaps == old(configMaps) + {target}
      ensures err.None? && old(kube.Coherent()) ==> kube.Coherent()
      ensures err.Some? ==> PreparationFailed(err.value, target, previous, t, m, to)
      ensures err.None? && opts.tag != "" ==> TagVerified(api.hooks, opts.tag, target)
      ensures err.None? && opts.tag == "" && old(kube.Coherent()) ==> AllLabelled(kube.labels, target)
      ensures m == Some(Moved) && opts.tag != "" ==> TagVerified(api.hooks, opts.tag, to)
      ensures m == Some(Moved) && opts.tag == "" && old(kube.Coherent()) && err != Some(MigrationFailed(RoutingFailed)) ==>
        AllLabelled(kube.labels, to)
      ensures m == Some(Moved) && opts.tag == "" && old(kube.Coherent()) && err == Some(MigrationFailed(RoutingFailed)) ==>
        RelabelStopped(target, half) in t && ReachedBack(old(kube.labels), half, kube.labels, target, to)
      ensures opts.tag == "" && old(kube.Coherent()) && UsesTag(old(kube.labels), target) ==>
        err.Some? && t == [] && m.None? && kube.labels == old(kube.labels) && api.hooks == old(api.hooks) && gateway == old(gateway)
      ensures err == Some(TagUnsafe) && old(kube.cacheValid && kube.Coherent()) ==> opts.tag == "" && UsesTag(old(kube.labels), target)
      ensures kube.labels.Keys == old(kube.labels).Keys
    {
      hide *;
      t, m, to, half := [], None, "", map[];
      RecoverableAre();
      FailedEarly(target, previous);
      var ok := CreateConfigMap(target);
      if !ok {
        return Some(ConfigMapFailed), t, m, to, half;
      }
      if opts.tag == "" {
        var tagged := HasTagBasedNamespaces(target);
        if tagged != Some(false) {
          return Some(TagUnsafe), t, m, to, half;
        }
      }
      err, t, m, to, half := VerifyAndMove(opts, target, previous);
    }

    /** The steps from the control planes on; every failure attempts a rollback. */
    method VerifyAndMove(opts: Options, target: string, previous: seq<string>)
      returns (err: Option<Failure>, ghost t: seq<Event>, ghost m: Option<Migration>, ghost to: string, ghost half: map<string, string>)
      requires "" !in previous
      modifies `log, `gateway, kube, api, workloads
      ensures log == old(log) + t
      ensures err.None? ==> m.None? && kube.cacheValid && Prepared(t, target, previous, Names(kube.cached)) && Pinned(opts)
      ensures err.None? && old(kube.Coherent()) ==> kube.Coherent()
      ensures err.Some? ==> PreparationFailed(err.value, target, previous, t, m, to)
      ensures err != Some(TagUnsafe)
      ensures err.None? && opts.tag != "" ==> TagVerified(api.hooks, opts.tag, target)
      ensures err.None? && opts.tag == "" && old(kube.Coherent()) ==> AllLabelled(kube.labels, target)
      ensures m == Some(Moved) && opts.tag != "" ==> TagVerified(api.hooks, opts.tag, to)
      ensures m == Some(Moved) && opts.tag == "" && old(kube.Coherent()) && err != Some(MigrationFailed(RoutingFailed)) ==>
        AllLabelled(kube.labels, to)
      ensures m == Some(Moved) && opts.tag == "" && old(kube.Coherent()) && err == Some(MigrationFailed(RoutingFailed)) ==>
        RelabelStopped(target, half) in t && ReachedBack(old(kube.labels), half, kube.labels, target, to)
      ensures kube.labels.Keys == old(kube.labels).Keys
    {
      hide *;
      m, to, half := None, "", map[];
      RecoverableAre();
      ghost var listing;
      var ok;
      ok, t := VerifyControlPlaneAndTag(opts.tag, target);
      if !ok {
        err, t, m, to, listing := RollbackAndReturn(opts, previous, target, ControlPlaneFailed, t);
        FailedLate(err.value, target, previous, t, m, to);
        return;
      }
      ok := EnsureIngress(opts);
      if !ok {
        err, t, m, to, listing := RollbackAndReturn(opts, previous, target, IngressFailed, t);
        FailedLate(err.value, target, previous, t, m, to);
        return;
      }
      err, t, m, to, half := MoveToTarget(opts, target, previous, t);
    }

    /** Migration, health check and orphan guard, after the control planes were found ready. */
    method MoveToTarget(opts: Options, target: string, previous: seq<string>, ghost planes: seq<Event>)
      returns (err: Option<Failure>, ghost t: seq<Event>, ghost m: Option<Migration>, ghost to: string, ghost half: map<string, string>)
      requires "" !in previous && AllQuiet(planes, target) && planes != [] && ControlPlaneReady(planes[0], target)
      modifies `log, kube, api, workloads
      ensures planes <= t && log == old(log) + t[|planes|..]
      ensures err.None? ==> m.None? && kube.cacheValid && Prepared(t, target, previous, Names(kube.cached))
      ensures err.None? && old(kube.Coherent()) ==> kube.Coherent()
      ensures err.Some? ==> PreparationFailed(err.value, target, previous, t, m, to)
      ensures err != Some(TagUnsafe)
      ensures err.None? && opts.tag != "" ==> TagVerified(api.hooks, opts.tag, target)
      ensures err.None? && opts.tag == "" && old(kube.Coherent()) ==> AllLabelled(kube.labels, target)
      ensures m == Some(Moved) && opts.tag != "" ==> TagVerified(api.hooks, opts.tag, to)
      ensures m == Some(Moved) && opts.tag == "" && old(kube.Coherent()) && err != Some(MigrationFailed(RoutingFailed)) ==>
        AllLabelled(kube.labels, to)
      ensures m == Some(Moved) && opts.tag == "" && old(kube.Coherent()) && err == Some(MigrationFailed(RoutingFailed)) ==>
        RelabelStopped(target, half) in t && ReachedBack(old(kube.labels), half, kube.labels, target, to)
      ensures kube.labels.Keys == old(kube.labels).Keys
    {
      hide *;
      m, to, half := None, "", map[];
      RecoverableAre();
      var moved;
      ghost var more, listing;
      moved, more, listing := MigrateWorkloads(opts, target);
      QuietUpTo(planes, more, target);
      t := planes + more;
      if moved != Moved {
        half := kube.labels;
        OutdatedIs(kube.cacheValid, kube.cached, half, old(kube.labels));
        err, t, m, to := RollbackMigration(opts, previous, target, moved, t, old(kube.labels));
        TailFrom(planes, more, t);
        return;
      }
      TailOf(planes, more, []);
      err, t, m, to := CompleteMove(opts, target, previous, planes, more);
      TailFrom(planes, more, t);
    }

    /** Health check and orphan guard after a migration to the target; a failure rolls back. */
    method CompleteMove(opts: Options, target: string, previous: seq<string>, ghost planes: seq<Event>, ghost move: seq<Event>)
      returns (err: Option<Failure>, ghost t: seq<Event>, ghost m: Option<Migration>, ghost to: string)
      requires "" !in previous && planes != [] && ControlPlaneReady(planes[0], target) && AllQuiet(planes + move, target)
      requires kube.cacheValid && IsMove(move, target, Names(kube.cached))
      modifies `log, kube, api, workloads
      ensures planes + move <= t && log == old(log) + t[|planes + move|..]
      ensures err.None? ==> m.None? && kube.cacheValid && Prepared(t, target, previous, Names(kube.cached))
      ensures err.None? ==> kube.labels == old(kube.labels) && api.hooks == old(api.hooks)
      ensures err.None? && old(kube.Coherent()) ==> kube.Coherent()
      ensures err.Some? ==> PreparationFailed(err.value, target, previous, t, m, to) && err != Some(MigrationFailed(RoutingFailed))
      ensures err != Some(TagUnsafe)
      ensures m == Some(Moved) && opts.tag != "" ==> TagVerified(api.hooks, opts.tag, to)
      ensures m == Some(Moved) && opts.tag == "" && old(kube.Coherent()) ==> AllLabelled(kube.labels, to)
      ensures kube.labels.Keys == old(kube.labels).Keys
    {
      hide *;
      m, to := None, "";
      ghost var health, guard, listing;
      err, health, guard := CheckMoved(opts, target, previous, true);
      QuietUpTo(planes + move, health + guard, target);
      t := planes + move + (health + guard);
      TailOf(planes + move, health + guard, []);
      if err.Some? {
        err, t, m, to, listing := RollbackAndReturn(opts, previous, target, err.value, t);
        TailFrom(planes + move, health + guard, t);
        FailedLate(err.value, target, previous, t, m, to);
        return;
      }
      ClearedBy(planes, move, health, guard, target, previous, Names(kube.cached), None);
      PreparedIs(t, target, previous, Names(kube.cached));
    }

    /** The health check and the orphan guard, which fails for orphans that remain only if it is strict. */
    method CheckMoved(opts: Options, target: string, previous: seq<string>, strict: bool)
      returns (err: Option<Failure>, ghost health: seq<Event>, ghost guard: seq<Event>)
      modifies `log, kube`cached, kube`cacheValid, workloads
      ensures log == old(log) + (health + guard) && AllQuiet(health + guard, target)
      ensures err.Some? ==> Recoverable(err.value) && (err.value == HealthFailed || err.value == OrphansRemain)
      ensures err.None? ==> |health| == 1 && health[0].HealthSeen? && Healthy(health[0].health)
      ensures err.None? ==>
        GuardEnds(guard, Retiring(previous, target), Names(kube.cached), if strict then None else Some(opts.maxOrphanRetries))
      ensures err.None? ==> Guarded(guard, target, Retiring(previous, target), Names(kube.cached))
      ensures old(kube.Coherent()) ==> kube.Coherent()
      ensures old(kube.cacheValid) ==> kube.cacheValid && kube.cached == old(kube.cached)
    {
      hide *;
      RecoverableAre();
      guard := [];
      var ok;
      ok, health := CheckHealth();
      HealthIsQuiet(health, target);
      assert health + [] == health;
      if !ok {
        return Some(HealthFailed), health, guard;
      }
      ok, guard := RetireOrphanedWorkloads(target, previous, opts, strict);
      QuietUpTo(health, guard, target);
      if ok {
        GuardEnded(guard, Retiring(previous, target), Names(kube.cached), opts.maxOrphanRetries, strict);
      }
      err := if ok then None else Some(OrphansRemain);
    }

    /**
      * Everything after a canary has been installed. Completion is requested only once all its preconditions have been
      * observed in this run; a failure between the safety check and that request attempts a rollback, no other does.
      */
    method RunCanaryPostInstall(opts: Options, target: string, previous: seq<string>)
      returns (err: Option<Failure>, ghost t: seq<Event>, ghost m: Option<Migration>, ghost to: string, ghost half: map<string, string>)
      requires "" !in previous
      modifies this, kube, api, workloads
      ensures log == old(log) + t
      ensures PostInstallTrace(err, opts.stopAfter, old(revisions), target, previous, t, m, to, Names(kube.cached), kube.labels.Keys)
      ensures Unfailed(err) && old(kube.Coherent()) ==> Cover(Names(kube.cached), kube.labels.Keys)
      ensures PostInstallRevisions(err, opts.stopAfter, old(revisions), target, revisions)
      ensures err.None? || Unfailed(err) ==> target in configMaps && Pinned(opts)
      ensures err.None? && opts.stopAfter != OrphanCheck ==> Verified(opts.tag, target)
      ensures err.None? && opts.tag != "" ==> TagVerified(api.hooks, opts.tag, target)
      ensures err.None? && opts.tag == "" && old(kube.Coherent()) ==> AllLabelled(kube.labels, target)
      ensures m == Some(Moved) && opts.tag != "" ==> TagVerified(api.hooks, opts.tag, to)
      ensures m == Some(Moved) && opts.tag == "" && old(kube.Coherent()) && err != Some(MigrationFailed(RoutingFailed)) ==>
        AllLabelled(kube.labels, to)
      ensures m == Some(Moved) && opts.tag == "" && old(kube.Coherent()) && err == Some(MigrationFailed(RoutingFailed)) ==>
        RelabelStopped(target, half) in t && ReachedBack(old(kube.labels), half, kube.labels, target, to)
      ensures opts.tag == "" && old(kube.Coherent()) && UsesTag(old(kube.labels), target) ==>
        err.Some? && t == [] && m.None? && kube.labels == old(kube.labels) && api.hooks == old(api.hooks) && revisions == old(revisions)
      ensures kube.labels.Keys == old(kube.labels).Keys
    {
      hide *;
      err, t, m, to, half := PrepareCanary(opts, target, previous);
      if err.Some? {
        FailedTrace(err, opts.stopAfter, revisions, target, previous, t, m, to, Names(kube.cached), kube.labels.Keys);
        return;
      }
      ghost var names, mesh := Names(kube.cached), kube.labels.Keys;
      CachedCover(kube);
      if opts.stopAfter == OrphanCheck {
        StoppedTrace(revisions, target, previous, t, m, to, names, mesh);
        return;
      }
      ghost var before := revisions;
      var ok := CompleteCanaryUpgrade(target);
      CompletedTrace(opts.stopAfter, before, target, previous, t, m, to, revisions, names, mesh);
      t := t + [CanaryCompleted(before, target, mesh)];
      if !ok {
        return Some(CompletionFailed), t, m, to, half;
      }
      DeleteConfigMaps(previous, target);
      ghost var pods;
      ok, pods := VerifyRun(target, opts.tag);
      err := if ok then None else Some(VerificationFailed);
    }

    /** Installs the target beside the one installed revision and moves to it. */
    method RunCanaryUpgrade(opts: Options, target: string, current: seq<string>)
      returns (err: Option<Failure>, ghost t: seq<Event>)
      requires "" !in current && target != "" && |current| == 1 && current[0] != target && revisions == current
      modifies this, kube, api, workloads
      ensures log == old(log) + t && AllLegal(t) && SafeTrace(t, target, opts.maxOrphanRetries, old(kube.Coherent()))
      ensures RevisionOrder(current[0], target) <= 0 ==> NeverAbove(t)
      ensures revisions in {current, current + [target], [target]}
      ensures err.Some? ==> AfterDecision(err.value)
      ensures err.None? && opts.stopAfter == Never ==> revisions == [target]
      ensures err.None? && opts.stopAfter == CanaryStart ==> revisions == current + [target]
      ensures err.None? && opts.stopAfter == Never && old(kube.Coherent()) ==> Leads(opts.tag, target)
      ensures err.None? && opts.stopAfter == Never ==> Verified(opts.tag, target) && Pinned(opts)
      ensures opts.tag == "" && old(kube.Coherent()) && UsesTag(old(kube.labels), target) ==>
        && (err.Some? || opts.stopAfter == CanaryStart) && t == [CanaryStarted(current, target)]
        && kube.labels == old(kube.labels) && api.hooks == old(api.hooks) && revisions != [target]
    {
      hide *;
      OtherErrors();
      var ok := StartCanaryUpgrade(target);
      StartIsLegal(current, target, opts.maxOrphanRetries, old(kube.Coherent()));
      t := [CanaryStarted(current, target)];
      if !ok {
        return Some(StartFailed), t;
      }
      if opts.stopAfter == CanaryStart {
        return None, t;
      }
      ghost var more, m, to, half;
      ghost var before := revisions;
      err, more, m, to, half := RunCanaryPostInstall(opts, target, current);
      ghost var names, mesh := Names(kube.cached), kube.labels.Keys;
      OthersBeforeTarget(current, target);
      PostInstallIsLegal(err, opts.stopAfter, before, target, current, more, m, to, names, mesh, opts.maxOrphanRetries, old(kube.Coherent()));
      PostInstallErrors(err, opts.stopAfter, before, target, current, more, m, to, names, mesh);
      PostInstallLeaves(err, opts.stopAfter, before, target, revisions);
      BothLegal(t, more, target, opts.maxOrphanRetries, old(kube.Coherent()));
      t := t + more;
      LeadsIs(opts.tag, target);
    }

    /** Settles on the older of two revisions, removes the newer one, and starts afresh to the target. */
    method RunCleanupAndUpgrade(opts: Options, target: string, installed: seq<string>)
      returns (err: Option<Failure>, ghost t: seq<Event>, ghost stale: string, ghost kept: string)
      requires "" !in installed && target != "" && |installed| == 2 && target !in installed && revisions == installed
      modifies this, kube, api, workloads
      ensures log == old(log) + t && AllLegal(t) && SafeTrace(t, target, opts.maxOrphanRetries, old(kube.Coherent()))
      ensures AllFit(installed) && Fits(target) && !AboveTarget(installed, target) ==> NeverAbove(t)
      ensures 1 <= |revisions| <= 2 && forall r :: r in revisions ==> r in installed || r == target
      ensures err.None? && opts.stopAfter == Never ==> revisions == [target]
      ensures AllFit(installed) && err != Some(NoOldRevision) ==>
        stale in installed && kept in installed && forall r :: r in installed ==> RevisionOrder(kept, r) <= 0 && RevisionOrder(r, stale) <= 0
      ensures err == Some(NoOldRevision) <==> installed[0] == installed[1]
      ensures err.Some? ==> AfterDecision(err.value) || err.value == NoOldRevision
      ensures err.None? && opts.stopAfter == Never && old(kube.Coherent()) ==> Leads(opts.tag, target)
      ensures err.None? && opts.stopAfter == Never ==> Verified(opts.tag, target) && Pinned(opts)
    {
      hide *;
      OtherErrors();
      t := [];
      NothingHappened(target, opts.maxOrphanRetries, old(kube.Coherent()));
      var staleRevision := Extreme(installed, true);
      var oldRevision := PickRevision(installed, staleRevision, false);
      stale, kept := staleRevision, oldRevision;
      TwoRevisions(installed, staleRevision, oldRevision, target);
      if oldRevision == "" {
        return Some(NoOldRevision), t, stale, kept;
      }
      err, t := RemoveStale(opts, oldRevision, staleRevision, target);
      if err.Some? {
        return;
      }
      ghost var more;
      ghost var sure := kube.Coherent();
      err, more := RunCanaryUpgrade(opts, target, [oldRevision]);
      LessSure(more, target, opts.maxOrphanRetries, sure, old(kube.Coherent()));
      BothLegal(t, more, target, opts.maxOrphanRetries, old(kube.Coherent()));
      t := t + more;
    }

    /** Brings the cluster back to the revision to keep. */
    method RemoveStale(opts: Options, keep: string, stale: string, ghost target: string)
      returns (err: Option<Failure>, ghost t: seq<Event>)
      requires keep in revisions && keep != target && keep != stale && Retiring(revisions, keep) == Retiring([stale], keep)
      modifies this, kube, api, workloads
      ensures log == old(log) + t && AllLegal(t) && SafeTrace(t, target, opts.maxOrphanRetries, old(kube.Coherent())) && NeverAbove(t)
      ensures err.None? ==> revisions == [keep] && Verified(opts.tag, keep) && Pinned(opts)
      ensures revisions == old(revisions) || revisions == [keep]
      ensures err.Some? ==> AfterDecision(err.value)
      ensures err.None? && old(kube.Coherent()) ==> kube.Coherent()
    {
      hide *;
      OtherErrors();
      err, t := Consolidate(opts, keep, stale);
      QuietIsLegal(t, keep, target, opts.maxOrphanRetries, old(kube.Coherent()));
      if err.Some? {
        return;
      }
      ghost var before := revisions;
      CachedCover(kube);
      KeepIsLegal(t, before, keep, stale, Names(kube.cached), kube.labels.Keys, target, opts.maxOrphanRetries, old(kube.Coherent()));
      var ok := CompleteCanaryUpgrade(keep);
      t := t + [CanaryCompleted(before, keep, kube.labels.Keys)];
      if !ok {
        return Some(CompletionFailed), t;
      }
      var deleted := DeleteConfigMap(stale);
      ghost var pods;
      ok, pods := VerifyRun(keep, opts.tag);
      err := if ok then None else Some(VerificationFailed);
    }

    /** Moves every workload to the revision to keep; there is nothing to roll back to. */
    method Consolidate(opts: Options, keep: string, stale: string) returns (err: Option<Failure>, ghost t: seq<Event>)
      modifies `log, `configMaps, `gateway, kube, api, workloads
      ensures log == old(log) + t && AllQuiet(t, keep)
      ensures err.Some? ==> AfterDecision(err.value)
      ensures err.None? ==> kube.cacheValid && Cleared(t, keep, [stale], Names(kube.cached), Some(opts.maxOrphanRetries))
      ensures err.None? ==> keep in configMaps && Pinned(opts)
      ensures err.None? && old(kube.Coherent()) ==> kube.Coherent() && Leads(opts.tag, keep)
    {
      hide *;
      OtherErrors();
      t := [];
      NoEvents(keep);
      var ok := CreateConfigMap(keep);
      if !ok {
        return Some(ConfigMapFailed), t;
      }
      ok, t := VerifyControlPlaneAndTag(opts.tag, keep);
      if !ok {
        return Some(ControlPlaneFailed), t;
      }
      ok := EnsureIngress(opts);
      if !ok {
        return Some(IngressFailed), t;
      }
      err, t := MoveToKept(opts, keep, stale, t);
    }

    /** Migration, health check and orphan guard for the revision to keep. */
    method MoveToKept(opts: Options, keep: string, stale: string, ghost planes: seq<Event>)
      returns (err: Option<Failure>, ghost t: seq<Event>)
      requires AllQuiet(planes, keep) && planes != [] && ControlPlaneReady(planes[0], keep)
      modifies `log, kube, api, workloads
      ensures planes <= t && log == old(log) + t[|planes|..] && AllQuiet(t, keep)
      ensures err.Some? ==> AfterDecision(err.value)
      ensures err.None? ==> kube.cacheValid && Cleared(t, keep, [stale], Names(kube.cached), Some(opts.maxOrphanRetries))
      ensures err.None? && old(kube.Coherent()) ==> kube.Coherent() && Leads(opts.tag, keep)
    {
      hide *;
      OtherErrors();
      ghost var move, health, guard, listing;
      var moved;
      moved, move, listing := MigrateWorkloads(opts, keep);
      QuietUpTo(planes, move, keep);
      t := planes + move;
      TailOf(planes, move, []);
      if moved != Moved {
        return Some(MigrationFailed(moved)), t;
      }
      err, health, guard := CheckMoved(opts, keep, [stale], false);
      QuietUpTo(planes + move, health + guard, keep);
      t := planes + move + (health + guard);
      TailOf(planes, move, health + guard);
      TailOf(planes, move + (health + guard), []);
      LeadsIs(opts.tag, keep);
      if err.None? {
        ClearedBy(planes, move, health, guard, keep, [stale], Names(kube.cached), Some(opts.maxOrphanRetries));
      }
    }

    /** Installs the mesh on a cluster without one. */
    method RunInitialInstall(opts: Options, target: string) returns (err: Option<Failure>, ghost t: seq<Event>)
      requires revisions == []
      modifies this, kube, api, workloads
      ensures log == old(log) + t && AllLegal(t) && SafeTrace(t, target, opts.maxOrphanRetries, old(kube.Coherent())) && NeverAbove(t)
      ensures revisions in {[], [target]} && (err != Some(EnableFailed) ==> revisions == [target])
      ensures err.None? ==> Installed(t, target) && (opts.tag != "" ==> TagVerified(api.hooks, opts.tag, target))
      ensures err.None? ==> target in configMaps && Pinned(opts)
      ensures kube.labels == old(kube.labels)
      ensures err.Some? ==> AfterDecision(err.value)
    {
      hide *;
      OtherErrors();
      var ok := EnableMesh(target);
      EnableIsLegal(target, opts.maxOrphanRetries, old(kube.Coherent()));
      t := [MeshEnabled([], target)];
      if !ok {
        return Some(EnableFailed), t;
      }
      ok := CreateConfigMap(target);
      if !ok {
        return Some(ConfigMapFailed), t;
      }
      ghost var planes, health;
      ok, planes := VerifyControlPlaneAndTag(opts.tag, target);
      QuietIsLegal(planes, target, target, opts.maxOrphanRetries, old(kube.Coherent()));
      BothLegal(t, planes, target, opts.maxOrphanRetries, old(kube.Coherent()));
      t := t + planes;
      if !ok {
        return Some(ControlPlaneFailed), t;
      }
      ok := EnsureIngress(opts);
      if !ok {
        return Some(IngressFailed), t;
      }
      ok, health := CheckHealth();
      HealthIsQuiet(health, target);
      QuietIsLegal(health, target, target, opts.maxOrphanRetries, old(kube.Coherent()));
      BothLegal(t, health, target, opts.maxOrphanRetries, old(kube.Coherent()));
      t := t + health;
      if !ok {
        return Some(HealthFailed), t;
      }
      InstalledBy(target, planes, health);
      var namespaces := kube.GetMeshNamespaces();
      err := None;
    }

    /** Repairs drift around an installed revision; failures are not fatal. */
    method RunReconcile(opts: Options, target: string, installed: seq<string>) returns (reconciled: bool, ghost t: seq<Event>)
      modifies `log, `configMaps, `gateway, api
      ensures log == old(log) + t && AllQuiet(t, target)
      ensures reconciled <==> target in installed
      ensures reconciled && opts.tag != "" ==>
        t == [FlipStopped(target)] || (t == [Routed(target)] && TagVerified(api.hooks, opts.tag, target))
    {
      hide *;
      t := [];
      NoEvents(target);
      if target !in installed {
        return false, t;
      }
      var created := CreateConfigMap(target);
      if opts.tag != "" {
        var tagged := EnsureTag(opts.tag, target);
        t := [if tagged then Routed(target) else FlipStopped(target)];
        RoutedIsQuiet(target);
      }
      var ingress := EnsureIngress(opts);
      reconciled := true;
    }

    /** One run: reads the cluster, decides, and acts. */
    method RunUpgrade(opts: Options) returns (err: Option<Failure>, action: Option<Action>, ghost t: seq<Event>)
      requires "" !in revisions
      modifies this, kube, api, workloads
      ensures log == old(log) + t && AllLegal(t) && SafeTrace(t, Trim(opts.versions), opts.maxOrphanRetries, old(kube.Coherent()))
      ensures |old(revisions)| <= 2 ==> |revisions| <= 2
      ensures old(revisions) != [] ==> revisions != []
      ensures forall r :: r in revisions ==> r in old(revisions) || (r == Trim(opts.versions) && IsRevision(r))
      ensures Comparable(old(revisions), Trim(opts.versions)) ==> NeverAbove(t)
      ensures err == Some(BadTarget) <==> !IsRevision(Trim(opts.versions))
      ensures action.None? || opts.dryRun || action.value in {Skip, Reconcile} ==> revisions == old(revisions)
      ensures err.None? ==> action.Some?
      ensures err.None? && !opts.dryRun && opts.stopAfter == Never && action.value in {Install, Upgrade, Resume, CleanupAndUpgrade} ==>
        revisions == [Trim(opts.versions)]
      ensures err.None? && !opts.dryRun && opts.stopAfter == Never && action.value in {Upgrade, Resume, CleanupAndUpgrade} ==>
        old(kube.Coherent()) ==> Leads(opts.tag, Trim(opts.versions))
      ensures err.None? && !opts.dryRun && opts.stopAfter == Never && action.value in {Upgrade, Resume, CleanupAndUpgrade} ==>
        Verified(opts.tag, Trim(opts.versions)) && Pinned(opts)
      ensures err.None? && !opts.dryRun && action == Some(Install) ==>
        Installed(t, Trim(opts.versions)) && (opts.tag != "" ==> Leads(opts.tag, Trim(opts.versions)))
      ensures err.None? && !opts.dryRun && action == Some(Install) ==> Trim(opts.versions) in configMaps && Pinned(opts)
      ensures action.None? || action.value in {Skip, Reconcile, Install} ==> kube.labels == old(kube.labels)
      ensures opts.tag == "" && old(kube.Coherent()) && UsesTag(old(kube.labels), Trim(opts.versions)) ==>
        action in {Some(Resume), Some(Upgrade)} ==>
          && (err.Some? || opts.dryRun || (action == Some(Upgrade) && opts.stopAfter == CanaryStart))
          && (t == [] || (action == Some(Upgrade) && t == [CanaryStarted(old(revisions), Trim(opts.versions))]))
          && kube.labels == old(kube.labels) && api.hooks == old(api.hooks)
          && (action == Some(Resume) ==> revisions == old(revisions))
    {
      hide *;
      t := [];
      action := None;
      var target := Trim(opts.versions);
      NothingHappened(target, opts.maxOrphanRetries, old(kube.Coherent()));
      if target == "" || !IsRevision(target) {
        EmptyIsNoRevision();
        return Some(BadTarget), action, t;
      }
      EmptyIsNoRevision();
      OtherErrors();
      var known := Request();
      if !known {
        return Some(StateUnknown), action, t;
      }
      var provisioning: string := *;
      var available: seq<string> := *;
      var inProgress: bool := *;
      var installed := revisions;
      var state := State(provisioning, installed, available, inProgress);
      var decided := Decide(state, target);
      action := Some(decided);
      if opts.dryRun {
        return None, action, t;
      }
      err, t := Act(opts, state, target, decided);
    }

    method Act(opts: Options, state: State, target: string, action: Action) returns (err: Option<Failure>, ghost t: seq<Event>)
      requires "" !in revisions && target != "" && state.installed == revisions
      requires action == Install ==> revisions == []
      requires action == Resume ==> target in revisions
      requires action == Reconcile ==> revisions != []
      requires action == Upgrade ==> |revisions| == 1
      requires action == CleanupAndUpgrade ==> |revisions| == 2 && target !in revisions
      requires exists s :: Describes(s, state, target) && action == Chosen(s)
      modifies this, kube, api, workloads
      ensures log == old(log) + t && AllLegal(t) && SafeTrace(t, target, opts.maxOrphanRetries, old(kube.Coherent()))
      ensures |old(revisions)| <= 2 ==> |revisions| <= 2
      ensures old(revisions) != [] ==> revisions != []
      ensures forall r :: r in revisions ==> r in old(revisions) || r == target
      ensures Comparable(old(revisions), target) ==> NeverAbove(t)
      ensures err.Some? ==> AfterDecision(err.value) || err.value == NoOldRevision
      ensures action in {Skip, Reconcile} ==> revisions == old(revisions) && err.None?
      ensures err.None? && opts.stopAfter == Never && action in {Install, Upgrade, Resume, CleanupAndUpgrade} ==> revisions == [target]
      ensures err.None? && opts.stopAfter == Never && action in {Upgrade, Resume, CleanupAndUpgrade} && old(kube.Coherent()) ==>
        Leads(opts.tag, target)
      ensures err.None? && action == Install ==> Installed(t, target) && (opts.tag != "" ==> Leads(opts.tag, target))
      ensures err.None? && action == Install ==> target in configMaps && Pinned(opts)
      ensures err.None? && opts.stopAfter == Never && action in {Upgrade, Resume, CleanupAndUpgrade} ==>
        Verified(opts.tag, target) && Pinned(opts)
      ensures action in {Skip, Reconcile, Install} ==> kube.labels == old(kube.labels)
      ensures opts.tag == "" && old(kube.Coherent()) && UsesTag(old(kube.labels), target) && action in {Resume, Upgrade} ==>
        && (err.Some? || (action == Upgrade && opts.stopAfter == CanaryStart))
        && (t == [] || (action == Upgrade && t == [CanaryStarted(old(revisions), target)]))
        && kube.labels == old(kube.labels) && api.hooks == old(api.hooks)
        && (action == Resume ==> revisions == old(revisions))
    {
      hide *;
      t := [];
      NothingHappened(target, opts.maxOrphanRetries, old(kube.Coherent()));
      var installed := revisions;
      match action {
        case Skip =>
          err := None;
        case Reconcile =>
          var reconcileTarget := ReconcileTarget(installed, target);
          var reconciled;
          reconciled, t := RunReconcile(opts, reconcileTarget, installed);
          ReconcileFindsTarget(state, target, reconcileTarget);
          assert reconciled;
          QuietIsLegal(t, reconcileTarget, target, opts.maxOrphanRetries, old(kube.Coherent()));
          err := None;
        case Install =>
          err, t := RunInitialInstall(opts, target);
          LeadsIs(opts.tag, target);
        case Resume =>
          ghost var m, to, half;
          err, t, m, to, half := RunCanaryPostInstall(opts, target, installed);
          ghost var names, mesh := Names(kube.cached), kube.labels.Keys;
          PostInstallIsLegal(err, opts.stopAfter, installed, target, installed, t, m, to, names, mesh, opts.maxOrphanRetries,
                             old(kube.Coherent()));
          PostInstallErrors(err, opts.stopAfter, installed, target, installed, t, m, to, names, mesh);
          PostInstallLeaves(err, opts.stopAfter, installed, target, revisions);
          LeadsIs(opts.tag, target);
        case Upgrade =>
          UpgradeIsUp(state, target);
          err, t := RunCanaryUpgrade(opts, target, installed);
        case CleanupAndUpgrade =>
          CleanupIsUp(state, target);
          ghost var stale, kept;
          err, t, stale, kept := RunCleanupAndUpgrade(opts, target, installed);
      }
    }

    /** Any sequence of runs by one operator, each with a fresh client. */
    method RunRepeatedly(runs: seq<Options>) returns (ghost t: seq<Event>)
      requires "" !in revisions && |revisions| <= 2
      modifies this, kube, api, workloads
      ensures log == old(log) + t && AllLegal(t)
      ensures |revisions| <= 2 && (old(revisions) != [] ==> revisions != [])
      ensures AllFit(old(revisions)) && (forall i :: 0 <= i < |runs| ==> Fits(Trim(runs[i].versions))) ==> NeverAbove(t)
    {
      hide *;
      t := [];
      NothingHappened("", 0, false);
      EmptyIsNoRevision();
      for i := 0 to |runs|
        invariant "" !in revisions && |revisions| <= 2 && (old(revisions) != [] ==> revisions != [])
        invariant log == old(log) + t && AllLegal(t)
        invariant AllFit(old(revisions)) && (forall k :: 0 <= k < |runs| ==> Fits(Trim(runs[k].versions))) ==>
          NeverAbove(t) && AllFit(revisions)
      {
        ghost var before := revisions;
        kube.InvalidateNamespaceCache();
        var err, action;
        ghost var more;
        err, action, more := RunUpgrade(runs[i]);
        FitsStay(before, revisions, Trim(runs[i].versions));
        MoreLegal(t, more);
        t := t + more;
      }
    }

    /** Best effort: failures are ignored. */
    method DeleteConfigMaps(previous: seq<string>, target: string)
      modifies `configMaps
      ensures configMaps <= old(configMaps) && forall r :: r in old(configMaps) && (r !in previous || r == target) ==> r in configMaps
    {
      for i := 0 to |previous|
        invariant configMaps <= old(configMaps)
        invariant forall r :: r in old(configMaps) && (r !in previous || r == target) ==> r in configMaps
      {
        if previous[i] != target {
          var deleted := DeleteConfigMap(previous[i]);
        }
      }
    }
  }

  // ----- the trace of a post-install sequence

  /** Quiet steps, then a rollback exactly when there is a previous revision to go back to. */
  ghost predicate RolledBack(t: seq<Event>, target: string, previous: seq<string>, m: Option<Migration>, to: string) {
    exists pre, post :: t == pre + post && AllQuiet(pre, target) && RollbackPart(post, target, previous, m, to)
  }

  ghost predicate RollbackPart(post: seq<Event>, target: string, previous: seq<string>, m: Option<Migration>, to: string) {
    && (m.Some? <==> Others(previous, target))
    && (if m.Some? then IsRollback(post, to) && to in previous && to != target else post == [])
    && (m.Some? && AllFit(previous) ==> forall r :: r in previous && r != target ==> RevisionOrder(r, to) <= 0)
  }

  lemma RolledBackBy(pre: seq<Event>, post: seq<Event>, target: string, previous: seq<string>, m: Option<Migration>, to: string)
    requires AllQuiet(pre, target) && (m.Some? <==> Others(previous, target))
    requires if m.Some? then IsRollback(post, to) && to in previous && to != target else post == []
    requires m.Some? && AllFit(previous) ==> forall r :: r in previous && r != target ==> RevisionOrder(r, to) <= 0
    ensures RolledBack(pre + post, target, previous, m, to)
  {
    hide AllQuiet, Others, IsRollback, AllFit, RevisionOrder;
    assert RollbackPart(post, target, previous, m, to);
  }

  /** Completion was requested. */
  predicate Sent(err: Option<Failure>, stop: StopAfter) {
    if err.None? then stop != OrphanCheck else err.value == CompletionFailed || err.value == VerificationFailed
  }

  /** Every step before the point of no return, then the request to complete, and nothing after it. */
  ghost predicate EndsInCompletion(t: seq<Event>, before: seq<string>, target: string, previous: seq<string>,
                                   names: seq<string>, mesh: set<string>) {
    exists pre :: t == pre + [CanaryCompleted(before, target, mesh)] && Prepared(pre, target, previous, names)
  }

  /** The listed names are those of the mesh namespaces of the cluster. */
  ghost predicate Cover(names: seq<string>, mesh: set<string>) {
    forall n :: n in names <==> n in mesh
  }

  lemma CachedCover(kube: KubeClient)
    ensures kube.cacheValid && kube.Coherent() ==> Cover(Names(kube.cached), kube.labels.Keys)
  {
    if kube.cacheValid && kube.Coherent() {
      NamesCover(kube.cached, kube.labels);
    }
  }

  /** Nothing went wrong before the point of no return. */
  predicate Unfailed(err: Option<Failure>) {
    err.None? || err.value == CompletionFailed || err.value == VerificationFailed
  }

  /**
    * After an interrupted relabelling the way back has reached all namespaces exactly when no namespace with the old
    * revision had been moved off it.
    */
  ghost predicate ReachedBack(labels: map<string, string>, half: map<string, string>, after: map<string, string>,
                              target: string, to: string) {
    && Interrupted(labels, target, half)
    && (AllLabelled(after, to) <==> forall name :: name in labels && labels[name] == to ==> half[name] == to)
  }

  /** The cache shows the labels as they were, and is there when they have changed. */
  ghost predicate Outdated(valid: bool, cached: seq<MeshNamespace>, now: map<string, string>, before: map<string, string>) {
    (valid ==> Lists(cached, before)) && (now != before ==> valid)
  }

  lemma OutdatedIs(valid: bool, cached: seq<MeshNamespace>, now: map<string, string>, before: map<string, string>)
    ensures Outdated(valid, cached, now, before) <==> (valid ==> Lists(cached, before)) && (now != before ==> valid)
  {
  }

  lemma ShownIsOld(labels: map<string, string>, half: map<string, string>, valid: bool, cached: seq<MeshNamespace>,
                   listing: seq<MeshNamespace>)
    requires Outdated(valid, cached, half, labels) && if valid then listing == cached else Lists(listing, half)
    ensures Lists(listing, labels)
  {
    hide Lists;
  }

  lemma BackFromHalf(labels: map<string, string>, half: map<string, string>, after: map<string, string>,
                     listing: seq<MeshNamespace>, target: string, to: string)
    requires Lists(listing, labels) && Interrupted(labels, target, half) && after == Patched(half, listing, to, |listing|)
    ensures ReachedBack(labels, half, after, target, to)
  {
    RelabelBackAfterInterruption(labels, half, listing, target, to);
  }

  /** Before the safety check has passed nothing happens; afterwards a rollback is attempted. */
  ghost predicate PreparationFailed(f: Failure, target: string, previous: seq<string>, t: seq<Event>, m: Option<Migration>, to: string) {
    if Recoverable(f) then RolledBack(t, target, previous, m, to)
    else t == [] && m.None? && (f == ConfigMapFailed || f == TagUnsafe)
  }

  lemma FailedEarly(target: string, previous: seq<string>)
    ensures PreparationFailed(ConfigMapFailed, target, previous, [], None, "")
    ensures PreparationFailed(TagUnsafe, target, previous, [], None, "")
  {
  }

  lemma FailedLate(f: Failure, target: string, previous: seq<string>, t: seq<Event>, m: Option<Migration>, to: string)
    requires Recoverable(f) && RolledBack(t, target, previous, m, to)
    ensures PreparationFailed(f, target, previous, t, m, to)
  {
    hide RolledBack;
  }

  ghost predicate PostInstallTrace(err: Option<Failure>, stop: StopAfter, before: seq<string>, target: string, previous: seq<string>,
                                   t: seq<Event>, m: Option<Migration>, to: string, names: seq<string>, mesh: set<string>) {
    && (if Sent(err, stop) then EndsInCompletion(t, before, target, previous, names, mesh) && m.None?
        else if err.None? then Prepared(t, target, previous, names) && m.None?
        else PreparationFailed(err.value, target, previous, t, m, to))
  }

  /** Only the request to complete changes the installed revisions. */
  ghost predicate PostInstallRevisions(err: Option<Failure>, stop: StopAfter, before: seq<string>, target: string, after: seq<string>) {
    if !Sent(err, stop) then after == before
    else if err == Some(CompletionFailed) then after == before || after == [target]
    else after == [target]
  }

  lemma RecoverableAre()
    ensures Recoverable(ControlPlaneFailed) && Recoverable(IngressFailed) && Recoverable(HealthFailed) && Recoverable(OrphansRemain)
    ensures forall m :: Recoverable(MigrationFailed(m))
  {
  }

  lemma QuietUpTo(t: seq<Event>, more: seq<Event>, target: string)
    requires (t == [] || AllQuiet(t, target)) && AllQuiet(more, target)
    ensures AllQuiet(t + more, target)
  {
  }

  lemma RestartIsQuiet(t: seq<Event>, target: string, names: seq<string>)
    requires |t| <= 1 && (t != [] ==> IsRestart(t[0], target, names))
    ensures AllQuiet(t, target)
  {
    hide ArePasses, AllFlawless;
  }

  lemma RolloutIsQuiet(t: seq<Event>, target: string)
    requires t == [] || exists ok :: t == [RolledOut(ok)]
    ensures AllQuiet(t, target)
  {
  }

  lemma MoveIs(target: string, restart: seq<Event>, rollout: seq<Event>, names: seq<string>)
    requires |restart| == 1 && IsRestart(restart[0], target, names) && restart[0].ok && rollout == [RolledOut(true)]
    ensures IsMove([Routed(target)] + restart + rollout, target, names)
  {
    hide IsRestart;
  }

  /** What comes after the first part of a trace, which is a prefix of the whole. */
  lemma TailOf(first: seq<Event>, second: seq<Event>, third: seq<Event>)
    ensures first <= first + second && (first + second)[|first|..] == second
    ensures first + second + third == first + (second + third)
  {
  }

  lemma TailFrom(first: seq<Event>, second: seq<Event>, t: seq<Event>)
    requires first + second <= t
    ensures first <= t && t[|first|..] == second + t[|first + second|..] && forall e :: e in second ==> e in t
  {
    forall e | e in second ensures e in t {
      assert e in first + second;
    }
  }

  lemma HealthIsQuiet(t: seq<Event>, target: string)
    requires forall e :: e in t ==> e.HealthSeen?
    ensures AllQuiet(t, target)
  {
  }

  lemma FailedTrace(err: Option<Failure>, stop: StopAfter, before: seq<string>, target: string, previous: seq<string>,
                    t: seq<Event>, m: Option<Migration>, to: string, names: seq<string>, mesh: set<string>)
    requires err.Some? && PreparationFailed(err.value, target, previous, t, m, to)
    ensures PostInstallTrace(err, stop, before, target, previous, t, m, to, names, mesh)
    ensures PostInstallRevisions(err, stop, before, target, before) && !Unfailed(err)
  {
    hide RolledBack;
  }

  lemma GuardEnded(guard: seq<Event>, retiring: set<string>, names: seq<string>, max: int, strict: bool)
    requires guard != [] && IsCheck(guard[|guard| - 1], retiring, names) && (strict ==> NoOrphans(guard[|guard| - 1], retiring, names))
    requires guard[|guard| - 1].OrphansSeen? ==> NoOrphans(guard[|guard| - 1], retiring, names) || CountChecks(guard) == Retries(max) + 1
    ensures GuardEnds(guard, retiring, names, if strict then None else Some(max))
  {
    hide NoOrphans;
  }

  lemma ClearedBy(planes: seq<Event>, move: seq<Event>, health: seq<Event>, guard: seq<Event>, target: string,
                  previous: seq<string>, names: seq<string>, retries: Option<int>)
    requires planes != [] && ControlPlaneReady(planes[0], target) && IsMove(move, target, names)
    requires |health| == 1 && health[0].HealthSeen? && Healthy(health[0].health)
    requires GuardEnds(guard, Retiring(previous, target), names, retries)
    requires Guarded(guard, target, Retiring(previous, target), names)
    requires AllQuiet(planes + move + (health + guard), target)
    ensures Cleared(planes + move + (health + guard), target, previous, names, retries)
  {
    hide Healthy, Retiring, AllQuiet, ControlPlaneReady, GuardEnds, IsMove, Guarded;
    var b := planes[1..];
    assert planes == [] + [planes[0]] + b && health == [health[0]];
    assert planes + move + (health + guard) == [] + [planes[0]] + b + move + [health[0]] + guard;
  }

  lemma PreparedIs(t: seq<Event>, target: string, previous: seq<string>, names: seq<string>)
    ensures Prepared(t, target, previous, names) <==> Cleared(t, target, previous, names, None)
  {
    hide Cleared;
  }

  lemma StoppedTrace(before: seq<string>, target: string, previous: seq<string>, t: seq<Event>, m: Option<Migration>, to: string, names: seq<string>, mesh: set<string>)
    requires Prepared(t, target, previous, names) && m.None?
    ensures PostInstallTrace(None, OrphanCheck, before, target, previous, t, m, to, names, mesh)
    ensures PostInstallRevisions(None, OrphanCheck, before, target, before)
  {
    hide Prepared;
  }

  lemma CompletedTrace(stop: StopAfter, before: seq<string>, target: string, previous: seq<string>,
                       t: seq<Event>, m: Option<Migration>, to: string, after: seq<string>, names: seq<string>, mesh: set<string>)
    requires stop != OrphanCheck && m.None? && Prepared(t, target, previous, names) && (after == [target] || after == before)
    ensures forall err :: Sent(err, stop) && (err == Some(CompletionFailed) || after == [target]) ==>
      && PostInstallTrace(err, stop, before, target, previous, t + [CanaryCompleted(before, target, mesh)], m, to, names, mesh)
      && PostInstallRevisions(err, stop, before, target, after)
    ensures Sent(None, stop) && Sent(Some(CompletionFailed), stop) && Sent(Some(VerificationFailed), stop)
  {
    hide Prepared;
    assert EndsInCompletion(t + [CanaryCompleted(before, target, mesh)], before, target, previous, names, mesh);
  }

  /** The failures of a run that has decided what to do and knows which revision to keep. */
  predicate AfterDecision(f: Failure) {
    f != BadTarget && f != StateUnknown && f != NoOldRevision
  }

  lemma OtherErrors()
    ensures forall f :: AfterDecision(f) <==> f != BadTarget && f != StateUnknown && f != NoOldRevision
  {
  }

  lemma PostInstallErrors(err: Option<Failure>, stop: StopAfter, before: seq<string>, target: string, previous: seq<string>,
                          t: seq<Event>, m: Option<Migration>, to: string, names: seq<string>, mesh: set<string>)
    requires PostInstallTrace(err, stop, before, target, previous, t, m, to, names, mesh)
    ensures err.Some? ==> AfterDecision(err.value)
  {
    hide RolledBack, Prepared, EndsInCompletion;
  }

  // ----- legal requests to ARM

  /**
    * The mesh is enabled where there is none, a canary starts beside exactly one other revision, and a completion keeps
    * an installed revision.
    */
  predicate Legal(e: Event) {
    match e
    case MeshEnabled(before, _) => before == []
    case CanaryStarted(before, r) => |before| == 1 && before[0] != r
    case CanaryCompleted(before, r, _) => r in before
    case _ => true
  }

  ghost predicate AllLegal(t: seq<Event>) {
    forall e :: e in t ==> Legal(e)
  }

  /** No canary starts below the installed revision. */
  ghost predicate NeverAbove(t: seq<Event>) {
    forall e :: e in t && e.CanaryStarted? && |e.before| == 1 ==> RevisionOrder(e.before[0], e.revision) <= 0
  }

  /**
    * A completion at this point follows all that has to precede it, and all other installed revisions were checked for
    * orphans; when the client's view of the cluster is sure to be right, in every mesh namespace of the cluster.
    */
  ghost predicate SafeAt(t: seq<Event>, i: nat, target: string, max: int, sure: bool)
    requires i < |t| && t[i].CanaryCompleted?
  {
    exists k: nat, previous: seq<string>, names: seq<string> ::
      k <= i && Justified(t[i], t[k..i], previous, names, Allowed(t[i], target, max), sure)
  }

  /** Only a completion of another revision than the target may leave orphans behind when the retries are used up. */
  function Allowed(e: Event, target: string, max: int): Option<int>
    requires e.CanaryCompleted?
  {
    if e.revision == target then None else Some(max)
  }

  ghost predicate Justified(e: Event, before: seq<Event>, previous: seq<string>, names: seq<string>, retries: Option<int>, sure: bool)
    requires e.CanaryCompleted?
  {
    && Cleared(before, e.revision, previous, names, retries)
    && Retiring(e.before, e.revision) == Retiring(previous, e.revision)
    && (sure ==> Cover(names, e.mesh))
  }

  /** Whatever revision is completed, it is done safely. */
  ghost predicate SafeTrace(t: seq<Event>, target: string, max: int, sure: bool) {
    forall i :: 0 <= i < |t| && t[i].CanaryCompleted? ==> SafeAt(t, i, target, max, sure)
  }

  lemma LessSure(t: seq<Event>, target: string, max: int, sure: bool, less: bool)
    requires SafeTrace(t, target, max, sure) && (less ==> sure)
    ensures SafeTrace(t, target, max, less)
  {
    hide Cleared, Retiring, Cover;
    forall i | 0 <= i < |t| && t[i].CanaryCompleted? ensures SafeAt(t, i, target, max, less) {
      assert SafeAt(t, i, target, max, sure);
      var k: nat, previous: seq<string>, names: seq<string> :|
        k <= i && Justified(t[i], t[k..i], previous, names, Allowed(t[i], target, max), sure);
      assert Justified(t[i], t[k..i], previous, names, Allowed(t[i], target, max), less);
    }
  }

  lemma NothingHappened(target: string, max: int, sure: bool)
    ensures AllLegal([]) && SafeTrace([], target, max, sure) && NeverAbove([])
  {
  }

  lemma QuietIsLegal(t: seq<Event>, revision: string, target: string, max: int, sure: bool)
    requires AllQuiet(t, revision)
    ensures AllLegal(t) && SafeTrace(t, target, max, sure) && NeverAbove(t)
  {
    hide SafeAt, RevisionOrder;
    forall e | e in t ensures !e.CanaryCompleted? && !e.CanaryStarted? && Legal(e) {
      assert Quiet(e, revision);
    }
  }

  lemma RoutedIsQuiet(revision: string)
    ensures AllQuiet([Routed(revision)], revision) && AllQuiet([], revision)
    ensures AllQuiet([FlipStopped(revision)], revision)
    ensures forall labels :: AllQuiet([RelabelStopped(revision, labels)], revision)
  {
  }

  lemma StartIsLegal(current: seq<string>, target: string, max: int, sure: bool)
    requires |current| == 1 && current[0] != target
    ensures var t := [CanaryStarted(current, target)];
            AllLegal(t) && SafeTrace(t, target, max, sure) && (RevisionOrder(current[0], target) <= 0 ==> NeverAbove(t))
  {
    hide SafeAt, RevisionOrder;
  }

  lemma EnableIsLegal(target: string, max: int, sure: bool)
    ensures var t := [MeshEnabled([], target)]; AllLegal(t) && SafeTrace(t, target, max, sure) && NeverAbove(t)
  {
    hide SafeAt, RevisionOrder;
  }

  lemma KeepIsLegal(t: seq<Event>, before: seq<string>, keep: string, stale: string, names: seq<string>, mesh: set<string>,
                    target: string, max: int, sure: bool)
    requires Cleared(t, keep, [stale], names, Some(max)) && AllQuiet(t, keep) && keep in before && keep != target
    requires Retiring(before, keep) == Retiring([stale], keep) && (sure ==> Cover(names, mesh))
    ensures var t' := t + [CanaryCompleted(before, keep, mesh)]; AllLegal(t') && SafeTrace(t', target, max, sure) && NeverAbove(t')
  {
    hide Cleared, Retiring, Cover, Legal;
    var e := CanaryCompleted(before, keep, mesh);
    assert Justified(e, t, [stale], names, Some(max), sure);
    CompletionIsLegal(t, e, [stale], names, target, max, sure);
  }

  lemma MoreLegal(a: seq<Event>, b: seq<Event>)
    requires AllLegal(a) && AllLegal(b)
    ensures AllLegal(a + b) && (NeverAbove(a) && NeverAbove(b) ==> NeverAbove(a + b))
  {
    hide Legal, RevisionOrder;
  }

  lemma BothLegal(a: seq<Event>, b: seq<Event>, target: string, max: int, sure: bool)
    requires AllLegal(a) && AllLegal(b) && SafeTrace(a, target, max, sure) && SafeTrace(b, target, max, sure)
    ensures AllLegal(a + b) && SafeTrace(a + b, target, max, sure)
    ensures NeverAbove(a) && NeverAbove(b) ==> NeverAbove(a + b)
  {
    hide Justified, Legal, RevisionOrder;
    MoreLegal(a, b);
    var t := a + b;
    forall i | 0 <= i < |t| && t[i].CanaryCompleted? ensures SafeAt(t, i, target, max, sure) {
      if i < |a| {
        assert a[i] == t[i] && SafeAt(a, i, target, max, sure);
        var k: nat, previous: seq<string>, names: seq<string> :|
          k <= i && Justified(a[i], a[k..i], previous, names, Allowed(a[i], target, max), sure);
        assert t[k..i] == a[k..i];
      } else {
        var j := i - |a|;
        assert b[j] == t[i] && SafeAt(b, j, target, max, sure);
        var k: nat, previous: seq<string>, names: seq<string> :|
          k <= j && Justified(b[j], b[k..j], previous, names, Allowed(b[j], target, max), sure);
        assert t[|a| + k..i] == b[k..j];
      }
    }
  }

  lemma OthersBeforeTarget(current: seq<string>, target: string)
    ensures Retiring(current + [target], target) == Retiring(current, target) && target in current + [target]
  {
  }

  lemma PostInstallIsLegal(err: Option<Failure>, stop: StopAfter, before: seq<string>, target: string, previous: seq<string>,
                           t: seq<Event>, m: Option<Migration>, to: string, names: seq<string>, mesh: set<string>, max: int, sure: bool)
    requires PostInstallTrace(err, stop, before, target, previous, t, m, to, names, mesh)
    requires target in before && Retiring(before, target) == Retiring(previous, target)
    requires Unfailed(err) && sure ==> Cover(names, mesh)
    ensures AllLegal(t) && SafeTrace(t, target, max, sure) && NeverAbove(t)
  {
    if Sent(err, stop) {
      hide *;
      SentIsUnfailed(err, stop);
      var pre := PreparedPart(err, stop, before, target, previous, t, m, to, names, mesh);
      PreparedIsQuiet(pre, target, previous, names);
      TargetIsJustified(pre, before, target, previous, names, mesh, max, sure);
      CompletionIsLegal(pre, CanaryCompleted(before, target, mesh), previous, names, target, max, sure);
    } else if err.None? {
      hide *;
      StoppedPart(err, stop, before, target, previous, t, m, to, names, mesh);
      PreparedIsQuiet(t, target, previous, names);
      QuietIsLegal(t, target, target, max, sure);
    } else {
      hide RolledBack, Prepared, AllLegal, SafeTrace, NeverAbove, Retiring, Cover;
      if Recoverable(err.value) {
        RolledBackIsLegal(t, target, previous, m, to, max, sure);
      } else {
        NothingHappened(target, max, sure);
      }
    }
  }

  lemma TargetIsJustified(pre: seq<Event>, before: seq<string>, target: string, previous: seq<string>, names: seq<string>,
                          mesh: set<string>, max: int, sure: bool)
    requires Prepared(pre, target, previous, names) && Retiring(before, target) == Retiring(previous, target)
    requires sure ==> Cover(names, mesh)
    ensures var e := CanaryCompleted(before, target, mesh); Justified(e, pre, previous, names, Allowed(e, target, max), sure)
  {
    hide Cleared, Retiring, Cover;
  }

  lemma SentIsUnfailed(err: Option<Failure>, stop: StopAfter)
    requires Sent(err, stop)
    ensures Unfailed(err)
  {
  }

  lemma PreparedPart(err: Option<Failure>, stop: StopAfter, before: seq<string>, target: string, previous: seq<string>,
                     t: seq<Event>, m: Option<Migration>, to: string, names: seq<string>, mesh: set<string>) returns (pre: seq<Event>)
    requires PostInstallTrace(err, stop, before, target, previous, t, m, to, names, mesh) && Sent(err, stop)
    ensures t == pre + [CanaryCompleted(before, target, mesh)] && Prepared(pre, target, previous, names)
  {
    hide Prepared, Sent;
    pre :| t == pre + [CanaryCompleted(before, target, mesh)] && Prepared(pre, target, previous, names);
  }

  lemma StoppedPart(err: Option<Failure>, stop: StopAfter, before: seq<string>, target: string, previous: seq<string>,
                    t: seq<Event>, m: Option<Migration>, to: string, names: seq<string>, mesh: set<string>)
    requires PostInstallTrace(err, stop, before, target, previous, t, m, to, names, mesh) && !Sent(err, stop) && err.None?
    ensures Prepared(t, target, previous, names)
  {
    hide Prepared, Sent;
  }

  lemma PreparedIsQuiet(t: seq<Event>, target: string, previous: seq<string>, names: seq<string>)
    requires Prepared(t, target, previous, names)
    ensures AllQuiet(t, target)
  {
    hide AllQuiet, Healthy, GuardEnds, ControlPlaneReady, IsMove, Guarded;
  }

  lemma CompletionIsLegal(pre: seq<Event>, e: Event, previous: seq<string>, names: seq<string>, target: string, max: int, sure: bool)
    requires e.CanaryCompleted? && e.revision in e.before && AllQuiet(pre, e.revision)
    requires Justified(e, pre, previous, names, Allowed(e, target, max), sure)
    ensures AllLegal(pre + [e]) && SafeTrace(pre + [e], target, max, sure) && NeverAbove(pre + [e])
  {
    hide Justified, RevisionOrder;
    var t := pre + [e];
    QuietIsLegal(pre, e.revision, target, max, sure);
    assert AllLegal([e]) && NeverAbove([e]);
    MoreLegal(pre, [e]);
    forall i | 0 <= i < |pre| ensures !t[i].CanaryCompleted? {
      assert pre[i] in pre && Quiet(pre[i], e.revision);
    }
    assert t[0..|pre|] == pre && Justified(t[|pre|], t[0..|pre|], previous, names, Allowed(e, target, max), sure);
  }

  lemma RolledBackIsLegal(t: seq<Event>, target: string, previous: seq<string>, m: Option<Migration>, to: string, max: int, sure: bool)
    requires RolledBack(t, target, previous, m, to)
    ensures AllLegal(t) && SafeTrace(t, target, max, sure) && NeverAbove(t)
  {
    hide AllLegal, SafeTrace, NeverAbove, AllQuiet, RevisionOrder, AllFit, Others;
    var pre, post :| t == pre + post && AllQuiet(pre, target) && RollbackPart(post, target, previous, m, to);
    QuietIsLegal(pre, target, target, max, sure);
    if m.Some? {
      var more :| post == [RollbackStarted(to)] + more && AllQuiet(more, to);
      QuietIsLegal(more, to, target, max, sure);
      RollbackIsLegal(to, target, max, sure);
      BothLegal([RollbackStarted(to)], more, target, max, sure);
      BothLegal(pre, post, target, max, sure);
    } else {
      assert pre + [] == pre;
    }
  }

  lemma RollbackIsLegal(to: string, target: string, max: int, sure: bool)
    ensures var t := [RollbackStarted(to)]; AllLegal(t) && SafeTrace(t, target, max, sure) && NeverAbove(t)
  {
    hide SafeAt, RevisionOrder;
  }

  lemma PostInstallLeaves(err: Option<Failure>, stop: StopAfter, before: seq<string>, target: string, after: seq<string>)
    requires PostInstallRevisions(err, stop, before, target, after)
    ensures after == before || after == [target]
    ensures err.None? && stop == Never ==> after == [target]
  {
  }

  /** Of two installed revisions the newer goes and the older stays. */
  lemma TwoRevisions(installed: seq<string>, stale: string, kept: string, target: string)
    requires |installed| == 2 && "" !in installed && stale in installed
    requires AllFit(installed) ==> forall r :: r in installed ==> NoBetter(r, stale, true)
    requires !Others(installed, stale) ==> kept == ""
    requires Others(installed, stale) ==> kept in installed && kept != stale
    ensures kept == "" <==> installed[0] == installed[1]
    ensures kept != "" ==> kept in installed && Retiring(installed, kept) == Retiring([stale], kept)
    ensures AllFit(installed) && kept != "" ==>
      forall r :: r in installed ==> RevisionOrder(kept, r) <= 0 && RevisionOrder(r, stale) <= 0
    ensures AllFit(installed) && Fits(target) && !AboveTarget(installed, target) && kept != "" ==> RevisionOrder(kept, target) <= 0
  {
    hide RevisionOrder, Fits;
    assert installed[0] in installed && installed[1] in installed;
    if installed[0] != installed[1] {
      assert Others(installed, stale);
      if AllFit(installed) {
        OrderIsTotalPreorder(kept, kept, kept);
        if Fits(target) {
          AboveTargetIs(installed, target);
        }
      }
    }
  }

  lemma ReconcileFindsTarget(state: State, target: string, r: string)
    requires "" !in state.installed && exists s :: Describes(s, state, target) && Chosen(s) == Reconcile
    requires r == target || r in state.installed
    requires AboveTarget(state.installed, target) <==> r != target
    ensures r in state.installed
  {
    hide AboveTarget;
    var s :| Describes(s, state, target) && Chosen(s) == Reconcile;
    ActionsAreSound(state, target, s);
  }

  lemma UpgradeIsUp(state: State, target: string)
    requires |state.installed| == 1 && exists s :: Describes(s, state, target) && Chosen(s) == Upgrade
    ensures state.installed[0] != target && RevisionOrder(state.installed[0], target) <= 0
  {
    var s :| Describes(s, state, target) && Chosen(s) == Upgrade;
    ActionsAreSound(state, target, s);
  }

  lemma CleanupIsUp(state: State, target: string)
    requires |state.installed| == 2 && exists s :: Describes(s, state, target) && Chosen(s) == CleanupAndUpgrade
    ensures Comparable(state.installed, target) ==>
      AllFit(state.installed) && Fits(target) && !AboveTarget(state.installed, target)
  {
    hide RevisionOrder, Fits, Best;
    var s :| Describes(s, state, target) && Chosen(s) == CleanupAndUpgrade;
    ActionsAreSound(state, target, s);
  }

  lemma EmptyIsNoRevision()
    ensures !IsRevision("")
  {
  }

  lemma FitsStay(before: seq<string>, after: seq<string>, target: string)
    requires forall r :: r in after ==> r in before || (r == target && IsRevision(r))
    ensures AllFit(before) && Fits(target) ==> AllFit(after) && Comparable(before, target)
  {
    hide Fits, IsRevision;
  }

  /** Once a run has settled on its target, the cluster classifies as being there. */
  lemma SettledRunIsAtTarget(state: State, target: string, s: Scenario)
    requires Ready(state) && !state.inProgress && state.installed == [target] && Describes(s, state, target)
    ensures s == AlreadyAtTarget && Chosen(s) == Reconcile
  {
    hide RevisionOrder;
    assert target in state.installed;
  }

  /** A rollback and nothing else that matters. */
  ghost predicate IsRollback(t: seq<Event>, to: string) {
    exists more :: t == [RollbackStarted(to)] + more && AllQuiet(more, to)
  }

  lemma RollbackIs(more: seq<Event>, to: string)
    requires AllQuiet(more, to)
    ensures IsRollback([RollbackStarted(to)] + more, to)
  {
  }

  lemma PickedIsNewest(previous: seq<string>, target: string, picked: string)
    requires Others(previous, target) && AllFit(previous) ==>
               forall r :: r in previous && r != target ==> NoBetter(r, picked, true)
    ensures Others(previous, target) && AllFit(previous) ==>
      forall r :: r in previous && r != target ==> RevisionOrder(r, picked) <= 0
  {
    hide RevisionOrder, Fits;
  }

  lemma NoEvents(target: string)
    ensures AllQuiet([], target) && CountChecks([]) == 0 && CountRestarts([]) == 0
  {
  }

  lemma RetriesAre(max: int)
    ensures max <= Retries(max) && (max >= 0 ==> Retries(max) == max) && (max < 0 ==> Retries(max) == 0)
  {
  }

  lemma NothingGuarded(target: string, retiring: set<string>, names: seq<string>)
    ensures Guarded([], target, retiring, names)
  {
  }

  lemma CheckIsQuiet(e: Event, target: string, retiring: set<string>, names: seq<string>)
    requires IsCheck(e, retiring, names)
    ensures e.OrphansSeen? && AllQuiet([e], target)
  {
  }

  /** A check may follow a rollout; afterwards it is the last step. */
  lemma CheckCounts(t: seq<Event>, more: seq<Event>, target: string, retiring: set<string>, names: seq<string>)
    requires |more| == 1 && IsCheck(more[0], retiring, names) && AllQuiet(t, target)
    requires Guarded(t, target, retiring, names) && (t != [] ==> t[|t| - 1] == RolledOut(true))
    ensures AllQuiet(t + more, target) && Guarded(t + more, target, retiring, names)
    ensures CountChecks(t + more) == CountChecks(t) + 1 && CountRestarts(t + more) == CountRestarts(t)
    ensures (t + more)[|t + more| - 1] == more[0] && (t != [] ==> (t + more)[|t + more| - 2] == RolledOut(true))
  {
    hide *;
    CheckIsQuiet(more[0], target, retiring, names);
    QuietUpTo(t, more, target);
    CountsAdd(t, more);
    CountOne(more[0]);
    assert more == [more[0]];
    assert t != [] ==> (t + more)[|t + more| - 2] == t[|t| - 1];
    GuardedSoFar(t, more[0], target, retiring, names);
  }

  lemma GuardedSoFar(t: seq<Event>, e: Event, target: string, retiring: set<string>, names: seq<string>)
    requires Guarded(t, target, retiring, names) && (e.OrphansSeen? ==> IsCheck(e, retiring, names))
    requires t != [] && t[|t| - 1].OrphansSeen? ==> !NoOrphans(t[|t| - 1], retiring, names) && IsRestart(e, target, names)
    requires |t| >= 2 && t[|t| - 2].OrphansSeen? ==> t[|t| - 1].ok
    ensures Guarded(t + [e], target, retiring, names)
  {
    hide NoOrphans, IsCheck, ArePasses, AllFlawless;
    var all := t + [e];
    forall i | 0 <= i < |all| && all[i].OrphansSeen? ensures GuardedAt(all, i, target, retiring, names) {
      if i < |t| {
        assert all[i] == t[i] && GuardedAt(t, i, target, retiring, names);
        if i + 1 < |t| {
          assert all[i + 1] == t[i + 1];
        }
      }
    }
  }

  /** A restart of all namespaces, and a rollout that may fail when nothing in the restart failed. */
  ghost predicate IsRound(t: seq<Event>, ok: bool, target: string, names: seq<string>) {
    && 1 <= |t| <= 2 && IsRestart(t[0], target, names)
    && (|t| == 2 ==> t[0].ok && t[1] == RolledOut(ok))
    && (|t| == 1 ==> !ok)
  }

  lemma RoundIs(t: seq<Event>, target: string, names: seq<string>)
    requires |t| == 1 && IsRestart(t[0], target, names)
    ensures !t[0].ok ==> IsRound(t, false, target, names)
    ensures t[0].ok ==> IsRound(t, false, target, names) && forall ok :: IsRound(t + [RolledOut(ok)], ok, target, names)
  {
    hide ArePasses, AllFlawless;
  }

  lemma {:induction false} RoundCounts(t: seq<Event>, round: seq<Event>, ok: bool, target: string, retiring: set<string>, names: seq<string>)
    requires IsRound(round, ok, target, names) && AllQuiet(t, target)
    requires Guarded(t, target, retiring, names) && t != [] && t[|t| - 1].OrphansSeen? && !NoOrphans(t[|t| - 1], retiring, names)
    requires |t| >= 2 ==> t[|t| - 2] == RolledOut(true)
    ensures AllQuiet(t + round, target) && Guarded(t + round, target, retiring, names)
    ensures CountChecks(t + round) == CountChecks(t) && CountRestarts(t + round) == CountRestarts(t) + 1
    ensures !(t + round)[|t + round| - 1].OrphansSeen? && (ok ==> (t + round)[|t + round| - 1] == RolledOut(true))
  {
    hide NoOrphans, IsCheck, ArePasses, AllFlawless, CountChecks, CountRestarts;
    CountsAdd(t, round);
    CountOne(round[0]);
    GuardedSoFar(t, round[0], target, retiring, names);
    if |round| == 1 {
      assert round == [round[0]];
    } else {
      CountOne(round[1]);
      CountsAdd([round[0]], [round[1]]);
      assert round == [round[0]] + [round[1]] && t + round == t + [round[0]] + [round[1]];
      GuardedSoFar(t + [round[0]], round[1], target, retiring, names);
    }
  }

  /**
    * An orphan found by a check and still seen by the pass that follows has its workload acted on in its namespace; and
    * when the guard goes on after that pass, every namespace was seen and every such workload restarted.
    */
  lemma SeenOrphansAreActedOn(t: seq<Event>, target: string, retiring: set<string>, names: seq<string>, i: nat, n: nat, p: Pod)
    requires Guarded(t, target, retiring, names) && target !in retiring
    requires i + 1 < |t| && t[i].OrphansSeen? && n < |t[i].pods| && p in Orphans(t[i].pods[n], retiring)
    ensures t[i + 1].Restarted? && n < |names| && |t[i + 1].passes| == |names|
    ensures var pass := t[i + 1].passes[n];
            && (i + 2 < |t| ==> Observed(pass))
            && (Observed(pass) && p in pass[0].pods.value ==>
                  exists w, ok :: Replaces(p, pass[1].sets.value, w) && (i + 2 < |t| ==> ok) && Acted(names[n], w, ok) in pass)
  {
    hide Replaces;
    var e := t[i + 1];
    var pass := e.passes[n];
    assert GuardedAt(t, i, target, retiring, names);
    if Observed(pass) && p in pass[0].pods.value {
      PassReplacesStale(pass, names[n], target);
    }
  }

  /** The mesh was enabled, then the control planes were found ready with the target among them, then the mesh healthy. */
  ghost predicate Installed(t: seq<Event>, target: string) {
    exists ready, b: seq<Event>, health ::
      && t == [MeshEnabled([], target), ready] + b + [health]
      && ControlPlaneReady(ready, target) && health.HealthSeen? && Healthy(health.health)
  }

  lemma InstalledBy(target: string, planes: seq<Event>, health: seq<Event>)
    requires planes != [] && ControlPlaneReady(planes[0], target)
    requires |health| == 1 && health[0].HealthSeen? && Healthy(health[0].health)
    ensures Installed([MeshEnabled([], target)] + planes + health, target)
  {
    hide ControlPlaneReady, Healthy;
    var t := [MeshEnabled([], target)] + planes + health;
    assert t == [MeshEnabled([], target), planes[0]] + planes[1..] + [health[0]];
  }

  // ----- namespaces that follow a tag

  /** Some namespace is labelled with neither the target nor any revision, so it follows a tag. */
  ghost predicate UsesTag(labels: map<string, string>, target: string) {
    exists name :: name in labels && labels[name] != "" && labels[name] != target && !IsRevision(labels[name])
  }

  lemma TagUsed(kube: KubeClient, target: string)
    requires kube.cacheValid
    ensures kube.Coherent() ==> ((exists n :: n in kube.cached && TagBased(n, target)) <==> UsesTag(kube.labels, target))
  {
    hide IsRevision;
    if kube.Coherent() {
      if n :| n in kube.cached && TagBased(n, target) {
        assert kube.labels[n.name] == n.rev;
      }
      if name :| name in kube.labels && kube.labels[name] != "" && kube.labels[name] != target && !IsRevision(kube.labels[name]) {
        assert TagBased(MeshNamespace(name, kube.labels[name]), target);
      }
    }
  }

  /** Once all namespaces carry one revision, as after a consolidation without a tag, no sign of a tag is left. */
  lemma SettledHidesTags(labels: map<string, string>, keep: string, target: string)
    requires AllLabelled(labels, keep) && labels != map[]
    ensures UsesTag(labels, target) <==> keep != "" && keep != target && !IsRevision(keep)
  {
    hide IsRevision;
    var name :| name in labels;
    assert labels[name] == keep;
  }

  /** A namespace that follows a tag is relabelled to the revision to keep, and then nothing speaks of the tag any more. */
  lemma ConsolidationDropsTag(labels: map<string, string>, listing: seq<MeshNamespace>, keep: string, target: string)
    requires Lists(listing, labels) && UsesTag(labels, target) && IsRevision(keep)
    ensures !UsesTag(Patched(labels, listing, keep, |listing|), target)
  {
    hide IsRevision;
    AllReached(labels, listing, keep, true);
    PatchedLabels(labels, listing, keep, |listing|);
    SettledHidesTags(Patched(labels, listing, keep, |listing|), keep, target);
  }

  predicate TagBased(n: MeshNamespace, target: string) {
    n.rev != "" && n.rev != target && !IsRevision(n.rev)
  }

  lemma NoneFound(names: seq<string>, pods: seq<seq<Pod>>, retiring: set<string>, orphaned: seq<Orphan>)
    requires |pods| == |names| && forall o :: o in orphaned <==> IsOrphan(o, names, pods, retiring)
    ensures |orphaned| == 0 <==> NoOrphans(OrphansSeen(retiring, names, pods), retiring, names)
  {
    hide Orphans;
    if |orphaned| > 0 {
      assert orphaned[0] in orphaned;
    } else {
      forall i | 0 <= i < |pods| ensures Orphans(pods[i], retiring) == {} {
        forall p ensures p !in Orphans(pods[i], retiring) {
          assert Orphan(names[i], p) !in orphaned;
        }
      }
    }
  }
}
