/** The stamps a service is expanded for and the pipeline used for each. */
module StampResolution {
  import opened Wrappers
  import opened Ordering
  import opened GraphTypes
  import opened Pipelines
  import opened ServiceTree
  import opened GraphSpec

  type StampPipelines = map<Stamp, map<string, Pipeline>>

  datatype BuildError =
    | AlreadyRecorded(serviceGroup: string)
    | PipelineNotFound(serviceGroup: string)
    | PipelineNotFoundInStamp(serviceGroup: string, stamp: Stamp)
    | MultipleSubscriptions(serviceGroup: string)
    | StampedGroupInUnstampedService(serviceGroup: string, name: string)
    | InconsistentStamped(name: string)
    | ConflictingMetadata(name: string)
    | SubscriptionAlreadyRecorded(serviceGroup: string)
    | LookupFailed
    | NodeNotFound(id: Identifier)
    | UnknownTargetGroup(id: Identifier, name: string)
    | UnknownSourceGroup(id: Identifier)
    | StampedTarget(id: Identifier, name: string)

  predicate SomeStampSet(sp: StampPipelines) {
    exists st :: st in sp && st.IsSet()
  }

  predicate StampLess(a: Stamp, b: Stamp) { StringLess(a.value, b.value) }

  lemma StampLessIsTotal()
    ensures TotalOrder(StampLess)
  {
    StringLessIsTotal();
  }

  /** One unstamped expansion, or one per set stamp in stamp order. */
  ghost predicate Resolved(s: Service, sp: StampPipelines, its: seq<StampIteration>) {
    if s.IsStamped() && SomeStampSet(sp) then
      && (forall it :: it in its ==> it.stamp.IsSet() && it.stamp in sp &&
                                     s.serviceGroup in sp[it.stamp] && it.pipeline == sp[it.stamp][s.serviceGroup])
      && (forall st :: st in sp && st.IsSet() ==> exists it :: it in its && it.stamp == st)
      && (forall i, j :: 0 <= i < j < |its| ==> StampLess(its[i].stamp, its[j].stamp))
    else
      && |its| == 1 && its[0].stamp == Unstamped()
      && exists st :: st in sp && s.serviceGroup in sp[st] && its[0].pipeline == sp[st][s.serviceGroup]
  }

  /** The expansions a service may be given; they differ only in which stamp an unstamped service takes its pipeline from. */
  ghost predicate Candidate(s: Service, sp: StampPipelines, it: StampIteration) {
    if s.IsStamped() && SomeStampSet(sp) then
      && it.stamp.IsSet() && it.stamp in sp
      && s.serviceGroup in sp[it.stamp] && it.pipeline == sp[it.stamp][s.serviceGroup]
    else
      && it.stamp == Unstamped()
      && exists st :: st in sp && s.serviceGroup in sp[st] && it.pipeline == sp[st][s.serviceGroup]
  }

  lemma ResolvedCandidates(s: Service, sp: StampPipelines, its: seq<StampIteration>)
    requires Resolved(s, sp, its)
    ensures forall it :: it in its ==> Candidate(s, sp, it)
    ensures forall i, j :: 0 <= i < j < |its| ==> its[i].stamp != its[j].stamp
  {
    StampLessIsTotal();
  }

  predicate Resolvable(s: Service, sp: StampPipelines) {
    if s.IsStamped() && SomeStampSet(sp) then
      forall st :: st in sp && st.IsSet() ==> s.serviceGroup in sp[st]
    else
      exists st :: st in sp && s.serviceGroup in sp[st]
  }

  ghost predicate PipelinesOk(sp: StampPipelines) {
    forall st, sg :: st in sp && sg in sp[st] ==> WellFormed(sp[st][sg]) && sp[st][sg].serviceGroup == sg
  }

  method AnyPipeline(sg: string, sp: StampPipelines) returns (r: Option<Pipeline>)
    ensures r.None? <==> forall st :: st in sp ==> sg !in sp[st]
    ensures r.Some? ==> exists st :: st in sp && sg in sp[st] && r.value == sp[st][sg]
  {
    var remaining := sp.Keys;
    while remaining != {}
      invariant remaining <= sp.Keys
      invariant forall st :: st in sp && st !in remaining ==> sg !in sp[st]
    {
      var st :| st in remaining;
      if sg in sp[st] {
        return Some(sp[st][sg]);
      }
      remaining := remaining - {st};
    }
    r := None;
  }

  method SetStamps(sp: StampPipelines) returns (stamps: seq<Stamp>)
    ensures forall st :: st in stamps <==> st in sp && st.IsSet()
    ensures forall i, j :: 0 <= i < j < |stamps| ==> StampLess(stamps[i], stamps[j])
  {
    stamps := [];
    var remaining := sp.Keys;
    while remaining != {}
      invariant remaining <= sp.Keys
      invariant forall st :: st in stamps <==> st in sp && st.IsSet() && st !in remaining
    {
      var st :| st in remaining;
      if st.IsSet() {
        stamps := stamps + [st];
      }
      remaining := remaining - {st};
    }
    StampLessIsTotal();
    stamps := SortCompact(StampLess, stamps);
  }

  method ResolveIterations(s: Service, sp: StampPipelines) returns (r: Result<seq<StampIteration>, BuildError>)
    ensures r.Ok? <==> Resolvable(s, sp)
    ensures r.Ok? ==> Resolved(s, sp, r.value)
  {
    var stamps := [];
    if s.IsStamped() {
      stamps := SetStamps(sp);
    }
    if stamps == [] {
      assert s.IsStamped() ==> !SomeStampSet(sp);
      var p := AnyPipeline(s.serviceGroup, sp);
      if p.None? {
        return Err(PipelineNotFound(s.serviceGroup));
      }
      return Ok([StampIteration(Unstamped(), p.value)]);
    }
    assert stamps[0] in sp && stamps[0].IsSet();
    var its := [];
    for i := 0 to |stamps|
      invariant |its| == i
      invariant forall k :: 0 <= k < i ==> stamps[k] in sp && s.serviceGroup in sp[stamps[k]] &&
                                           its[k] == StampIteration(stamps[k], sp[stamps[k]][s.serviceGroup])
    {
      if s.serviceGroup !in sp[stamps[i]] {
        return Err(PipelineNotFoundInStamp(s.serviceGroup, stamps[i]));
      }
      its := its + [StampIteration(stamps[i], sp[stamps[i]][s.serviceGroup])];
    }
    forall st | st in sp && st.IsSet() ensures exists it :: it in its && it.stamp == st {
      var k :| 0 <= k < |stamps| && stamps[k] == st;
      assert its[k] in its;
    }
    r := Ok(its);
  }
}
