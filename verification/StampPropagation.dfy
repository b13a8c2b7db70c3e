/** Inheritance of stamping down a service tree, and the validation of topologies. */
module StampPropagation {
  import opened Wrappers
  import opened Strings
  import opened ServiceTree

  /** The tree after every unset service under a stamped parent has been marked stamped. */
  function Propagate(s: Service, parentStamped: bool): Service
    decreases s, 1
  {
    var own := if parentStamped && s.stamped.None? then Some(true) else s.stamped;
    s.(stamped := own, children := PropagateForest(s.children, own.Some? && own.value))
  }

  function PropagateForest(ss: seq<Service>, parentStamped: bool): (r: seq<Service>)
    ensures |r| == |ss|
    decreases ss, 0
  {
    if ss == [] then [] else [Propagate(ss[0], parentStamped)] + PropagateForest(ss[1..], parentStamped)
  }

  lemma {:induction false} PropagateAt(ss: seq<Service>, parentStamped: bool, i: nat)
    requires i < |ss|
    ensures PropagateForest(ss, parentStamped)[i] == Propagate(ss[i], parentStamped)
  {
    if i > 0 {
      PropagateAt(ss[1..], parentStamped, i - 1);
    }
  }

  lemma PropagateConcat(a: seq<Service>, b: seq<Service>, parentStamped: bool)
    ensures PropagateForest(a + b, parentStamped) == PropagateForest(a, parentStamped) + PropagateForest(b, parentStamped)
  {
    forall i | 0 <= i < |a + b|
      ensures PropagateForest(a + b, parentStamped)[i] == (PropagateForest(a, parentStamped) + PropagateForest(b, parentStamped))[i]
    {
      PropagateAt(a + b, parentStamped, i);
      if i < |a| {
        PropagateAt(a, parentStamped, i);
      } else {
        PropagateAt(b, parentStamped, i - |a|);
      }
    }
  }

  /** Propagating without a stamped parent first changes nothing later; in particular propagation is idempotent. */
  lemma {:induction false} PropagateAgain(s: Service, before: bool, parentStamped: bool)
    requires before ==> parentStamped
    ensures Propagate(Propagate(s, before), parentStamped) == Propagate(s, parentStamped)
    decreases s, 1
  {
    PropagateForestAgain(s.children, Propagate(s, before).IsStamped(), Propagate(s, parentStamped).IsStamped());
  }

  lemma {:induction false} PropagateForestAgain(ss: seq<Service>, before: bool, parentStamped: bool)
    requires before ==> parentStamped
    ensures PropagateForest(PropagateForest(ss, before), parentStamped) == PropagateForest(ss, parentStamped)
    decreases ss, 0
  {
    if ss != [] {
      PropagateAgain(ss[0], before, parentStamped);
      PropagateForestAgain(ss[1..], before, parentStamped);
      assert PropagateForest(ss, before)[1..] == PropagateForest(ss[1..], before);
    }
  }

  lemma {:induction false} PropagateKeepsGroups(s: Service, parentStamped: bool)
    ensures Groups(Propagate(s, parentStamped)) == Groups(s)
    decreases s, 1
  {
    PropagateForestKeepsGroups(s.children, Propagate(s, parentStamped).IsStamped());
  }

  lemma {:induction false} PropagateForestKeepsGroups(ss: seq<Service>, parentStamped: bool)
    ensures ForestGroups(PropagateForest(ss, parentStamped)) == ForestGroups(ss)
    decreases ss, 0
  {
    if ss != [] {
      PropagateKeepsGroups(ss[0], parentStamped);
      PropagateForestKeepsGroups(ss[1..], parentStamped);
      assert PropagateForest(ss, parentStamped)[1..] == PropagateForest(ss[1..], parentStamped);
    }
  }

  // ----- validation

  datatype Entrypoint = Entrypoint(identifier: string, metadata: map<string, string>)

  datatype TopologyError =
    | InvalidServiceGroup(group: string)
    | StampOptOut(group: string)
    | NoPurpose(group: string)
    | NoPipeline(group: string)
    | InvalidTree(duplicates: set<string>, entrypoints: seq<string>)

  const PREFIX := "Microsoft.Azure.ARO."

  predicate ServiceGroupOk(group: string) {
    var parts := Split(group, '.');
    PREFIX <= group && 4 <= |parts| <= 6 && parts[3] != ""
  }

  /** A field that is set, or that the metadata can fill. */
  predicate Defaultable(field: string, metadata: map<string, string>, key: string) {
    field != "" || (key in metadata && metadata[key] != "")
  }

  predicate ServiceOk(s: Service, parentStamped: bool) {
    && ServiceGroupOk(s.serviceGroup)
    && !(parentStamped && s.stamped.Some? && !s.stamped.value)
    && Defaultable(s.purpose, s.metadata, "purpose")
    && Defaultable(s.pipelinePath, s.metadata, "pipeline")
  }

  /** Every service of the tree is valid under the stamping it inherits. */
  ghost predicate TreeOk(s: Service, parentStamped: bool) {
    && ServiceOk(s, parentStamped)
    && forall i :: 0 <= i < |s.children| ==> TreeOk(s.children[i], parentStamped || s.IsStamped())
  }

  lemma TreeOkIs(s: Service, parentStamped: bool)
    ensures TreeOk(s, parentStamped) <==>
      ServiceOk(s, parentStamped) && forall i :: 0 <= i < |s.children| ==> TreeOk(s.children[i], parentStamped || s.IsStamped())
  {
  }

  lemma ServiceOkIs(s: Service, parentStamped: bool)
    ensures ServiceOk(s, parentStamped) <==>
      && ServiceGroupOk(s.serviceGroup)
      && !(parentStamped && s.stamped.Some? && !s.stamped.value)
      && Defaultable(s.purpose, s.metadata, "purpose")
      && Defaultable(s.pipelinePath, s.metadata, "pipeline")
  {
  }

  // ----- what a valid tree is, service by service

  lemma SplitStep(part: string, more: string, rest: string)
    requires '.' !in part
    ensures Split(part + ['.'] + more + rest, '.') == [part] + Split(more + rest, '.')
  {
    SplitPrefix(part, more + rest, '.');
    hide *;
    assert part + ['.'] + more + rest == part + ['.'] + (more + rest);
  }

  lemma PrefixIs()
    ensures PREFIX == "Microsoft" + ['.'] + "Azure.ARO."
    ensures "Azure.ARO." == "Azure" + ['.'] + "ARO."
    ensures "ARO." == "ARO" + ['.'] + ""
  {
  }

  lemma SplitThree(all: string, a: string, two: string, b: string, one: string, c: string, rest: string)
    requires all == a + ['.'] + two && two == b + ['.'] + one && one == c + ['.'] + ""
    requires '.' !in a && '.' !in b && '.' !in c
    ensures Split(all + rest, '.') == [a, b, c] + Split(rest, '.')
  {
    SplitStep(a, two, rest);
    SplitStep(b, one, rest);
    SplitStep(c, "", rest);
    hide *;
    assert "" + rest == rest;
  }

  lemma SplitPrefixed(rest: string)
    ensures Split(PREFIX + rest, '.') == ["Microsoft", "Azure", "ARO"] + Split(rest, '.')
  {
    PrefixIs();
    SplitThree(PREFIX, "Microsoft", "Azure.ARO.", "Azure", "ARO.", "ARO", rest);
  }

  /** Between one and three parts follow the fixed ones, and the first of them is not empty. */
  ghost predicate IsServiceGroup(group: string) {
    exists parts: seq<string> ::
      && 1 <= |parts| <= 3 && parts[0] != "" && (forall p :: p in parts ==> '.' !in p)
      && group == PREFIX + Join(parts, '.')
  }

  /** The fixed parts are followed by the parts of the rest. */
  lemma RestDecides(group: string, rest: string)
    requires group == PREFIX + rest
    ensures ServiceGroupOk(group) <==> 1 <= |Split(rest, '.')| <= 3 && Split(rest, '.')[0] != ""
  {
    SplitPrefixed(rest);
    hide Split;
    assert Split(group, '.')[3..] == Split(rest, '.');
  }

  lemma ServiceGroupOkIs(group: string)
    ensures ServiceGroupOk(group) <==> IsServiceGroup(group)
  {
    if ServiceGroupOk(group) {
      var rest := group[|PREFIX|..];
      RestDecides(group, rest);
      JoinOfSplit(rest, '.');
    }
    if IsServiceGroup(group) {
      hide ServiceGroupOk, Split, Join;
      var parts: seq<string> :|
        && 1 <= |parts| <= 3 && parts[0] != "" && (forall p :: p in parts ==> '.' !in p)
        && group == PREFIX + Join(parts, '.');
      RestDecides(group, Join(parts, '.'));
      SplitOfJoin(parts, '.');
    }
  }

  /** The name has the required form, and purpose and pipeline are set or come from the metadata. */
  ghost predicate Described(t: Service) {
    && IsServiceGroup(t.serviceGroup)
    && (t.purpose != "" || ("purpose" in t.metadata && t.metadata["purpose"] != ""))
    && (t.pipelinePath != "" || ("pipeline" in t.metadata && t.metadata["pipeline"] != ""))
  }

  /** Some service declares itself unstamped although it lies below a stamped one, or below a stamped parent of the whole tree. */
  ghost predicate OptsOut(s: Service, parentStamped: bool) {
    exists t :: t in Subtrees(s) && t.stamped == Some(false) && (parentStamped || BelowStamped(s, t))
  }

  ghost predicate BelowStamped(s: Service, t: Service) {
    exists u :: u in Subtrees(s) && u.stamped == Some(true) && t in ForestSubtrees(u.children)
  }

  lemma {:induction false} InSomeTree(ss: seq<Service>, t: Service) returns (i: nat)
    requires t in ForestSubtrees(ss)
    ensures i < |ss| && t in Subtrees(ss[i])
  {
    if t in Subtrees(ss[0]) {
      i := 0;
    } else {
      i := InSomeTree(ss[1..], t);
      i := i + 1;
    }
  }

  lemma {:induction false} BelowStays(s: Service, u: Service)
    requires u in Subtrees(s)
    ensures ForestSubtrees(u.children) <= Subtrees(s)
  {
    if u != s {
      var i := InSomeTree(s.children, u);
      BelowStays(s.children[i], u);
      ForestContains(s.children);
    }
  }

  /** A tree is valid exactly when every service in it is described and none opts out of an inherited stamping. */
  lemma {:induction false} TreeOkMeans(s: Service, parentStamped: bool)
    ensures TreeOk(s, parentStamped) <==> (forall t :: t in Subtrees(s) ==> Described(t)) && !OptsOut(s, parentStamped)
  {
    hide Described, ServiceOk, OptsOut;
    ForestContains(s.children);
    var below := parentStamped || s.IsStamped();
    forall i | 0 <= i < |s.children|
      ensures TreeOk(s.children[i], below) <==> (forall t :: t in Subtrees(s.children[i]) ==> Described(t)) && !OptsOut(s.children[i], below)
    {
      TreeOkMeans(s.children[i], below);
    }
    ServiceIsDescribed(s, parentStamped);
    if TreeOk(s, parentStamped) {
      forall t | t in Subtrees(s) ensures Described(t) {
        if t != s {
          var i := InSomeTree(s.children, t);
        }
      }
      if OptsOut(s, parentStamped) {
        OptOutBelow(s, parentStamped);
      }
    }
    if (forall t :: t in Subtrees(s) ==> Described(t)) && !OptsOut(s, parentStamped) {
      forall i | 0 <= i < |s.children| ensures TreeOk(s.children[i], below) {
        OptOutAbove(s, parentStamped, i);
      }
    }
  }

  lemma ServiceIsDescribed(s: Service, parentStamped: bool)
    ensures ServiceOk(s, parentStamped) <==> Described(s) && !(parentStamped && s.stamped == Some(false))
    ensures parentStamped && s.stamped == Some(false) ==> OptsOut(s, parentStamped)
  {
    ServiceGroupOkIs(s.serviceGroup);
    assert s in Subtrees(s);
  }

  /** An opt-out is at the root or in one of the trees below it. */
  lemma OptOutBelow(s: Service, parentStamped: bool)
    requires OptsOut(s, parentStamped) && !(parentStamped && s.stamped == Some(false))
    ensures exists i :: 0 <= i < |s.children| && OptsOut(s.children[i], parentStamped || s.IsStamped())
  {
    var t :| t in Subtrees(s) && t.stamped == Some(false) && (parentStamped || BelowStamped(s, t));
    var i: nat;
    if parentStamped {
      i := InSomeTree(s.children, t);
    } else {
      var u :| u in Subtrees(s) && u.stamped == Some(true) && t in ForestSubtrees(u.children);
      if u == s {
        i := InSomeTree(s.children, t);
      } else {
        i := InSomeTree(s.children, u);
        BelowStays(s.children[i], u);
        assert BelowStamped(s.children[i], t);
      }
    }
    assert OptsOut(s.children[i], parentStamped || s.IsStamped());
  }

  lemma OptOutAbove(s: Service, parentStamped: bool, i: nat)
    requires i < |s.children|
    ensures OptsOut(s.children[i], parentStamped || s.IsStamped()) ==> OptsOut(s, parentStamped)
  {
    ForestContains(s.children);
    var c := s.children[i];
    if OptsOut(c, parentStamped || s.IsStamped()) {
      var t :| t in Subtrees(c) && t.stamped == Some(false) && (parentStamped || s.IsStamped() || BelowStamped(c, t));
      assert t in Subtrees(s);
      if !parentStamped {
        if s.IsStamped() {
          assert s in Subtrees(s) && t in ForestSubtrees(s.children);
        } else {
          var u :| u in Subtrees(c) && u.stamped == Some(true) && t in ForestSubtrees(u.children);
          assert u in Subtrees(s);
        }
        assert BelowStamped(s, t);
      }
    }
  }

  /** The names that occur in the list after having been seen. */
  function Repeated(seen: set<string>, names: seq<string>): set<string>
    decreases names
  {
    if names == [] then {}
    else (if names[0] in seen then {names[0]} else {}) + Repeated(seen + {names[0]}, names[1..])
  }

  lemma {:induction false} RepeatedConcat(seen: set<string>, a: seq<string>, b: seq<string>)
    ensures Repeated(seen, a + b) == Repeated(seen, a) + Repeated(seen + Elements(a), b)
    decreases a
  {
    if a == [] {
      assert a + b == b && seen + Elements(a) == seen;
    } else {
      assert (a + b)[1..] == a[1..] + b;
      RepeatedConcat(seen + {a[0]}, a[1..], b);
      assert a == [a[0]] + a[1..];
      assert seen + {a[0]} + Elements(a[1..]) == seen + Elements(a);
    }
  }

  /** Nothing is repeated exactly when the names are new and pairwise distinct. */
  lemma {:induction false} NothingRepeated(seen: set<string>, names: seq<string>)
    ensures Repeated(seen, names) == {} <==> NoDuplicates(names) && Elements(names) !! seen
    decreases names
  {
    if names != [] {
      var rest := names[1..];
      assert names == [names[0]] + rest;
      NothingRepeated(seen + {names[0]}, rest);
      if Repeated(seen, names) == {} {
        assert names[0] !in seen && Elements(rest) !! (seen + {names[0]});
        forall j | 1 <= j < |names| ensures names[j] != names[0] {
          assert names[j] in Elements(rest);
        }
      }
      if NoDuplicates(names) && Elements(names) !! seen {
        assert names[0] in Elements(names);
        forall n | n in rest ensures n != names[0] && n !in seen {
          var j :| 0 <= j < |rest| && rest[j] == n;
          assert names[j + 1] == n && n in Elements(names);
        }
        assert NoDuplicates(rest);
      }
    }
  }

  /** What a walk over `names` adds to the names seen and to the duplicates. */
  ghost predicate Tallied(seen0: set<string>, duplicates0: set<string>, names: seq<string>, seen: set<string>, duplicates: set<string>) {
    seen == seen0 + Elements(names) && duplicates == duplicates0 + Repeated(seen0, names)
  }

  lemma TallyOne(seen: set<string>, duplicates: set<string>, name: string)
    ensures Tallied(seen, duplicates, [], seen, duplicates)
    ensures Tallied(seen, duplicates, [name], seen + {name}, if name in seen then duplicates + {name} else duplicates)
  {
    assert [name][1..] == [];
  }

  lemma TallyMore(seen0: set<string>, duplicates0: set<string>, a: seq<string>, seen1: set<string>, duplicates1: set<string>,
                  b: seq<string>, seen2: set<string>, duplicates2: set<string>)
    requires Tallied(seen0, duplicates0, a, seen1, duplicates1) && Tallied(seen1, duplicates1, b, seen2, duplicates2)
    ensures Tallied(seen0, duplicates0, a + b, seen2, duplicates2)
  {
    RepeatedConcat(seen0, a, b);
  }

  class Validator {
    var seen: set<string>
    var duplicates: set<string>

    constructor ()
      ensures seen == {} && duplicates == {}
    {
      seen, duplicates := {}, {};
    }

    method Walk(s: Service, parentStamped: bool) returns (err: Option<TopologyError>)
      modifies this
      ensures err.None? <==> TreeOk(s, parentStamped)
      ensures err.None? ==> Tallied(old(seen), old(duplicates), Groups(s), seen, duplicates)
      decreases s
    {
      hide *;
      TreeOkIs(s, parentStamped);
      ServiceOkIs(s, parentStamped);
      TallyOne(seen, duplicates, s.serviceGroup);
      if !ServiceGroupOk(s.serviceGroup) {
        return Some(InvalidServiceGroup(s.serviceGroup));
      }
      if parentStamped && s.stamped.Some? && !s.stamped.value {
        return Some(StampOptOut(s.serviceGroup));
      }
      if s.serviceGroup in seen {
        duplicates := duplicates + {s.serviceGroup};
      }
      seen := seen + {s.serviceGroup};
      if !Defaultable(s.purpose, s.metadata, "purpose") {
        return Some(NoPurpose(s.serviceGroup));
      }
      if !Defaultable(s.pipelinePath, s.metadata, "pipeline") {
        return Some(NoPipeline(s.serviceGroup));
      }
      ghost var own := [s.serviceGroup];
      NoTrees(s);
      assert own + [] == own;
      for i := 0 to |s.children|
        invariant forall k :: 0 <= k < i ==> TreeOk(s.children[k], parentStamped || s.IsStamped())
        invariant Tallied(old(seen), old(duplicates), own + ForestGroups(s.children[..i]), seen, duplicates)
      {
        ghost var seen1, duplicates1 := seen, duplicates;
        err := Walk(s.children[i], parentStamped || s.IsStamped());
        if err.Some? {
          return;
        }
        NextTree(s.children, i);
        TallyMore(old(seen), old(duplicates), own + ForestGroups(s.children[..i]), seen1, duplicates1,
                  Groups(s.children[i]), seen, duplicates);
        assert own + ForestGroups(s.children[..i]) + Groups(s.children[i]) == own + ForestGroups(s.children[..i + 1]);
      }
      assert s.children[..|s.children|] == s.children;
      err := None;
    }

    method Validate(services: seq<Service>, entrypoints: seq<Entrypoint>) returns (err: Option<TopologyError>)
      requires seen == {} && duplicates == {}
      modifies this
      ensures err.None? <==> ValidTopology(services, entrypoints)
    {
      hide TreeOk, Repeated, ForestGroups, Tallied;
      NoForest();
      TallyOne({}, {}, "");
      for i := 0 to |services|
        invariant forall k :: 0 <= k < i ==> TreeOk(services[k], false)
        invariant Tallied({}, {}, ForestGroups(services[..i]), seen, duplicates)
      {
        ghost var seen1, duplicates1 := seen, duplicates;
        err := Walk(services[i], false);
        if err.Some? {
          return;
        }
        TallyMore({}, {}, ForestGroups(services[..i]), seen1, duplicates1, Groups(services[i]), seen, duplicates);
        NextTree(services, i);
      }
      assert services[..|services|] == services;
      TallyOfAll(ForestGroups(services), seen, duplicates);
      var unknown := [];
      for i := 0 to |entrypoints|
        invariant unknown == [] <==> forall k :: 0 <= k < i ==> EntrypointOk(entrypoints[k], ForestGroups(services))
      {
        if entrypoints[i].identifier == "" || entrypoints[i].identifier !in seen {
          unknown := unknown + [entrypoints[i].identifier];
        }
      }
      err := if duplicates == {} && unknown == [] then None else Some(InvalidTree(duplicates, unknown));
    }
  }

  lemma NoForest()
    ensures ForestGroups([]) == []
  {
  }

  lemma NoTrees(s: Service)
    ensures Groups(s) == [s.serviceGroup] + ForestGroups(s.children) && ForestGroups(s.children[..0]) == []
  {
  }

  lemma TallyOfAll(names: seq<string>, seen: set<string>, duplicates: set<string>)
    requires Tallied({}, {}, names, seen, duplicates)
    ensures duplicates == {} <==> NoDuplicates(names)
    ensures forall n :: n in seen <==> n in names
  {
    NothingRepeated({}, names);
  }

  lemma NextTree(ss: seq<Service>, i: nat)
    requires i < |ss|
    ensures ForestGroups(ss[..i + 1]) == ForestGroups(ss[..i]) + Groups(ss[i])
  {
    assert ss[..i + 1] == ss[..i] + [ss[i]];
    ForestConcat(ss[..i], [ss[i]]);
    ForestSingle(ss[i]);
  }

  predicate EntrypointOk(e: Entrypoint, names: seq<string>) {
    e.identifier != "" && e.identifier in names
  }

  ghost predicate ValidTopology(services: seq<Service>, entrypoints: seq<Entrypoint>) {
    && (forall i :: 0 <= i < |services| ==> TreeOk(services[i], false))
    && NoDuplicates(ForestGroups(services))
    && (forall i :: 0 <= i < |entrypoints| ==> EntrypointOk(entrypoints[i], ForestGroups(services)))
  }

  // ----- propagation agrees with validation

  /** Every service of `after` is stamped exactly when the walk over `s` considers it stamped. */
  ghost predicate StampedAsWalked(s: Service, after: Service, parentStamped: bool)
    decreases s
  {
    && after.serviceGroup == s.serviceGroup
    && after.IsStamped() == (parentStamped || s.IsStamped())
    && |after.children| == |s.children|
    && forall i :: 0 <= i < |s.children| ==> StampedAsWalked(s.children[i], after.children[i], parentStamped || s.IsStamped())
  }

  lemma {:induction false} PropagationAgreesWithWalk(s: Service, parentStamped: bool)
    requires TreeOk(s, parentStamped)
    ensures StampedAsWalked(s, Propagate(s, parentStamped), parentStamped)
    decreases s
  {
    var after := Propagate(s, parentStamped);
    forall i | 0 <= i < |s.children|
      ensures StampedAsWalked(s.children[i], after.children[i], parentStamped || s.IsStamped())
    {
      PropagateAt(s.children, after.IsStamped(), i);
      PropagationAgreesWithWalk(s.children[i], parentStamped || s.IsStamped());
    }
  }

  /** In a valid propagated tree no child of a stamped service is unstamped. */
  lemma {:induction false} StampingClosedDownwards(s: Service, parentStamped: bool)
    requires TreeOk(s, parentStamped)
    ensures forall t, c :: t in Subtrees(Propagate(s, parentStamped)) && c in t.children && t.IsStamped() ==> c.IsStamped()
    decreases s, 1
  {
    var after := Propagate(s, parentStamped);
    ForestClosedDownwards(s.children, after.IsStamped());
    forall c | c in after.children && after.IsStamped() ensures c.IsStamped() {
      var i :| 0 <= i < |after.children| && after.children[i] == c;
      PropagateAt(s.children, after.IsStamped(), i);
    }
  }

  lemma {:induction false} ForestClosedDownwards(ss: seq<Service>, parentStamped: bool)
    requires forall i :: 0 <= i < |ss| ==> TreeOk(ss[i], parentStamped)
    ensures forall t, c :: t in ForestSubtrees(PropagateForest(ss, parentStamped)) && c in t.children && t.IsStamped() ==> c.IsStamped()
    decreases ss, 0
  {
    if ss != [] {
      StampingClosedDownwards(ss[0], parentStamped);
      ForestClosedDownwards(ss[1..], parentStamped);
      assert PropagateForest(ss, parentStamped)[1..] == PropagateForest(ss[1..], parentStamped);
    }
  }

  lemma {:induction false} PropagationKeepsTreeVerdict(s: Service, parentStamped: bool)
    ensures TreeOk(Propagate(s, parentStamped), parentStamped) <==> TreeOk(s, parentStamped)
    decreases s
  {
    var after := Propagate(s, parentStamped);
    if ServiceOk(s, parentStamped) {
      var inherited := parentStamped || s.IsStamped();
      assert after.IsStamped() == inherited;
      forall i | 0 <= i < |s.children| ensures TreeOk(after.children[i], inherited) <==> TreeOk(s.children[i], inherited) {
        PropagateAt(s.children, inherited, i);
        PropagationKeepsTreeVerdict(s.children[i], inherited);
      }
    }
  }

  /** A topology is valid after propagation exactly when it was before. */
  lemma PropagationKeepsVerdict(services: seq<Service>, entrypoints: seq<Entrypoint>)
    ensures ValidTopology(PropagateForest(services, false), entrypoints) <==> ValidTopology(services, entrypoints)
  {
    PropagateForestKeepsGroups(services, false);
    var after := PropagateForest(services, false);
    forall i | 0 <= i < |services| ensures TreeOk(after[i], false) <==> TreeOk(services[i], false) {
      PropagateAt(services, false, i);
      PropagationKeepsTreeVerdict(services[i], false);
    }
  }
}
