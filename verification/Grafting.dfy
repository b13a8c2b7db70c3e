/** Grafting service trees onto one another by their external parents. */
module Grafting {
  import opened Wrappers
  import opened Reachability
  import opened ServiceTree
  import opened StampPropagation

  // ----- what a forest holds

  /** The services without their children. */
  function Records(ss: seq<Service>): set<Service> {
    if ss == [] then {} else {ss[0].(children := [])} + Records(ss[0].children) + Records(ss[1..])
  }

  function ChildNames(s: Service): set<Edge<string>> {
    set c | c in s.children :: Edge(s.serviceGroup, c.serviceGroup)
  }

  /** The parent-child pairs of names. */
  function Links(ss: seq<Service>): set<Edge<string>> {
    if ss == [] then {} else ChildNames(ss[0]) + Links(ss[0].children) + Links(ss[1..])
  }

  function RootNames(ss: seq<Service>): seq<string> {
    if ss == [] then [] else [ss[0].serviceGroup] + RootNames(ss[1..])
  }

  lemma Unfold(ss: seq<Service>)
    requires ss != []
    ensures Records(ss) == {ss[0].(children := [])} + Records(ss[0].children) + Records(ss[1..])
    ensures Links(ss) == ChildNames(ss[0]) + Links(ss[0].children) + Links(ss[1..])
    ensures RootNames(ss) == [ss[0].serviceGroup] + RootNames(ss[1..])
    ensures ForestGroups(ss) == Groups(ss[0]) + ForestGroups(ss[1..])
    ensures Groups(ss[0]) == [ss[0].serviceGroup] + ForestGroups(ss[0].children)
  {
  }

  lemma NoParts()
    ensures Records([]) == {} && Links([]) == {} && RootNames([]) == [] && ForestGroups([]) == []
  {
  }

  lemma {:induction false} ForestParts(a: seq<Service>, b: seq<Service>)
    ensures Records(a + b) == Records(a) + Records(b)
    ensures Links(a + b) == Links(a) + Links(b)
    ensures RootNames(a + b) == RootNames(a) + RootNames(b)
    ensures ForestGroups(a + b) == ForestGroups(a) + ForestGroups(b)
  {
    hide *;
    if a == [] {
      NoParts();
      assert a + b == b;
    } else {
      assert (a + b)[1..] == a[1..] + b;
      Unfold(a);
      Unfold(a + b);
      ForestParts(a[1..], b);
    }
  }

  lemma OneTree(s: Service)
    ensures Records([s]) == {s.(children := [])} + Records(s.children)
    ensures Links([s]) == ChildNames(s) + Links(s.children)
    ensures RootNames([s]) == [s.serviceGroup]
    ensures ForestGroups([s]) == Groups(s)
  {
    assert [s][1..] == [];
  }

  // ----- one graft

  /** Appends `svc` to the children of the first service named `name` in depth-first order. */
  function Graft(ss: seq<Service>, name: string, svc: Service): (r: seq<Service>)
    ensures |r| == |ss|
  {
    if ss == [] then []
    else if name in Groups(ss[0]) then [GraftTree(ss[0], name, svc)] + ss[1..]
    else [ss[0]] + Graft(ss[1..], name, svc)
  }

  function GraftTree(s: Service, name: string, svc: Service): Service {
    if s.serviceGroup == name then s.(children := s.children + [svc])
    else s.(children := Graft(s.children, name, svc))
  }

  /** A graft adds the services and links of `svc` and one link to it, loses nothing and keeps the roots. */
  lemma {:induction false} GraftConserves(ss: seq<Service>, name: string, svc: Service)
    requires name in ForestGroups(ss)
    ensures multiset(ForestGroups(Graft(ss, name, svc))) == multiset(ForestGroups(ss)) + multiset(Groups(svc))
    ensures Records(Graft(ss, name, svc)) == Records(ss) + Records([svc])
    ensures Links(Graft(ss, name, svc)) == Links(ss) + Links([svc]) + {Edge(name, svc.serviceGroup)}
    ensures RootNames(Graft(ss, name, svc)) == RootNames(ss)
    decreases ss
  {
    hide *;
    NoParts();
    var s, rest := ss[0], ss[1..];
    GraftIs(ss, name, svc);
    Unfold(ss);
    Unfold(Graft(ss, name, svc));
    if name in Groups(s) {
      if s.serviceGroup == name {
        ForestParts(s.children, [svc]);
        OneTree(svc);
        NewChildName(s, svc);
      } else {
        GraftConserves(s.children, name, svc);
        ChildNamesKept(s, name, svc);
      }
    } else {
      GraftConserves(rest, name, svc);
    }
  }

  lemma GraftIs(ss: seq<Service>, name: string, svc: Service)
    requires ss != []
    ensures var r, s := Graft(ss, name, svc), ss[0];
            && r != []
            && (name !in Groups(s) ==> r[0] == s && r[1..] == Graft(ss[1..], name, svc))
            && (name in Groups(s) ==>
                  && r[1..] == ss[1..]
                  && r[0] == s.(children := if s.serviceGroup == name then s.children + [svc] else Graft(s.children, name, svc)))
  {
  }

  lemma NewChildName(s: Service, svc: Service)
    ensures ChildNames(s.(children := s.children + [svc])) == ChildNames(s) + {Edge(s.serviceGroup, svc.serviceGroup)}
  {
  }

  lemma {:induction false} RootNamesAre(ss: seq<Service>)
    ensures |RootNames(ss)| == |ss| && forall i :: 0 <= i < |ss| ==> RootNames(ss)[i] == ss[i].serviceGroup
  {
    if ss != [] {
      RootNamesAre(ss[1..]);
    }
  }

  lemma ChildNamesKept(s: Service, name: string, svc: Service)
    requires RootNames(Graft(s.children, name, svc)) == RootNames(s.children)
    ensures ChildNames(s.(children := Graft(s.children, name, svc))) == ChildNames(s)
  {
    var now := Graft(s.children, name, svc);
    RootNamesAre(s.children);
    RootNamesAre(now);
    forall e ensures e in ChildNames(s.(children := now)) <==> e in ChildNames(s) {
      if e in ChildNames(s) {
        var i :| 0 <= i < |s.children| && e.to == s.children[i].serviceGroup && e.from == s.serviceGroup;
        assert now[i] in now;
      }
      if e in ChildNames(s.(children := now)) {
        var i :| 0 <= i < |now| && e.to == now[i].serviceGroup && e.from == s.serviceGroup;
        assert s.children[i] in s.children;
      }
    }
  }

  // ----- combining

  datatype CombineError = MissingParent(service: string, parent: string)

  ghost predicate HaveParents(pending: seq<Service>) {
    forall i :: 0 <= i < |pending| ==> pending[i].externalParent.Some?
  }

  lemma {:induction false} GraftRoots(ss: seq<Service>, name: string, svc: Service, i: nat)
    requires i < |ss|
    ensures Graft(ss, name, svc)[i].externalParent == ss[i].externalParent
    ensures Graft(ss, name, svc)[i].serviceGroup == ss[i].serviceGroup
  {
    if i > 0 && name !in Groups(ss[0]) {
      GraftRoots(ss[1..], name, svc, i - 1);
    }
  }

  lemma GraftHaveParents(pending: seq<Service>, name: string, svc: Service)
    requires HaveParents(pending)
    ensures HaveParents(Graft(pending, name, svc))
  {
    forall i | 0 <= i < |pending| ensures Graft(pending, name, svc)[i].externalParent.Some? {
      GraftRoots(pending, name, svc, i);
    }
  }

  /** Each pending tree in turn goes under its parent in the combined forest, or else in a later pending tree. */
  function Combine(services: seq<Service>, pending: seq<Service>): Result<seq<Service>, CombineError>
    requires HaveParents(pending)
    decreases |pending|
  {
    if pending == [] then Ok(services)
    else
      var svc, later := pending[0], pending[1..];
      var parent := svc.externalParent.value;
      if parent in ForestGroups(services) then Combine(Graft(services, parent, svc), later)
      else if parent in ForestGroups(later) then
        GraftHaveParents(later, parent, svc);
        Combine(services, Graft(later, parent, svc))
      else Err(MissingParent(svc.serviceGroup, parent))
  }

  // ----- when combining succeeds, and what it yields

  /** The links the loaded trees and their external parents call for. */
  function ParentLinks(pending: seq<Service>): set<Edge<string>>
    requires HaveParents(pending)
  {
    if pending == [] then {} else {Edge(pending[0].externalParent.value, pending[0].serviceGroup)} + ParentLinks(pending[1..])
  }

  function AllLinks(services: seq<Service>, pending: seq<Service>): set<Edge<string>>
    requires HaveParents(pending)
  {
    Links(services) + Links(pending) + ParentLinks(pending)
  }

  lemma {:induction false} GraftKeepsParentLinks(pending: seq<Service>, name: string, svc: Service)
    requires HaveParents(pending) && HaveParents(Graft(pending, name, svc))
    ensures ParentLinks(Graft(pending, name, svc)) == ParentLinks(pending)
  {
    if pending != [] {
      var now := Graft(pending, name, svc);
      GraftRoots(pending, name, svc, 0);
      if name in Groups(pending[0]) {
        assert now[1..] == pending[1..];
      } else {
        assert now[1..] == Graft(pending[1..], name, svc);
        GraftKeepsParentLinks(pending[1..], name, svc);
      }
    }
  }

  /** The combined forest holds every loaded service exactly as often as it was loaded, each pending tree under its parent. */
  ghost predicate Conserves(services: seq<Service>, pending: seq<Service>, result: seq<Service>)
    requires HaveParents(pending)
  {
    && multiset(ForestGroups(result)) == multiset(ForestGroups(services)) + multiset(ForestGroups(pending))
    && Records(result) == Records(services) + Records(pending)
    && Links(result) == AllLinks(services, pending)
    && RootNames(result) == RootNames(services)
  }

  lemma {:induction false} CombineConserves(services: seq<Service>, pending: seq<Service>)
    requires HaveParents(pending) && Combine(services, pending).Ok?
    ensures Conserves(services, pending, Combine(services, pending).value)
    decreases |pending|
  {
    if pending != [] {
      hide *;
      CombineIs(services, pending);
      var svc, later := pending[0], pending[1..];
      var parent := svc.externalParent.value;
      if parent in ForestGroups(services) {
        CombineConserves(Graft(services, parent, svc), later);
      } else {
        CombineConserves(services, Graft(later, parent, svc));
      }
      PlacedConserves(services, pending, Combine(services, pending).value);
    } else {
      NothingPending(services);
    }
  }

  lemma CombineIs(services: seq<Service>, pending: seq<Service>)
    requires HaveParents(pending) && pending != []
    ensures var svc, later := pending[0], pending[1..];
            && svc.externalParent.Some? && HaveParents(later)
            && var parent := svc.externalParent.value;
               && (parent in ForestGroups(services) ==> Combine(services, pending) == Combine(Graft(services, parent, svc), later))
               && HaveParents(Graft(later, parent, svc))
               && (parent !in ForestGroups(services) && parent in ForestGroups(later) ==>
                     Combine(services, pending) == Combine(services, Graft(later, parent, svc)))
               && (parent !in ForestGroups(services) && parent !in ForestGroups(later) ==> Combine(services, pending).Err?)
               && ParentLinks(pending) == {Edge(parent, svc.serviceGroup)} + ParentLinks(later)
  {
    GraftHaveParents(pending[1..], pending[0].externalParent.value, pending[0]);
  }

  lemma NothingPending(services: seq<Service>)
    ensures Combine(services, []).Ok? && Conserves(services, [], Combine(services, []).value)
  {
  }

  /** Placing one tree hands on its names, records and links, and the roots. */
  lemma PlacedConserves(services: seq<Service>, pending: seq<Service>, result: seq<Service>)
    requires HaveParents(pending) && pending != []
    requires HaveParents(pending[1..]) && HaveParents(Graft(pending[1..], pending[0].externalParent.value, pending[0]))
    requires var svc, later, parent := pending[0], pending[1..], pending[0].externalParent.value;
             if parent in ForestGroups(services) then Conserves(Graft(services, parent, svc), later, result)
             else parent in ForestGroups(later) && Conserves(services, Graft(later, parent, svc), result)
    ensures Conserves(services, pending, result)
  {
    hide Records, Links, ForestGroups, RootNames, Graft, ParentLinks, Groups;
    var svc, later := pending[0], pending[1..];
    var parent := svc.externalParent.value;
    ParentLinksStep(pending);
    Unfold(pending);
    OneTree(svc);
    if parent in ForestGroups(services) {
      GraftConserves(services, parent, svc);
    } else {
      GraftConserves(later, parent, svc);
      GraftKeepsParentLinks(later, parent, svc);
    }
  }

  lemma ParentLinksStep(pending: seq<Service>)
    requires HaveParents(pending) && pending != [] && HaveParents(pending[1..])
    ensures ParentLinks(pending) == {Edge(pending[0].externalParent.value, pending[0].serviceGroup)} + ParentLinks(pending[1..])
  {
  }

  lemma AllLinksIs(services: seq<Service>, pending: seq<Service>)
    requires HaveParents(pending)
    ensures AllLinks(services, pending) == Links(services) + Links(pending) + ParentLinks(pending)
  {
  }

  lemma DistinctMeansOnce<T>(s: seq<T>)
    ensures NoDuplicates(s) <==> forall x :: multiset(s)[x] <= 1
  {
    if NoDuplicates(s) {
      forall x ensures multiset(s)[x] <= 1 {
        OnceEach(s, x);
      }
    } else {
      var i, j :| 0 <= i < j < |s| && s[i] == s[j];
      assert s == s[..j] + s[j..];
      assert s[..j][i] == s[i] && s[j..][0] == s[i];
      assert multiset(s) == multiset(s[..j]) + multiset(s[j..]);
      assert multiset(s)[s[i]] >= 2;
    }
  }

  lemma {:induction false} OnceEach<T>(s: seq<T>, x: T)
    requires NoDuplicates(s)
    ensures multiset(s)[x] <= 1
  {
    if s != [] {
      assert s == [s[0]] + s[1..];
      OnceEach(s[1..], x);
      if x == s[0] {
        assert x !in s[1..];
      }
    }
  }

  /** In a tree every name lies below the root or is the root. */
  lemma {:induction false} RootReaches(s: Service, name: string)
    requires name in Groups(s)
    ensures name == s.serviceGroup || Reaches(Links([s]), s.serviceGroup, name)
    decreases s, 1
  {
    if name != s.serviceGroup {
      var c := RootsReach(s.children, name);
      OneTree(s);
      assert Edge(s.serviceGroup, c) in ChildNames(s);
      ReachesByEdge(Links([s]), s.serviceGroup, c);
      if name != c {
        ReachesMonotone(Links(s.children), Links([s]), c, name);
        ReachesTrans(Links([s]), s.serviceGroup, c, name);
      }
    }
  }

  lemma {:induction false} RootsReach(ss: seq<Service>, name: string) returns (root: string)
    requires name in ForestGroups(ss)
    ensures (exists s :: s in ss && s.serviceGroup == root) && (name == root || Reaches(Links(ss), root, name))
    decreases ss, 0
  {
    ForestParts([ss[0]], ss[1..]);
    assert [ss[0]] + ss[1..] == ss;
    if name in Groups(ss[0]) {
      RootReaches(ss[0], name);
      root := ss[0].serviceGroup;
      if name != root {
        ReachesMonotone(Links([ss[0]]), Links(ss), root, name);
      }
    } else {
      root := RootsReach(ss[1..], name);
      if name != root {
        ReachesMonotone(Links(ss[1..]), Links(ss), root, name);
      }
    }
  }

  ghost predicate Before(names: seq<string>, a: string, b: string) {
    exists i, j :: 0 <= i < j < |names| && names[i] == a && names[j] == b
  }

  lemma BeforeMeans(names: seq<string>, a: string, b: string) returns (i: nat, j: nat)
    requires Before(names, a, b)
    ensures i < j < |names| && names[i] == a && names[j] == b
  {
    i, j :| 0 <= i < j < |names| && names[i] == a && names[j] == b;
  }

  lemma BeforeInside(x: seq<string>, names: seq<string>, y: seq<string>, a: string, b: string)
    requires Before(names, a, b)
    ensures Before(x + names + y, a, b)
  {
    var i, j :| 0 <= i < j < |names| && names[i] == a && names[j] == b;
    var all := x + names + y;
    assert all[|x| + i] == a && all[|x| + j] == b;
  }

  lemma HeadBefore(head: string, names: seq<string>, n: string)
    requires n in names
    ensures Before([head] + names, head, n)
  {
    var j :| 0 <= j < |names| && names[j] == n;
    assert ([head] + names)[0] == head && ([head] + names)[j + 1] == n;
  }

  lemma ChildNameListed(s: Service, e: Edge<string>)
    requires e in ChildNames(s)
    ensures e.from == s.serviceGroup && e.to in ForestGroups(s.children)
  {
    var c :| c in s.children && c.serviceGroup == e.to;
    ForestContains(s.children);
    ForestGroupsAreNames(s.children);
    assert c in Subtrees(c);
  }

  /** Every link leads from an earlier to a later position of the depth-first list of names. */
  lemma {:induction false} LinksDescend(ss: seq<Service>, e: Edge<string>)
    requires e in Links(ss)
    ensures Before(ForestGroups(ss), e.from, e.to)
    decreases ss
  {
    hide *;
    NoParts();
    var s, rest := ss[0], ss[1..];
    var inner, own := ForestGroups(s.children), [s.serviceGroup] + ForestGroups(s.children);
    Unfold(ss);
    assert [] + own + ForestGroups(rest) == ForestGroups(ss);
    if e in ChildNames(s) {
      ChildNameListed(s, e);
      HeadBefore(s.serviceGroup, inner, e.to);
      BeforeInside([], own, ForestGroups(rest), e.from, e.to);
    } else if e in Links(s.children) {
      LinksDescend(s.children, e);
      BeforeInside([s.serviceGroup], inner, ForestGroups(rest), e.from, e.to);
    } else {
      LinksDescend(rest, e);
      assert own + ForestGroups(rest) + [] == ForestGroups(ss);
      BeforeInside(own, ForestGroups(rest), [], e.from, e.to);
    }
  }

  /** The links of a forest with distinct names have no cycle. */
  lemma ForestIsAcyclic(ss: seq<Service>)
    requires NoDuplicates(ForestGroups(ss))
    ensures Acyclic(Links(ss))
  {
    hide *;
    var names := ForestGroups(ss);
    var n := |names|;
    var order := seq(n, k requires 0 <= k < n => names[n - 1 - k]);
    forall e | e in Links(ss)
      ensures e.from in order
      ensures exists i, j :: 0 <= i < j < n && order[i] == e.to && order[j] == e.from
    {
      LinksDescend(ss, e);
      var i, j := BeforeMeans(names, e.from, e.to);
      assert order[n - 1 - j] == e.to && order[n - 1 - i] == e.from;
    }
    DistinctReversed(names, order);
    IsReverseTopological(Links(ss), order);
    OrderedMeansAcyclic(Links(ss), order);
  }

  lemma DistinctReversed(names: seq<string>, order: seq<string>)
    requires NoDuplicates(names) && |order| == |names|
    requires forall k :: 0 <= k < |names| ==> order[k] == names[|names| - 1 - k]
    ensures NoDuplicates(order)
  {
  }

  lemma IsReverseTopological(links: set<Edge<string>>, order: seq<string>)
    requires NoDuplicates(order)
    requires forall e :: e in links && e.from in order ==> exists i, j :: 0 <= i < j < |order| && order[i] == e.to && order[j] == e.from
    ensures ReverseTopological(links, order)
  {
  }

  ghost predicate ParentsLoaded(services: seq<Service>, pending: seq<Service>)
    requires HaveParents(pending)
  {
    forall i :: 0 <= i < |pending| ==>
      pending[i].externalParent.value in ForestGroups(services) || pending[i].externalParent.value in ForestGroups(pending)
  }

  /** A graft changes the first tree that holds the name. */
  lemma {:induction false} GraftAt(ss: seq<Service>, name: string, svc: Service, k: nat)
    requires k < |ss| && name in Groups(ss[k]) && forall j :: 0 <= j < k ==> name !in Groups(ss[j])
    ensures name in ForestGroups(ss) && Graft(ss, name, svc) == ss[k := GraftTree(ss[k], name, svc)]
  {
    if k > 0 {
      assert name !in Groups(ss[0]);
      GraftAt(ss[1..], name, svc, k - 1);
    }
  }

  lemma {:induction false} NoHolder(ss: seq<Service>, name: string)
    requires forall j :: 0 <= j < |ss| ==> name !in Groups(ss[j])
    ensures name !in ForestGroups(ss)
  {
    if ss != [] {
      assert name !in Groups(ss[0]);
      NoHolder(ss[1..], name);
    }
  }

  /** The state after the first pending tree has been placed. */
  function Placed(services: seq<Service>, pending: seq<Service>): (r: (seq<Service>, seq<Service>))
    requires HaveParents(pending) && pending != []
    ensures HaveParents(r.1) && |r.1| == |pending| - 1
  {
    var svc, later := pending[0], pending[1..];
    var parent := svc.externalParent.value;
    if parent in ForestGroups(services) then (Graft(services, parent, svc), later)
    else
      GraftHaveParents(later, parent, svc);
      (services, Graft(later, parent, svc))
  }

  lemma PlacedIs(services: seq<Service>, pending: seq<Service>)
    requires HaveParents(pending) && pending != []
    ensures pending[0].externalParent.Some?
    ensures var svc, later := pending[0], pending[1..];
            var parent := svc.externalParent.value;
            Placed(services, pending) ==
              if parent in ForestGroups(services) then (Graft(services, parent, svc), later) else (services, Graft(later, parent, svc))
  {
  }

  /** Placing a tree keeps all names, all links and the parents still to be found. */
  lemma PlacingKeeps(services: seq<Service>, pending: seq<Service>)
    requires HaveParents(pending) && pending != []
    requires pending[0].externalParent.value in ForestGroups(services) + ForestGroups(pending[1..])
    ensures var r := Placed(services, pending);
            && multiset(ForestGroups(r.0 + r.1)) == multiset(ForestGroups(services + pending))
            && AllLinks(r.0, r.1) == AllLinks(services, pending)
            && (forall i :: 0 <= i < |r.1| ==> r.1[i].externalParent == pending[i + 1].externalParent)
            && Combine(services, pending) == Combine(r.0, r.1)
  {
    hide *;
    PlacedIs(services, pending);
    var svc, later := pending[0], pending[1..];
    var parent := svc.externalParent.value;
    var r := Placed(services, pending);
    CombineIs(services, pending);
    AllLinksIs(services, pending);
    AllLinksIs(r.0, r.1);
    ForestParts(services, pending);
    ForestParts(r.0, r.1);
    Unfold(pending);
    OneTree(svc);
    if parent in ForestGroups(services) {
      GraftConserves(services, parent, svc);
    } else {
      GraftConserves(later, parent, svc);
      GraftKeepsParentLinks(later, parent, svc);
      forall i | 0 <= i < |later| ensures r.1[i].externalParent == later[i].externalParent {
        GraftRoots(later, parent, svc, i);
      }
    }
  }

  lemma SameNames(a: seq<string>, b: seq<string>)
    requires multiset(a) == multiset(b)
    ensures NoDuplicates(a) <==> NoDuplicates(b)
    ensures forall n :: n in a <==> n in b
  {
    DistinctMeansOnce(a);
    DistinctMeansOnce(b);
    forall n ensures n in a <==> n in b {
      assert n in multiset(a) <==> n in multiset(b);
    }
  }

  /** An external parent inside the tree that names it closes a cycle. */
  lemma ParentInsideIsCycle(services: seq<Service>, pending: seq<Service>)
    requires HaveParents(pending) && pending != [] && pending[0].externalParent.value in Groups(pending[0])
    ensures !Acyclic(AllLinks(services, pending))
  {
    var svc, links := pending[0], AllLinks(services, pending);
    var parent := svc.externalParent.value;
    ForestParts([svc], pending[1..]);
    assert [svc] + pending[1..] == pending;
    ReachesByEdge(links, parent, svc.serviceGroup);
    RootReaches(svc, parent);
    if parent != svc.serviceGroup {
      ReachesMonotone(Links([svc]), links, svc.serviceGroup, parent);
      ReachesTrans(links, parent, svc.serviceGroup, parent);
    }
    AcyclicMeansIrreflexive(links);
  }

  lemma ParentsAfterPlacing(services: seq<Service>, pending: seq<Service>)
    requires HaveParents(pending) && pending != []
    requires pending[0].externalParent.value in ForestGroups(services) + ForestGroups(pending[1..])
    ensures var r := Placed(services, pending); ParentsLoaded(r.0, r.1) <==> ParentsLoaded(services, pending)
  {
    hide Combine, AllLinks, Placed, ForestGroups, Groups;
    var r := Placed(services, pending);
    PlacingKeeps(services, pending);
    ForestParts(services, pending);
    ForestParts(r.0, r.1);
    SameNames(ForestGroups(r.0 + r.1), ForestGroups(services + pending));
    Unfold(pending);
    var known := ForestGroups(services) + ForestGroups(pending);
    var known' := ForestGroups(r.0) + ForestGroups(r.1);
    assert forall n :: n in known <==> n in known';
    if ParentsLoaded(r.0, r.1) {
      forall i | 0 <= i < |pending| ensures pending[i].externalParent.value in known {
        if i > 0 {
          assert r.1[i - 1].externalParent == pending[i].externalParent;
        }
      }
    }
    if ParentsLoaded(services, pending) {
      forall i | 0 <= i < |r.1| ensures r.1[i].externalParent.value in known' {
        assert r.1[i].externalParent == pending[i + 1].externalParent;
      }
    }
  }

  /** Combining fails exactly when some external parent was not loaded or the links form a cycle. */
  lemma {:induction false} CombineSucceeds(services: seq<Service>, pending: seq<Service>)
    requires HaveParents(pending) && NoDuplicates(ForestGroups(services + pending))
    ensures Combine(services, pending).Ok? <==> ParentsLoaded(services, pending) && Acyclic(AllLinks(services, pending))
    decreases |pending|
  {
    ForestParts(services, pending);
    if pending == [] {
      assert services + [] == services;
      ForestIsAcyclic(services);
    } else {
      var svc, later := pending[0], pending[1..];
      var parent := svc.externalParent.value;
      OneTree(svc);
      ForestParts([svc], later);
      assert [svc] + later == pending;
      if parent in ForestGroups(services) + ForestGroups(later) {
        var r := Placed(services, pending);
        PlacingKeeps(services, pending);
        ParentsAfterPlacing(services, pending);
        SameNames(ForestGroups(r.0 + r.1), ForestGroups(services + pending));
        CombineSucceeds(r.0, r.1);
      } else if parent in Groups(svc) {
        ParentInsideIsCycle(services, pending);
      }
    }
  }

  // ----- the order of files does not matter

  /** Equal up to the order of siblings. */
  ghost predicate SameTree(s: Service, t: Service)
    decreases s, 1
  {
    s.(children := []) == t.(children := []) && SameForest(s.children, t.children)
  }

  ghost predicate SameForest(ss: seq<Service>, ts: seq<Service>)
    decreases ss, 1
  {
    && (forall s :: s in ss ==> TwinIn(s, ts))
    && (forall t :: t in ts ==> TwinFrom(ss, t))
  }

  ghost predicate TwinIn(s: Service, ts: seq<Service>)
    decreases s, 2
  {
    exists t :: t in ts && SameTree(s, t)
  }

  ghost predicate TwinFrom(ss: seq<Service>, t: Service)
    decreases ss, 0
  {
    exists s :: s in ss && SameTree(s, t)
  }

  lemma AreTwins(ss: seq<Service>, ts: seq<Service>, s: Service, t: Service)
    requires s in ss && t in ts && SameTree(s, t)
    ensures TwinIn(s, ts) && TwinFrom(ss, t)
  {
    hide SameTree;
  }

  lemma {:induction false} RecordsAndLinksAre(ss: seq<Service>)
    ensures forall r :: r in Records(ss) <==> exists s :: s in ForestSubtrees(ss) && s.(children := []) == r
    ensures forall e :: e in Links(ss) <==> exists s :: s in ForestSubtrees(ss) && e in ChildNames(s)
    decreases ss
  {
    if ss != [] {
      RecordsAndLinksAre(ss[0].children);
      RecordsAndLinksAre(ss[1..]);
      assert ForestSubtrees(ss) == {ss[0]} + ForestSubtrees(ss[0].children) + ForestSubtrees(ss[1..]);
    }
  }

  lemma NoSubtrees()
    ensures ForestSubtrees([]) == {}
  {
  }

  lemma ForestSubtreesAre(ss: seq<Service>)
    requires ss != []
    ensures ForestSubtrees(ss) == {ss[0]} + ForestSubtrees(ss[0].children) + ForestSubtrees(ss[1..])
  {
  }

  lemma DistinctParts(head: string, a: seq<string>, b: seq<string>)
    requires NoDuplicates([head] + a + b)
    ensures NoDuplicates(a) && NoDuplicates(b) && head !in a && head !in b && forall n :: n in a ==> n !in b
  {
    var all := [head] + a + b;
    assert forall i :: 0 <= i < |a| ==> all[i + 1] == a[i];
    assert forall i :: 0 <= i < |b| ==> all[i + 1 + |a|] == b[i];
    assert all[0] == head;
  }

  /** With distinct names a name belongs to one service of the forest. */
  lemma {:induction false} NameIsUnique(ss: seq<Service>, s: Service, t: Service)
    requires NoDuplicates(ForestGroups(ss)) && s in ForestSubtrees(ss) && t in ForestSubtrees(ss) && s.serviceGroup == t.serviceGroup
    ensures s == t
    decreases ss
  {
    hide *;
    NoSubtrees();
    var head, inner, rest := ss[0].serviceGroup, ss[0].children, ss[1..];
    Unfold(ss);
    ForestSubtreesAre(ss);
    DistinctParts(head, ForestGroups(inner), ForestGroups(rest));
    ForestGroupsAreNames(inner);
    ForestGroupsAreNames(rest);
    if s in ForestSubtrees(inner) && t in ForestSubtrees(inner) {
      NameIsUnique(inner, s, t);
    } else if s in ForestSubtrees(rest) && t in ForestSubtrees(rest) {
      NameIsUnique(rest, s, t);
    } else {
      assert s.serviceGroup in ForestGroups(inner) || s.serviceGroup in ForestGroups(rest) || s == ss[0];
      assert t.serviceGroup in ForestGroups(inner) || t.serviceGroup in ForestGroups(rest) || t == ss[0];
    }
  }

  lemma SameTreeIs(s: Service, t: Service)
    requires s.(children := []) == t.(children := [])
    requires SameForest(s.children, t.children)
    ensures SameTree(s, t)
  {
  }

  lemma SameRecord(ss: seq<Service>, ts: seq<Service>, s: Service, t: Service)
    requires NoDuplicates(ForestGroups(ts)) && Records(ss) == Records(ts)
    requires s in ForestSubtrees(ss) && t in ForestSubtrees(ts) && s.serviceGroup == t.serviceGroup
    ensures s.(children := []) == t.(children := [])
  {
    hide *;
    RecordsAndLinksAre(ss);
    RecordsAndLinksAre(ts);
    assert s.(children := []) in Records(ss);
    var t' :| t' in ForestSubtrees(ts) && t'.(children := []) == s.(children := []);
    assert t'.(children := []).serviceGroup == s.(children := []).serviceGroup;
    NameIsUnique(ts, t, t');
  }

  lemma {:induction false} SameByName(ss: seq<Service>, ts: seq<Service>, s: Service, t: Service)
    requires NoDuplicates(ForestGroups(ss)) && NoDuplicates(ForestGroups(ts))
    requires Records(ss) == Records(ts) && Links(ss) == Links(ts)
    requires s in ForestSubtrees(ss) && t in ForestSubtrees(ts) && s.serviceGroup == t.serviceGroup
    ensures SameTree(s, t)
    decreases s
  {
    hide *;
    SameRecord(ss, ts, s, t);
    forall c | c in s.children ensures TwinIn(c, t.children) {
      var d := ChildByName(ss, ts, s, t, c);
      SameByName(ss, ts, c, d);
      AreTwins(s.children, t.children, c, d);
    }
    forall d | d in t.children ensures TwinFrom(s.children, d) {
      var c := ChildByName(ts, ss, t, s, d);
      SameByName(ss, ts, c, d);
      AreTwins(s.children, t.children, c, d);
    }
    SameForestIs(s.children, t.children);
    SameTreeIs(s, t);
  }

  lemma IsChildName(s: Service, c: Service)
    requires c in s.children
    ensures Edge(s.serviceGroup, c.serviceGroup) in ChildNames(s)
  {
  }

  lemma ChildNamed(t: Service, e: Edge<string>) returns (d: Service)
    requires e in ChildNames(t)
    ensures e.from == t.serviceGroup && d in t.children && d.serviceGroup == e.to
  {
    d :| d in t.children && d.serviceGroup == e.to;
  }

  lemma ChildByName(ss: seq<Service>, ts: seq<Service>, s: Service, t: Service, c: Service) returns (d: Service)
    requires NoDuplicates(ForestGroups(ts)) && Links(ss) == Links(ts)
    requires s in ForestSubtrees(ss) && t in ForestSubtrees(ts) && s.serviceGroup == t.serviceGroup && c in s.children
    ensures d in t.children && d.serviceGroup == c.serviceGroup && c in ForestSubtrees(ss) && d in ForestSubtrees(ts)
  {
    hide *;
    RecordsAndLinksAre(ss);
    RecordsAndLinksAre(ts);
    ForestClosed(ss);
    ForestClosed(ts);
    var e := Edge(s.serviceGroup, c.serviceGroup);
    IsChildName(s, c);
    assert e in Links(ts);
    var t' :| t' in ForestSubtrees(ts) && e in ChildNames(t');
    d := ChildNamed(t', e);
    NameIsUnique(ts, t, t');
  }

  lemma RootsByName(ss: seq<Service>, ts: seq<Service>)
    requires NoDuplicates(ForestGroups(ss)) && NoDuplicates(ForestGroups(ts))
    requires Records(ss) == Records(ts) && Links(ss) == Links(ts)
    requires forall n :: n in RootNames(ss) <==> n in RootNames(ts)
    ensures SameForest(ss, ts)
  {
    hide *;
    RootNamesAre(ss);
    RootNamesAre(ts);
    RootsInside(ss);
    RootsInside(ts);
    forall s | s in ss ensures TwinIn(s, ts) {
      var j :| 0 <= j < |ts| && RootNames(ts)[j] == s.serviceGroup;
      SameByName(ss, ts, s, ts[j]);
      AreTwins(ss, ts, s, ts[j]);
    }
    forall t | t in ts ensures TwinFrom(ss, t) {
      var j :| 0 <= j < |ss| && RootNames(ss)[j] == t.serviceGroup;
      SameByName(ss, ts, ss[j], t);
      AreTwins(ss, ts, ss[j], t);
    }
    SameForestIs(ss, ts);
  }

  lemma RootsInside(ss: seq<Service>)
    ensures forall s :: s in ss ==> s in ForestSubtrees(ss) && s.serviceGroup in RootNames(ss)
  {
    RootNamesAre(ss);
    ForestContains(ss);
    forall s | s in ss ensures s in Subtrees(s) {
    }
  }

  lemma SameForestIs(ss: seq<Service>, ts: seq<Service>)
    requires forall s :: s in ss ==> TwinIn(s, ts)
    requires forall t :: t in ts ==> TwinFrom(ss, t)
    ensures SameForest(ss, ts)
  {
    hide TwinIn, TwinFrom;
  }

  /** The same entries in another order. */
  ghost predicate Reordered<T>(ss: seq<T>, ts: seq<T>) {
    multiset(ss) == multiset(ts)
  }

  lemma WithoutOne<T>(a: seq<T>, s: T, b: seq<T>, rest: seq<T>)
    requires multiset(a + ([s] + b)) == multiset([s] + rest)
    ensures multiset(a + b) == multiset(rest)
  {
    assert multiset(a + ([s] + b)) == multiset(a + b) + multiset{s};
    assert multiset([s] + rest) == multiset(rest) + multiset{s};
    assert multiset(a + b) == (multiset(a + b) + multiset{s}) - multiset{s};
    assert multiset(rest) == (multiset(rest) + multiset{s}) - multiset{s};
  }

  /** The rest of a reordered list, around the place of its first tree. */
  lemma FirstOf<T>(ss: seq<T>, ts: seq<T>) returns (a: seq<T>, b: seq<T>)
    requires Reordered(ss, ts) && ss != []
    ensures ts == a + ([ss[0]] + b) && Reordered(ss[1..], a + b)
  {
    assert ss[0] in multiset(ts);
    var k :| 0 <= k < |ts| && ts[k] == ss[0];
    a, b := ts[..k], ts[k + 1..];
    assert ts == a + ([ss[0]] + b) && ss == [ss[0]] + ss[1..];
    WithoutOne(a, ss[0], b, ss[1..]);
  }

  lemma NothingReordered<T>(ts: seq<T>)
    requires Reordered([], ts)
    ensures ts == []
  {
    assert |multiset(ts)| == 0;
  }

  lemma {:induction false} ReorderedParts(ss: seq<Service>, ts: seq<Service>)
    requires Reordered(ss, ts)
    ensures Records(ss) == Records(ts) && Links(ss) == Links(ts)
    ensures multiset(ForestGroups(ss)) == multiset(ForestGroups(ts))
    ensures multiset(RootNames(ss)) == multiset(RootNames(ts))
    decreases ss
  {
    hide *;
    if ss == [] {
      NothingReordered(ts);
    } else {
      var a: seq<Service>, b: seq<Service> := FirstOf(ss, ts);
      ReorderedParts(ss[1..], a + b);
      ForestParts(a, [ss[0]] + b);
      ForestParts([ss[0]], b);
      ForestParts([ss[0]], ss[1..]);
      assert [ss[0]] + ss[1..] == ss;
      ForestParts(a, b);
    }
  }

  lemma {:induction false} ReorderedParentLinks(ss: seq<Service>, ts: seq<Service>)
    requires Reordered(ss, ts) && HaveParents(ss) && HaveParents(ts)
    ensures ParentLinks(ss) == ParentLinks(ts)
    decreases ss
  {
    if ss == [] {
      NothingReordered(ts);
    } else {
      var a: seq<Service>, b: seq<Service> := FirstOf(ss, ts);
      forall i | 0 <= i < |a + b| ensures (a + b)[i].externalParent.Some? {
        assert (a + b)[i] == if i < |a| then ts[i] else ts[i + 1];
      }
      ReorderedParentLinks(ss[1..], a + b);
      ParentLinksSplit(a, ss[0], b);
    }
  }

  lemma {:induction false} ParentLinksSplit(a: seq<Service>, s: Service, b: seq<Service>)
    requires HaveParents(a + ([s] + b)) && HaveParents(a + b) && s.externalParent.Some?
    ensures ParentLinks(a + ([s] + b)) == ParentLinks(a + b) + {Edge(s.externalParent.value, s.serviceGroup)}
  {
    if a == [] {
      assert a + ([s] + b) == [s] + b && a + b == b;
    } else {
      assert (a + ([s] + b))[1..] == a[1..] + ([s] + b) && (a + b)[1..] == a[1..] + b;
      ParentLinksSplit(a[1..], s, b);
    }
  }

  /** Listing the files in another order gives the same forest up to the order of siblings, or fails as well. */
  lemma OrderDoesNotMatter(services: seq<Service>, pending: seq<Service>, services': seq<Service>, pending': seq<Service>)
    requires HaveParents(pending) && HaveParents(pending') && NoDuplicates(ForestGroups(services + pending))
    requires Reordered(services, services') && Reordered(pending, pending')
    ensures Combine(services, pending).Ok? <==> Combine(services', pending').Ok?
    ensures Combine(services, pending).Ok? ==>
      SameForest(Combine(services, pending).value, Combine(services', pending').value)
  {
    hide *;
    ReorderedParts(services, services');
    ReorderedParts(pending, pending');
    ReorderedParentLinks(pending, pending');
    AllLinksIs(services, pending);
    AllLinksIs(services', pending');
    ForestParts(services, pending);
    ForestParts(services', pending');
    SameNames(ForestGroups(services + pending), ForestGroups(services' + pending'));
    CombineSucceeds(services, pending);
    CombineSucceeds(services', pending');
    ReorderedParents(services, pending, services', pending');
    ReorderedBack(services, services');
    ReorderedBack(pending, pending');
    ReorderedParents(services', pending', services, pending);
    if Combine(services, pending).Ok? {
      var r, r' := Combine(services, pending).value, Combine(services', pending').value;
      CombineConserves(services, pending);
      CombineConserves(services', pending');
      ConservesIs(services, pending, r);
      ConservesIs(services', pending', r');
      SameNames(RootNames(services), RootNames(services'));
      SameNames(ForestGroups(r), ForestGroups(services + pending));
      SameNames(ForestGroups(r'), ForestGroups(services' + pending'));
      RootsByName(r, r');
    }
  }

  lemma ReorderedBack<T>(ss: seq<T>, ts: seq<T>)
    requires Reordered(ss, ts)
    ensures Reordered(ts, ss)
  {
  }

  lemma ConservesIs(services: seq<Service>, pending: seq<Service>, result: seq<Service>)
    requires HaveParents(pending) && Conserves(services, pending, result)
    ensures multiset(ForestGroups(result)) == multiset(ForestGroups(services + pending))
    ensures Records(result) == Records(services) + Records(pending)
    ensures Links(result) == AllLinks(services, pending)
    ensures RootNames(result) == RootNames(services)
  {
    ForestParts(services, pending);
  }

  lemma ReorderedParents(services: seq<Service>, pending: seq<Service>, services': seq<Service>, pending': seq<Service>)
    requires HaveParents(pending) && HaveParents(pending')
    requires Reordered(services, services') && Reordered(pending, pending')
    ensures ParentsLoaded(services, pending) ==> ParentsLoaded(services', pending')
  {
    ReorderedParts(services, services');
    ReorderedParts(pending, pending');
    SameNames(ForestGroups(services), ForestGroups(services'));
    SameNames(ForestGroups(pending), ForestGroups(pending'));
    if ParentsLoaded(services, pending) {
      forall i | 0 <= i < |pending'|
        ensures pending'[i].externalParent.value in ForestGroups(services') || pending'[i].externalParent.value in ForestGroups(pending')
      {
        assert pending'[i] in multiset(pending);
        var j :| 0 <= j < |pending| && pending[j] == pending'[i];
      }
    }
  }

  // ----- grafting and the inheritance of stamping

  /** A graft into a propagated forest: the new tree inherits from its parent. */
  function GraftInheriting(ss: seq<Service>, name: string, svc: Service): seq<Service> {
    if ss == [] then []
    else if name in Groups(ss[0]) then
      var s := ss[0];
      [s.(children := if s.serviceGroup == name then s.children + [Propagate(svc, s.IsStamped())]
                      else GraftInheriting(s.children, name, svc))] + ss[1..]
    else [ss[0]] + GraftInheriting(ss[1..], name, svc)
  }

  lemma {:induction false} PropagateGraft(ss: seq<Service>, name: string, svc: Service, parentStamped: bool)
    ensures PropagateForest(Graft(ss, name, svc), parentStamped) == GraftInheriting(PropagateForest(ss, parentStamped), name, svc)
    decreases ss
  {
    if ss != [] {
      var s, rest := ss[0], ss[1..];
      var after := Propagate(s, parentStamped);
      PropagateKeepsGroups(s, parentStamped);
      assert PropagateForest(ss, parentStamped) == [after] + PropagateForest(rest, parentStamped);
      GraftIs(ss, name, svc);
      var r := Graft(ss, name, svc);
      assert PropagateForest(r, parentStamped) == [Propagate(r[0], parentStamped)] + PropagateForest(r[1..], parentStamped);
      if name !in Groups(s) {
        PropagateGraft(rest, name, svc, parentStamped);
      } else if s.serviceGroup == name {
        PropagateConcat(s.children, [svc], after.IsStamped());
        assert PropagateForest([svc], after.IsStamped()) == [Propagate(svc, after.IsStamped())];
      } else {
        PropagateGraft(s.children, name, svc, after.IsStamped());
      }
    }
  }

  lemma {:induction false} InheritingDependsOnStamps(ss: seq<Service>, name: string, v: Service, w: Service)
    requires forall b :: Propagate(v, b) == Propagate(w, b)
    ensures GraftInheriting(ss, name, v) == GraftInheriting(ss, name, w)
    decreases ss
  {
    if ss != [] {
      if name in Groups(ss[0]) {
        InheritingDependsOnStamps(ss[0].children, name, v, w);
      } else {
        InheritingDependsOnStamps(ss[1..], name, v, w);
      }
    }
  }

  /** Equal once propagated, whatever is inherited. */
  ghost predicate SameStamps(ss: seq<Service>, ts: seq<Service>) {
    |ss| == |ts| && forall b :: PropagateForest(ss, b) == PropagateForest(ts, b)
  }

  lemma SameStampsParts(ss: seq<Service>, ts: seq<Service>)
    requires SameStamps(ss, ts) && ss != []
    ensures forall b :: Propagate(ss[0], b) == Propagate(ts[0], b)
    ensures SameStamps(ss[1..], ts[1..])
    ensures ss[0].externalParent == ts[0].externalParent && ss[0].serviceGroup == ts[0].serviceGroup
    ensures Groups(ss[0]) == Groups(ts[0])
  {
    forall b ensures Propagate(ss[0], b) == Propagate(ts[0], b) && PropagateForest(ss[1..], b) == PropagateForest(ts[1..], b) {
      assert PropagateForest(ss, b) == PropagateForest(ts, b);
      assert PropagateForest(ss, b)[0] == Propagate(ss[0], b) && PropagateForest(ss, b)[1..] == PropagateForest(ss[1..], b);
      assert PropagateForest(ts, b)[0] == Propagate(ts[0], b) && PropagateForest(ts, b)[1..] == PropagateForest(ts[1..], b);
    }
    PropagateKeepsGroups(ss[0], false);
    PropagateKeepsGroups(ts[0], false);
  }

  lemma GraftSameStamps(ss: seq<Service>, ts: seq<Service>, name: string, v: Service, w: Service)
    requires SameStamps(ss, ts) && forall b :: Propagate(v, b) == Propagate(w, b)
    ensures SameStamps(Graft(ss, name, v), Graft(ts, name, w))
  {
    forall b ensures PropagateForest(Graft(ss, name, v), b) == PropagateForest(Graft(ts, name, w), b) {
      PropagateGraft(ss, name, v, b);
      PropagateGraft(ts, name, w, b);
      InheritingDependsOnStamps(PropagateForest(ss, b), name, v, w);
    }
  }

  lemma GraftSameBase(ss: seq<Service>, ts: seq<Service>, name: string, v: Service, w: Service)
    requires PropagateForest(ss, false) == PropagateForest(ts, false) && forall b :: Propagate(v, b) == Propagate(w, b)
    ensures PropagateForest(Graft(ss, name, v), false) == PropagateForest(Graft(ts, name, w), false)
  {
    PropagateGraft(ss, name, v, false);
    PropagateGraft(ts, name, w, false);
    InheritingDependsOnStamps(PropagateForest(ss, false), name, v, w);
  }

  lemma {:induction false} CombineSameStamps(services: seq<Service>, pending: seq<Service>, services': seq<Service>, pending': seq<Service>)
    requires HaveParents(pending) && HaveParents(pending')
    requires PropagateForest(services, false) == PropagateForest(services', false) && SameStamps(pending, pending')
    ensures Combine(services, pending).Ok? <==> Combine(services', pending').Ok?
    ensures Combine(services, pending).Ok? ==>
      PropagateForest(Combine(services, pending).value, false) == PropagateForest(Combine(services', pending').value, false)
    ensures Combine(services, pending).Err? ==> Combine(services, pending).error == Combine(services', pending').error
    decreases |pending|
  {
    if pending == [] {
      return;
    }
    SameStampsParts(pending, pending');
    hide *;
    CombineIs(services, pending);
    CombineIs(services', pending');
    MissingIsReported(services, pending);
    MissingIsReported(services', pending');
    var svc, later, svc', later' := pending[0], pending[1..], pending'[0], pending'[1..];
    var parent := svc.externalParent.value;
    PropagateForestKeepsGroups(services, false);
    PropagateForestKeepsGroups(services', false);
    SameStampsGroups(later, later');
    if parent in ForestGroups(services) {
      GraftSameBase(services, services', parent, svc, svc');
      CombineSameStamps(Graft(services, parent, svc), later, Graft(services', parent, svc'), later');
    } else if parent in ForestGroups(later) {
      GraftSameStamps(later, later', parent, svc, svc');
      CombineSameStamps(services, Graft(later, parent, svc), services', Graft(later', parent, svc'));
    }
  }

  lemma MissingIsReported(services: seq<Service>, pending: seq<Service>)
    requires HaveParents(pending) && pending != []
    ensures pending[0].externalParent.Some?
    ensures var parent := pending[0].externalParent.value;
            parent !in ForestGroups(services) && parent !in ForestGroups(pending[1..]) ==>
              Combine(services, pending) == Err(MissingParent(pending[0].serviceGroup, parent))
  {
  }

  lemma SameStampsGroups(ss: seq<Service>, ts: seq<Service>)
    requires SameStamps(ss, ts)
    ensures ForestGroups(ss) == ForestGroups(ts)
  {
    PropagateForestKeepsGroups(ss, false);
    PropagateForestKeepsGroups(ts, false);
  }

  lemma PropagateHaveParents(pending: seq<Service>)
    requires HaveParents(pending)
    ensures HaveParents(PropagateForest(pending, false))
  {
    forall i | 0 <= i < |pending| ensures PropagateForest(pending, false)[i].externalParent.Some? {
      PropagateAt(pending, false, i);
    }
  }

  /** Propagating every file before combining them changes neither the outcome nor the propagated result. */
  lemma PropagateBeforeCombining(services: seq<Service>, pending: seq<Service>)
    requires HaveParents(pending)
    ensures HaveParents(PropagateForest(pending, false))
    ensures var loaded := Combine(PropagateForest(services, false), PropagateForest(pending, false));
            match Combine(services, pending)
            case Ok(forest) => loaded.Ok? && PropagateForest(loaded.value, false) == PropagateForest(forest, false)
            case Err(e) => loaded == Err(e)
  {
    PropagateHaveParents(pending);
    PropagateForestAgain(services, false, false);
    forall b ensures PropagateForest(PropagateForest(pending, false), b) == PropagateForest(pending, b) {
      PropagateForestAgain(pending, false, b);
    }
    CombineSameStamps(services, pending, PropagateForest(services, false), PropagateForest(pending, false));
  }

  lemma PropagatedFrom(ss: seq<Service>, b: bool, x: Service) returns (s: Service)
    requires x in PropagateForest(ss, b)
    ensures s in ss && x == Propagate(s, b)
  {
    var i :| 0 <= i < |ss| && PropagateForest(ss, b)[i] == x;
    PropagateAt(ss, b, i);
    s := ss[i];
  }

  lemma PropagatedIn(ss: seq<Service>, b: bool, s: Service)
    requires s in ss
    ensures Propagate(s, b) in PropagateForest(ss, b)
  {
    var i :| 0 <= i < |ss| && ss[i] == s;
    PropagateAt(ss, b, i);
  }

  /** Propagation respects equality up to the order of siblings. */
  lemma {:induction false} PropagateSameTree(s: Service, t: Service, b: bool)
    requires SameTree(s, t)
    ensures SameTree(Propagate(s, b), Propagate(t, b))
    decreases s, 1
  {
    SameTreeHas(s, t);
    hide SameTree, SameForest;
    var s', t' := Propagate(s, b), Propagate(t, b);
    PropagateSameForest(s.children, t.children, s'.IsStamped());
    assert s'.(children := []) == s.(children := []).(stamped := s'.stamped);
    assert t'.(children := []) == t.(children := []).(stamped := t'.stamped);
    SameTreeIs(s', t');
  }

  lemma SameTreeHas(s: Service, t: Service)
    requires SameTree(s, t)
    ensures s.(children := []) == t.(children := []) && s.stamped == t.stamped
    ensures SameForest(s.children, t.children)
  {
    assert s.(children := []).stamped == t.(children := []).stamped;
  }

  lemma {:induction false} PropagateSameForest(ss: seq<Service>, ts: seq<Service>, b: bool)
    requires SameForest(ss, ts)
    ensures SameForest(PropagateForest(ss, b), PropagateForest(ts, b))
    decreases ss, 0
  {
    hide *;
    SameForestHas(ss, ts);
    var ss', ts' := PropagateForest(ss, b), PropagateForest(ts, b);
    forall s' | s' in ss' ensures TwinIn(s', ts') {
      var s := PropagatedFrom(ss, b, s');
      var t := TwinOf(s, ts);
      PropagateSameTree(s, t, b);
      PropagatedIn(ts, b, t);
      AreTwins(ss', ts', s', Propagate(t, b));
    }
    forall t' | t' in ts' ensures TwinFrom(ss', t') {
      var t := PropagatedFrom(ts, b, t');
      var s := TwinTo(ss, t);
      PropagateSameTree(s, t, b);
      PropagatedIn(ss, b, s);
      AreTwins(ss', ts', Propagate(s, b), t');
    }
    SameForestIs(ss', ts');
  }

  lemma SameForestHas(ss: seq<Service>, ts: seq<Service>)
    requires SameForest(ss, ts)
    ensures forall s :: s in ss ==> TwinIn(s, ts)
    ensures forall t :: t in ts ==> TwinFrom(ss, t)
  {
    hide TwinIn, TwinFrom;
  }

  lemma TwinOf(s: Service, ts: seq<Service>) returns (t: Service)
    requires TwinIn(s, ts)
    ensures t in ts && SameTree(s, t)
  {
    hide SameTree;
    t :| t in ts && SameTree(s, t);
  }

  lemma TwinTo(ss: seq<Service>, t: Service) returns (s: Service)
    requires TwinFrom(ss, t)
    ensures s in ss && SameTree(s, t)
  {
    hide SameTree;
    s :| s in ss && SameTree(s, t);
  }
}
