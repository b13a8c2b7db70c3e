/** Service dependency trees and the searches over them. */
module ServiceTree {
  import opened Wrappers

  datatype Service = Service(
    serviceGroup: string,
    purpose: string,
    pipelinePath: string,
    children: seq<Service>,
    metadata: map<string, string>,
    externalParent: Option<string>,
    stamped: Option<bool>)
  {
    predicate IsStamped() { stamped.Some? && stamped.value }
  }

  /** All services of a tree, the root included. */
  function Subtrees(s: Service): set<Service> {
    {s} + ForestSubtrees(s.children)
  }

  function ForestSubtrees(ss: seq<Service>): set<Service> {
    if ss == [] then {} else Subtrees(ss[0]) + ForestSubtrees(ss[1..])
  }

  /** The first service with the given group in depth-first order. */
  function Find(root: Service, group: string): (r: Option<Service>)
    ensures r.Some? ==> r.value.serviceGroup == group && r.value in Subtrees(root)
    ensures r.None? ==> forall s :: s in Subtrees(root) ==> s.serviceGroup != group
  {
    if root.serviceGroup == group then Some(root) else FindInForest(root.children, group)
  }

  function FindInForest(roots: seq<Service>, group: string): (r: Option<Service>)
    ensures r.Some? ==> r.value.serviceGroup == group && r.value in ForestSubtrees(roots)
    ensures r.None? ==> forall s :: s in ForestSubtrees(roots) ==> s.serviceGroup != group
  {
    if roots == [] then None
    else
      match Find(roots[0], group)
      case Some(s) => Some(s)
      case None => FindInForest(roots[1..], group)
  }

  /** The service groups of a tree in depth-first order, one entry per service. */
  function Groups(s: Service): seq<string> {
    [s.serviceGroup] + ForestGroups(s.children)
  }

  function ForestGroups(ss: seq<Service>): seq<string> {
    if ss == [] then [] else Groups(ss[0]) + ForestGroups(ss[1..])
  }

  ghost predicate NoDuplicates<T>(s: seq<T>) {
    forall i, j :: 0 <= i < j < |s| ==> s[i] != s[j]
  }

  lemma {:induction false} GroupsAreNames(s: Service)
    ensures forall g :: g in Groups(s) <==> exists t :: t in Subtrees(s) && t.serviceGroup == g
    decreases s, 1
  {
    ForestGroupsAreNames(s.children);
    assert s in Subtrees(s);
  }

  lemma {:induction false} ForestGroupsAreNames(ss: seq<Service>)
    ensures forall g :: g in ForestGroups(ss) <==> exists t :: t in ForestSubtrees(ss) && t.serviceGroup == g
    decreases ss, 0
  {
    if ss != [] {
      GroupsAreNames(ss[0]);
      ForestGroupsAreNames(ss[1..]);
    }
  }

  /** A child of a service of the tree belongs to the tree. */
  lemma {:induction false} SubtreesClosed(s: Service)
    ensures forall t, c :: t in Subtrees(s) && c in t.children ==> c in Subtrees(s)
    decreases s, 1
  {
    ForestContains(s.children);
    ForestClosed(s.children);
  }

  lemma {:induction false} ForestClosed(ss: seq<Service>)
    ensures forall t, c :: t in ForestSubtrees(ss) && c in t.children ==> c in ForestSubtrees(ss)
    decreases ss, 0
  {
    if ss != [] {
      SubtreesClosed(ss[0]);
      ForestClosed(ss[1..]);
    }
  }

  lemma {:induction false} ForestContains(ss: seq<Service>)
    ensures forall s :: s in ss ==> Subtrees(s) <= ForestSubtrees(ss)
  {
    if ss != [] {
      ForestContains(ss[1..]);
      assert ss == [ss[0]] + ss[1..];
    }
  }

  lemma {:induction false} ForestConcat(ss: seq<Service>, ts: seq<Service>)
    ensures ForestSubtrees(ss + ts) == ForestSubtrees(ss) + ForestSubtrees(ts)
    ensures ForestGroups(ss + ts) == ForestGroups(ss) + ForestGroups(ts)
  {
    if ss == [] {
      assert ss + ts == ts;
    } else {
      assert (ss + ts)[1..] == ss[1..] + ts;
      ForestConcat(ss[1..], ts);
    }
  }

  lemma ForestSingle(s: Service)
    ensures ForestSubtrees([s]) == Subtrees(s) && ForestGroups([s]) == Groups(s)
  {
    assert [s][1..] == [];
  }
}
