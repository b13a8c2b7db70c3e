/** Paths, cycles and reverse topological orders over a finite edge relation. */
module Reachability {
  datatype Edge<+T> = Edge(from: T, to: T)

  /** A path is a nonempty sequence of vertices in which every step follows an edge. */
  ghost predicate IsPath<T>(edges: set<Edge<T>>, p: seq<T>) {
    && |p| > 0
    && forall i :: 0 <= i < |p| - 1 ==> Edge(p[i], p[i + 1]) in edges
  }

  ghost predicate IsPathFromTo<T>(edges: set<Edge<T>>, p: seq<T>, a: T, b: T) {
    IsPath(edges, p) && p[0] == a && p[|p| - 1] == b
  }

  /** Some path with at least one edge leads from `a` to `b`. */
  ghost predicate Reaches<T(!new)>(edges: set<Edge<T>>, a: T, b: T) {
    exists p :: IsPathFromTo(edges, p, a, b) && |p| >= 2
  }

  ghost predicate Acyclic<T(!new)>(edges: set<Edge<T>>) {
    forall p :: IsPath(edges, p) && |p| >= 2 ==> p[0] != p[|p| - 1]
  }

  /** Every vertex comes after all the vertices its edges lead to, so the order is a finish order of a search. */
  ghost predicate ReverseTopological<T>(edges: set<Edge<T>>, order: seq<T>) {
    && (forall i, j :: 0 <= i < j < |order| ==> order[i] != order[j])
    && (forall e :: e in edges && e.from in order ==>
                      exists i, j :: 0 <= i < j < |order| && order[i] == e.to && order[j] == e.from)
  }

  lemma ReachesByEdge<T(!new)>(edges: set<Edge<T>>, a: T, b: T)
    requires Edge(a, b) in edges
    ensures Reaches(edges, a, b)
  {
    assert IsPathFromTo(edges, [a, b], a, b);
  }

  lemma ReachesTrans<T(!new)>(edges: set<Edge<T>>, a: T, b: T, c: T)
    requires Reaches(edges, a, b) && Reaches(edges, b, c)
    ensures Reaches(edges, a, c)
  {
    var p :| IsPathFromTo(edges, p, a, b) && |p| >= 2;
    var q :| IsPathFromTo(edges, q, b, c) && |q| >= 2;
    var r := p + q[1..];
    forall i | 0 <= i < |r| - 1 ensures Edge(r[i], r[i + 1]) in edges {
      if i >= |p| - 1 {
        assert r[i] == q[i - |p| + 1] && r[i + 1] == q[i - |p| + 2];
      }
    }
    assert IsPathFromTo(edges, r, a, c);
  }

  lemma ReachesMonotone<T(!new)>(small: set<Edge<T>>, large: set<Edge<T>>, a: T, b: T)
    requires Reaches(small, a, b) && small <= large
    ensures Reaches(large, a, b)
  {
    var p :| IsPathFromTo(small, p, a, b) && |p| >= 2;
    assert IsPathFromTo(large, p, a, b);
  }

  lemma AcyclicMeansIrreflexive<T(!new)>(edges: set<Edge<T>>)
    ensures Acyclic(edges) <==> forall a :: !Reaches(edges, a, a)
  {
    if !Acyclic(edges) {
      var p :| IsPath(edges, p) && |p| >= 2 && p[0] == p[|p| - 1];
      assert IsPathFromTo(edges, p, p[0], p[0]);
      assert Reaches(edges, p[0], p[0]);
    }
  }

  lemma AcyclicMonotone<T(!new)>(small: set<Edge<T>>, large: set<Edge<T>>)
    requires small <= large && Acyclic(large)
    ensures Acyclic(small)
  {
    forall p | IsPath(small, p) && |p| >= 2 ensures p[0] != p[|p| - 1] {
      assert IsPath(large, p);
    }
  }

  /** An order in which targets precede sources rules out cycles. */
  lemma OrderedMeansAcyclic<T(!new)>(edges: set<Edge<T>>, order: seq<T>)
    requires ReverseTopological(edges, order)
    requires forall e :: e in edges ==> e.from in order
    ensures Acyclic(edges)
  {
    forall p | IsPath(edges, p) && |p| >= 2 ensures p[0] != p[|p| - 1] {
      var i, j := PositionsFall(edges, order, p);
    }
  }

  lemma {:induction false} PositionsFall<T>(edges: set<Edge<T>>, order: seq<T>, p: seq<T>) returns (i: nat, j: nat)
    requires ReverseTopological(edges, order)
    requires forall e :: e in edges ==> e.from in order
    requires IsPath(edges, p) && |p| >= 2
    ensures i < j < |order| && order[j] == p[0] && order[i] == p[|p| - 1]
  {
    var e := Edge(p[0], p[1]);
    assert e in edges;
    var i0, j0 :| 0 <= i0 < j0 < |order| && order[i0] == e.to && order[j0] == e.from;
    i, j := i0, j0;
    if |p| > 2 {
      var q := p[1..];
      forall k | 0 <= k < |q| - 1 ensures Edge(q[k], q[k + 1]) in edges {
        assert Edge(p[k + 1], p[k + 2]) in edges;
      }
      var i1, j1 := PositionsFall(edges, order, q);
      i := i1;
    }
  }

  /** A chain that returns to one of its own vertices contains a cycle. */
  lemma ClosedChainIsCycle<T(!new)>(edges: set<Edge<T>>, chain: seq<T>, back: T)
    requires IsPath(edges, chain) && back in chain && Edge(chain[|chain| - 1], back) in edges
    ensures !Acyclic(edges)
  {
    var i :| 0 <= i < |chain| && chain[i] == back;
    var p := chain[i..] + [back];
    assert IsPath(edges, p) && p[0] == p[|p| - 1];
  }
}
