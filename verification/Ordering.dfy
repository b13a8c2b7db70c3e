/** Total orders on strings and the sorted, duplicate-free lists built with them. */
module Ordering {
  /** The three-way comparison of strings by code point: -1, 0 or 1. */
  function Compare(a: string, b: string): int {
    if a == b then 0
    else if a == [] then -1
    else if b == [] then 1
    else if a[0] < b[0] then -1
    else if a[0] > b[0] then 1
    else Compare(a[1..], b[1..])
  }

  lemma {:induction false} CompareLaws(a: string, b: string)
    ensures Compare(a, b) == 0 <==> a == b
    ensures Compare(a, b) == -Compare(b, a)
    ensures Compare(a, b) in {-1, 0, 1}
  {
    if a != [] && b != [] && a[0] == b[0] && a != b {
      assert a == [a[0]] + a[1..] && b == [b[0]] + b[1..];
      CompareLaws(a[1..], b[1..]);
    }
  }

  lemma {:induction false} CompareTransitive(a: string, b: string, c: string)
    requires Compare(a, b) <= 0 && Compare(b, c) <= 0
    ensures Compare(a, c) <= 0
  {
    if a != b && b != c && a != [] && b != [] && c != [] && a[0] == b[0] == c[0] {
      CompareTransitive(a[1..], b[1..], c[1..]);
    }
  }

  /** `less` is a strict total order. */
  ghost predicate TotalOrder<T(!new)>(less: (T, T) -> bool) {
    && (forall x :: !less(x, x))
    && (forall x, y, z :: less(x, y) && less(y, z) ==> less(x, z))
    && (forall x, y :: x == y || less(x, y) || less(y, x))
  }

  ghost predicate Ascending<T(!new)>(less: (T, T) -> bool, s: seq<T>) {
    forall i, j :: 0 <= i < j < |s| ==> less(s[i], s[j])
  }

  function Insert<T(!new,==)>(less: (T, T) -> bool, x: T, s: seq<T>): (r: seq<T>)
    requires TotalOrder(less) && Ascending(less, s)
    ensures Ascending(less, r)
    ensures forall y :: y in r <==> y == x || y in s
  {
    if s == [] then [x]
    else if s[0] == x then s
    else if less(x, s[0]) then [x] + s
    else
      var rest := Insert(less, x, s[1..]);
      assert s == [s[0]] + s[1..];
      assert forall i :: 0 <= i < |rest| ==> rest[i] in rest;
      [s[0]] + rest
  }

  /** Sorting and dropping equal neighbours. */
  function SortCompact<T(!new,==)>(less: (T, T) -> bool, s: seq<T>): (r: seq<T>)
    requires TotalOrder(less)
    ensures Ascending(less, r)
    ensures forall y :: y in r <==> y in s
  {
    if s == [] then []
    else
      assert s == [s[0]] + s[1..];
      Insert(less, s[0], SortCompact(less, s[1..]))
  }

  /** A set has one ascending listing, so a sorted and compacted list does not depend on the order it was filled in. */
  lemma {:induction false} AscendingIsCanonical<T(!new)>(less: (T, T) -> bool, s: seq<T>, t: seq<T>)
    requires TotalOrder(less) && Ascending(less, s) && Ascending(less, t)
    requires forall y :: y in s <==> y in t
    ensures s == t
  {
    assert |t| > 0 ==> t[0] in s;
    if s != [] {
      assert s[0] in s && s[0] in t;
      assert t[0] in t && t[0] in s;
      assert s[0] == t[0];
      assert s == [s[0]] + s[1..] && t == [t[0]] + t[1..];
      forall y | y in s[1..] ensures y in t[1..] { assert y in s; }
      forall y | y in t[1..] ensures y in s[1..] { assert y in t; }
      AscendingIsCanonical(less, s[1..], t[1..]);
    }
  }

  predicate StringLess(a: string, b: string) { Compare(a, b) < 0 }

  lemma StringLessIsTotal()
    ensures TotalOrder(StringLess)
  {
    forall x, y ensures !StringLess(x, x) && (x == y || StringLess(x, y) || StringLess(y, x)) {
      CompareLaws(x, y);
    }
    forall x, y, z | StringLess(x, y) && StringLess(y, z) ensures StringLess(x, z) {
      CompareTransitive(x, y, z);
      CompareLaws(x, z);
      CompareLaws(x, y);
    }
  }

  /** The lexicographic order on lists of strings of one length, as a chain of field comparisons produces it. */
  predicate FieldsLess(a: seq<string>, b: seq<string>) {
    |a| > 0 && |b| > 0 &&
    if a[0] != b[0] then StringLess(a[0], b[0]) else FieldsLess(a[1..], b[1..])
  }

  lemma {:induction false} FieldsLessTotal(a: seq<string>, b: seq<string>)
    requires |a| == |b|
    ensures !FieldsLess(a, a)
    ensures a == b || FieldsLess(a, b) || FieldsLess(b, a)
  {
    if a != [] {
      StringLessIsTotal();
      FieldsLessTotal(a[1..], b[1..]);
      assert a == [a[0]] + a[1..] && b == [b[0]] + b[1..];
    }
  }

  lemma {:induction false} FieldsLessTransitive(a: seq<string>, b: seq<string>, c: seq<string>)
    requires FieldsLess(a, b) && FieldsLess(b, c)
    ensures FieldsLess(a, c)
  {
    StringLessIsTotal();
    if a[0] == b[0] == c[0] {
      FieldsLessTransitive(a[1..], b[1..], c[1..]);
    }
  }
}
