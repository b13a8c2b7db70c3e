/** The injection labels of mesh namespaces, the client's cache of them, and relabelling. */
module NamespaceLabels {
  import opened Wrappers

  datatype MeshNamespace = MeshNamespace(name: string, rev: string)

  /** The listing shows every labelled namespace once, with its label. */
  ghost predicate Lists(listing: seq<MeshNamespace>, labels: map<string, string>) {
    && (forall n :: n in listing ==> n.name in labels && labels[n.name] == n.rev)
    && (forall name :: name in labels ==> MeshNamespace(name, labels[name]) in listing)
    && (forall i, j :: 0 <= i < j < |listing| ==> listing[i].name != listing[j].name)
  }

  function Names(listing: seq<MeshNamespace>): seq<string> {
    seq(|listing|, i requires 0 <= i < |listing| => listing[i].name)
  }

  /** The names in a listing are those of all labelled namespaces. */
  lemma NamesCover(listing: seq<MeshNamespace>, labels: map<string, string>)
    requires Lists(listing, labels)
    ensures forall name :: name in Names(listing) <==> name in labels
  {
    forall name ensures name in Names(listing) <==> name in labels {
      if name in labels {
        var i :| 0 <= i < |listing| && listing[i] == MeshNamespace(name, labels[name]);
        assert Names(listing)[i] == name;
      }
      if name in Names(listing) {
        var i :| 0 <= i < |listing| && Names(listing)[i] == name;
        assert listing[i] in listing;
      }
    }
  }

  /** The labels after the first `upto` listed namespaces not shown with `label` have been patched. */
  function Patched(labels: map<string, string>, listing: seq<MeshNamespace>, rev: string, upto: nat): map<string, string>
    requires upto <= |listing|
  {
    if upto == 0 then labels
    else
      var n := listing[upto - 1];
      var before := Patched(labels, listing, rev, upto - 1);
      if n.rev == rev || n.name !in labels then before else before[n.name := rev]
  }

  lemma {:induction false} PatchedLabels(labels: map<string, string>, listing: seq<MeshNamespace>, rev: string, upto: nat)
    requires upto <= |listing|
    ensures Patched(labels, listing, rev, upto).Keys == labels.Keys
    ensures forall name :: name in labels ==>
      Patched(labels, listing, rev, upto)[name] ==
        if exists i :: 0 <= i < upto && listing[i].name == name && listing[i].rev != rev then rev else labels[name]
  {
    if upto > 0 {
      PatchedLabels(labels, listing, rev, upto - 1);
      var n, before := listing[upto - 1], Patched(labels, listing, rev, upto - 1);
      assert Patched(labels, listing, rev, upto) == if n.rev == rev || n.name !in labels then before else before[n.name := rev];
    }
  }

  ghost predicate AllLabelled(labels: map<string, string>, rev: string) {
    forall name :: name in labels ==> labels[name] == rev
  }

  /** A namespace the relabelling overlooks: the listing shows the wanted label, but it has another, or does not show it at all. */
  ghost predicate Overlooked(labels: map<string, string>, listing: seq<MeshNamespace>, rev: string, name: string) {
    name in labels && labels[name] != rev && forall n :: n in listing && n.name == name ==> n.rev == rev
  }

  /** A complete relabelling reaches every namespace exactly when the listing overlooks none. */
  lemma RelabelReachesAll(labels: map<string, string>, listing: seq<MeshNamespace>, rev: string)
    ensures AllLabelled(Patched(labels, listing, rev, |listing|), rev) <==>
      !exists name :: Overlooked(labels, listing, rev, name)
  {
    PatchedLabels(labels, listing, rev, |listing|);
    var after := Patched(labels, listing, rev, |listing|);
    forall name | name in labels ensures after[name] == rev <==> !Overlooked(labels, listing, rev, name) {
      if i :| 0 <= i < |listing| && listing[i].name == name && listing[i].rev != rev {
        assert listing[i] in listing;
      }
    }
  }

  lemma TrueListingOverlooksNone(labels: map<string, string>, listing: seq<MeshNamespace>, rev: string)
    requires Lists(listing, labels)
    ensures !exists name :: Overlooked(labels, listing, rev, name)
  {
    forall name ensures !Overlooked(labels, listing, rev, name) {
      if name in labels {
        assert MeshNamespace(name, labels[name]) in listing;
      }
    }
  }

  /**
    * Relabelling back from the cache of an interrupted relabelling reaches every namespace exactly when no namespace that
    * the cache shows on the old revision has been moved off it.
    */
  lemma RelabelBackAfterInterruption(labels: map<string, string>, half: map<string, string>, listing: seq<MeshNamespace>,
                                     target: string, older: string)
    requires Lists(listing, labels) && Interrupted(labels, target, half)
    ensures AllLabelled(Patched(half, listing, older, |listing|), older) <==>
      forall name :: name in labels && labels[name] == older ==> half[name] == older
  {
    RelabelReachesAll(half, listing, older);
    forall name | name in labels
      ensures Overlooked(half, listing, older, name) <==> half[name] != older && labels[name] == older
    {
      assert MeshNamespace(name, labels[name]) in listing;
    }
  }

  /**
    * A relabelling that fails after its first patch leaves the cache as it was; relabelling back from that cache
    * patches nothing, and the first namespace stays on the target.
    */
  lemma StaleCacheHidesTarget()
    ensures var labels := map["a" := "old", "b" := "old"];
            var cached := [MeshNamespace("a", "old"), MeshNamespace("b", "old")];
            var half := Patched(labels, cached, "target", 1);
            Lists(cached, labels) && Patched(half, cached, "old", 2) == half && half["a"] == "target"
  {
    var labels := map["a" := "old", "b" := "old"];
    var cached := [MeshNamespace("a", "old"), MeshNamespace("b", "old")];
    var half := Patched(labels, cached, "target", 1);
    assert Patched(labels, cached, "target", 0) == labels;
    assert cached[0] in cached && cached[1] in cached;
    assert Patched(half, cached, "old", 0) == half && Patched(half, cached, "old", 1) == half;
  }

  /** The cluster's namespaces and the client that caches them. Requests may fail before or after taking effect. */
  class KubeClient {
    var labels: map<string, string>
    var cached: seq<MeshNamespace>
    var cacheValid: bool

    constructor (labels: map<string, string>)
      ensures this.labels == labels && !cacheValid
    {
      this.labels, cached, cacheValid := labels, [], false;
    }

    /** A valid cache agrees with the cluster. */
    ghost predicate Coherent()
      reads this
    {
      cacheValid ==> Lists(cached, labels)
    }

    /** What the next listing shows: the cache when it is valid, the cluster otherwise. */
    ghost predicate Shows(listing: seq<MeshNamespace>)
      reads this
    {
      if cacheValid then listing == cached else Lists(listing, labels)
    }

    lemma ShowsIs()
      ensures forall listing :: Shows(listing) <==> if cacheValid then listing == cached else Lists(listing, labels)
    {
    }

    method List() returns (r: Option<seq<MeshNamespace>>)
      ensures r.Some? ==> Lists(r.value, labels)
    {
      var failed: bool := *;
      if failed {
        return None;
      }
      var listing: seq<MeshNamespace> := [];
      var remaining := labels.Keys;
      while remaining != {}
        invariant remaining <= labels.Keys
        invariant forall n :: n in listing ==> n.name in labels && n.name !in remaining && labels[n.name] == n.rev
        invariant forall name :: name in labels && name !in remaining ==> MeshNamespace(name, labels[name]) in listing
        invariant forall i, j :: 0 <= i < j < |listing| ==> listing[i].name != listing[j].name
      {
        var name :| name in remaining;
        listing := listing + [MeshNamespace(name, labels[name])];
        remaining := remaining - {name};
      }
      r := Some(listing);
    }

    method GetMeshNamespaces() returns (r: Option<seq<MeshNamespace>>)
      modifies `cached, `cacheValid
      ensures r.Some? ==> old(Shows(r.value)) && cacheValid && cached == r.value
      ensures r.None? ==> cacheValid == old(cacheValid) && cached == old(cached)
      ensures old(Coherent()) ==> Coherent()
      ensures old(cacheValid) ==> r.Some? && cached == old(cached)
    {
      if cacheValid {
        return Some(cached);
      }
      r := List();
      if r.Some? {
        cached := r.value;
        cacheValid := true;
      }
    }

    method InvalidateNamespaceCache()
      modifies `cached, `cacheValid
      ensures !cacheValid && cached == [] && Coherent()
    {
      cached := [];
      cacheValid := false;
    }

    method PatchLabel(name: string, rev: string) returns (ok: bool)
      modifies `labels
      ensures labels == old(labels) || (name in old(labels) && labels == old(labels)[name := rev])
      ensures ok ==> name in old(labels) && labels == old(labels)[name := rev]
    {
      var effect: bool := *;
      if effect && name in labels {
        labels := labels[name := rev];
        ok := *;
      } else {
        ok := false;
      }
    }

    /**
      * Gives every listed namespace shown with another label the new one. On success the cache is dropped; a failing
      * patch returns at once and keeps it.
      */
    method UpdateMeshNamespaceLabels(rev: string) returns (updated: Option<nat>, ghost listing: seq<MeshNamespace>)
      modifies this
      ensures updated.Some? ==> old(Shows(listing)) && !cacheValid && Coherent()
      ensures updated.Some? ==> updated.value == |ShownOtherwise(listing, rev)|
      ensures updated.Some? ==> labels == Patched(old(labels), listing, rev, |listing|)
      ensures updated.None? ==> Interrupted(old(labels), rev, labels)
      ensures updated.None? && labels != old(labels) ==> cacheValid && cached == listing && old(Shows(listing))
      ensures old(cacheValid) && updated.None? ==> cacheValid && cached == old(cached)
      ensures old(Coherent()) && updated.None? ==>
        (cacheValid ==> Lists(cached, old(labels))) && (labels != old(labels) ==> cacheValid)
      ensures updated.Some? && old(Coherent()) ==> AllLabelled(labels, rev)
      ensures labels.Keys == old(labels).Keys
    {
      hide *;
      var namespaces := GetMeshNamespaces();
      NotYet(labels, rev);
      if namespaces.None? {
        return None, [];
      }
      listing := namespaces.value;
      ghost var labels0 := labels;
      NothingPatched(labels0, listing, rev);
      var count := 0;
      CountNone(listing, rev);
      for i := 0 to |namespaces.value|
        invariant labels == Patched(labels0, listing, rev, i) && labels.Keys == labels0.Keys
        invariant cacheValid && cached == listing
        invariant count == |ShownOtherwise(listing[..i], rev)|
      {
        PatchOne(labels0, listing, rev, i);
        CountOne(listing, rev, i);
        if namespaces.value[i].rev == rev {
          continue;
        }
        ghost var before := labels;
        var ok := PatchLabel(namespaces.value[i].name, rev);
        if !ok {
          StoppedAt(labels0, listing, rev, i, labels);
          return None, listing;
        }
        count := count + 1;
      }
      InvalidateNamespaceCache();
      assert listing[..|listing|] == listing;
      AllReached(labels0, listing, rev, old(Coherent()));
      updated := Some(count);
    }
  }

  // ----- steps of relabelling

  /** The positions at which the listing shows another label. */
  function ShownOtherwise(listing: seq<MeshNamespace>, rev: string): set<int> {
    set i | 0 <= i < |listing| && listing[i].rev != rev
  }

  lemma CountNone(listing: seq<MeshNamespace>, rev: string)
    ensures ShownOtherwise(listing[..0], rev) == {}
  {
  }

  lemma CountOne(listing: seq<MeshNamespace>, rev: string, i: nat)
    requires i < |listing|
    ensures |ShownOtherwise(listing[..i + 1], rev)| == |ShownOtherwise(listing[..i], rev)| + if listing[i].rev != rev then 1 else 0
  {
    assert ShownOtherwise(listing[..i + 1], rev) == ShownOtherwise(listing[..i], rev) + if listing[i].rev != rev then {i as int} else {};
  }

  /** Some labels have been replaced by the new one, the others are as they were. */
  ghost predicate Interrupted(before: map<string, string>, rev: string, after: map<string, string>) {
    after.Keys == before.Keys && forall name :: name in before ==> after[name] == before[name] || after[name] == rev
  }

  lemma NotYet(labels: map<string, string>, rev: string)
    ensures Interrupted(labels, rev, labels)
  {
  }

  lemma NothingPatched(labels: map<string, string>, listing: seq<MeshNamespace>, rev: string)
    ensures Patched(labels, listing, rev, 0) == labels
  {
  }

  lemma PatchOne(labels: map<string, string>, listing: seq<MeshNamespace>, rev: string, i: nat)
    requires i < |listing|
    ensures var n, before := listing[i], Patched(labels, listing, rev, i);
            Patched(labels, listing, rev, i + 1) == if n.rev == rev || n.name !in labels then before else before[n.name := rev]
  {
  }

  lemma StoppedAt(labels: map<string, string>, listing: seq<MeshNamespace>, rev: string, i: nat, after: map<string, string>)
    requires i < |listing|
    requires var before := Patched(labels, listing, rev, i);
             after == before || (listing[i].name in before && after == before[listing[i].name := rev])
    ensures Interrupted(labels, rev, after)
  {
    PatchedLabels(labels, listing, rev, i);
  }

  lemma AllReached(labels: map<string, string>, listing: seq<MeshNamespace>, rev: string, coherent: bool)
    requires coherent ==> Lists(listing, labels)
    ensures coherent ==> AllLabelled(Patched(labels, listing, rev, |listing|), rev)
  {
    if coherent {
      TrueListingOverlooksNone(labels, listing, rev);
      RelabelReachesAll(labels, listing, rev);
    }
  }
}
