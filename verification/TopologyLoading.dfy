/** Loading several topology files into one combined topology. */
module TopologyLoading {
  import opened Wrappers
  import opened Reachability
  import opened ServiceTree
  import opened StampPropagation
  import opened Grafting

  /** A parsed topology file and the directory it lies in. */
  datatype File = File(directory: string, services: seq<Service>, entrypoints: seq<Entrypoint>)

  datatype LoadError =
    | NoFiles
    | NestedExternalParent(service: string)
    | DuplicateServiceGroup(group: string)
    | ParentNotFound(error: CombineError)

  /** No service below the root names an external parent. */
  ghost predicate NothingNested(s: Service) {
    forall i :: 0 <= i < |s.children| ==> s.children[i].externalParent.None? && NothingNested(s.children[i])
  }

  ghost predicate AllUnnested(ss: seq<Service>) {
    forall i :: 0 <= i < |ss| ==> NothingNested(ss[i])
  }

  method ValidateNoNestedParents(s: Service) returns (err: Option<LoadError>)
    ensures err.None? <==> NothingNested(s)
    ensures err.Some? ==> err.value.NestedExternalParent?
  {
    for i := 0 to |s.children|
      invariant forall k :: 0 <= k < i ==> s.children[k].externalParent.None? && NothingNested(s.children[k])
    {
      if s.children[i].externalParent.Some? {
        return Some(NestedExternalParent(s.children[i].serviceGroup));
      }
      err := ValidateNoNestedParents(s.children[i]);
      if err.Some? {
        return;
      }
    }
    err := None;
  }

  lemma {:induction false} PropagationKeepsNesting(s: Service, b: bool)
    ensures NothingNested(Propagate(s, b)) <==> NothingNested(s)
    decreases s
  {
    var after := Propagate(s, b);
    forall i | 0 <= i < |s.children|
      ensures after.children[i].externalParent == s.children[i].externalParent
      ensures NothingNested(after.children[i]) <==> NothingNested(s.children[i])
    {
      PropagateAt(s.children, after.IsStamped(), i);
      PropagationKeepsNesting(s.children[i], after.IsStamped());
    }
  }

  // ----- what a list of files asks for

  /** The top-level services of all files, in order. */
  function Tops(files: seq<File>): seq<Service> {
    if files == [] then [] else files[0].services + Tops(files[1..])
  }

  function EntrypointsOf(files: seq<File>): seq<Entrypoint> {
    if files == [] then [] else files[0].entrypoints + EntrypointsOf(files[1..])
  }

  /** The top-level services that wait for a parent; none does when there is only one file. */
  function Waiting(tops: seq<Service>, several: bool): (r: seq<Service>)
    ensures HaveParents(r)
  {
    if tops == [] then []
    else if several && tops[0].externalParent.Some? then [tops[0]] + Waiting(tops[1..], several)
    else Waiting(tops[1..], several)
  }

  function Grounded(tops: seq<Service>, several: bool): seq<Service> {
    if tops == [] then []
    else if several && tops[0].externalParent.Some? then Grounded(tops[1..], several)
    else [tops[0]] + Grounded(tops[1..], several)
  }

  /** The files can be combined into `services`. */
  ghost predicate LoadsAs(files: seq<File>, services: seq<Service>) {
    && files != []
    && AllUnnested(Tops(files))
    && NoDuplicates(ForestGroups(Tops(files)))
    && var combined := Combine(Grounded(Tops(files), |files| > 1), Waiting(Tops(files), |files| > 1));
       combined.Ok? && services == PropagateForest(combined.value, false)
  }

  lemma {:induction false} SelectConcat(a: seq<Service>, b: seq<Service>, several: bool)
    ensures Waiting(a + b, several) == Waiting(a, several) + Waiting(b, several)
    ensures Grounded(a + b, several) == Grounded(a, several) + Grounded(b, several)
  {
    hide *;
    if a == [] {
      SelectNone(several);
      assert a + b == b;
    } else {
      assert (a + b)[1..] == a[1..] + b;
      SelectStep(a, several);
      SelectStep(a + b, several);
      SelectConcat(a[1..], b, several);
    }
  }

  lemma SelectNone(several: bool)
    ensures Waiting([], several) == [] && Grounded([], several) == []
  {
  }

  lemma SelectStep(tops: seq<Service>, several: bool)
    requires tops != []
    ensures Waiting(tops, several) ==
      (if several && tops[0].externalParent.Some? then [tops[0]] else []) + Waiting(tops[1..], several)
    ensures Grounded(tops, several) ==
      (if several && tops[0].externalParent.Some? then [] else [tops[0]]) + Grounded(tops[1..], several)
  {
  }

  lemma SelectOne(s: Service, several: bool)
    ensures Waiting([s], several) == if several && s.externalParent.Some? then [s] else []
    ensures Grounded([s], several) == if several && s.externalParent.Some? then [] else [s]
  {
    assert [s][1..] == [];
  }

  lemma {:induction false} SelectPropagated(tops: seq<Service>, several: bool)
    ensures Waiting(PropagateForest(tops, false), several) == PropagateForest(Waiting(tops, several), false)
    ensures Grounded(PropagateForest(tops, false), several) == PropagateForest(Grounded(tops, several), false)
  {
    if tops != [] {
      assert PropagateForest(tops, false) == [Propagate(tops[0], false)] + PropagateForest(tops[1..], false);
      SelectPropagated(tops[1..], several);
      var w, g := Waiting(tops[1..], several), Grounded(tops[1..], several);
      assert PropagateForest([tops[0]] + w, false) == [Propagate(tops[0], false)] + PropagateForest(w, false);
      assert PropagateForest([tops[0]] + g, false) == [Propagate(tops[0], false)] + PropagateForest(g, false);
    }
  }

  lemma {:induction false} TopsConcat(a: seq<File>, b: seq<File>)
    ensures Tops(a + b) == Tops(a) + Tops(b) && EntrypointsOf(a + b) == EntrypointsOf(a) + EntrypointsOf(b)
  {
    if a == [] {
      assert a + b == b;
    } else {
      assert (a + b)[1..] == a[1..] + b;
      TopsConcat(a[1..], b);
    }
  }

  lemma NextFile(files: seq<File>, i: nat)
    requires i < |files|
    ensures Tops(files[..i + 1]) == Tops(files[..i]) + files[i].services
    ensures EntrypointsOf(files[..i + 1]) == EntrypointsOf(files[..i]) + files[i].entrypoints
  {
    assert files[..i + 1] == files[..i] + [files[i]];
    TopsConcat(files[..i], [files[i]]);
    assert [files[i]][1..] == [];
    assert Tops([files[i]]) == files[i].services && EntrypointsOf([files[i]]) == files[i].entrypoints;
  }

  function Placing(names: seq<string>, directory: string): map<string, string> {
    map g | g in names :: directory
  }

  /** The directory of every service of the files. */
  function DirectoriesOf(files: seq<File>): map<string, string> {
    if files == [] then map[]
    else DirectoriesOf(files[..|files| - 1]) + Placing(ForestGroups(files[|files| - 1].services), files[|files| - 1].directory)
  }

  lemma {:induction false} DirectoryKeys(files: seq<File>)
    ensures DirectoriesOf(files).Keys == Elements(ForestGroups(Tops(files)))
  {
    if files != [] {
      var n := |files| - 1;
      NextFile(files, n);
      assert files[..n + 1] == files;
      DirectoryKeys(files[..n]);
      ForestParts(Tops(files[..n]), files[n].services);
    }
  }

  lemma PlacedAt(before: map<string, string>, names: seq<string>, directory: string, g: string)
    ensures g in names ==> g in before + Placing(names, directory) && (before + Placing(names, directory))[g] == directory
    ensures g !in names && g in before ==>
      g in before + Placing(names, directory) && (before + Placing(names, directory))[g] == before[g]
  {
  }

  lemma ElementsAre(names: seq<string>, g: string)
    ensures g in Elements(names) <==> g in names
  {
  }

  /** With unique names every service is found in the directory of the file that declares it. */
  lemma {:induction false} DirectoryIsOfItsFile(files: seq<File>, k: nat, g: string)
    requires NoDuplicates(ForestGroups(Tops(files))) && k < |files| && g in ForestGroups(files[k].services)
    ensures g in DirectoriesOf(files) && DirectoriesOf(files)[g] == files[k].directory
  {
    hide *;
    var n := |files| - 1;
    NextFile(files, n);
    DirectoriesNext(files, n);
    assert files[..n + 1] == files;
    var a, b := ForestGroups(Tops(files[..n])), ForestGroups(files[n].services);
    ForestParts(Tops(files[..n]), files[n].services);
    DistinctConcat(a, b);
    PlacedAt(DirectoriesOf(files[..n]), b, files[n].directory, g);
    if k < n {
      DirectoryIsOfItsFile(files[..n], k, g);
      DirectoryKeys(files[..n]);
      ElementsAre(a, g);
      ElementsAre(b, g);
    }
  }

  /** The state of loading once `tops` have been read. */
  ghost predicate Read(tops: seq<Service>, several: bool, services: seq<Service>, waiting: seq<Service>) {
    && AllUnnested(tops)
    && NoDuplicates(ForestGroups(tops))
    && services == Grounded(PropagateForest(tops, false), several)
    && waiting == Waiting(PropagateForest(tops, false), several)
  }

  /** Reading one more top-level service. */
  lemma ReadMore(tops: seq<Service>, several: bool, services: seq<Service>, waiting: seq<Service>, s: Service)
    requires Read(tops, several, services, waiting) && NothingNested(s)
    requires Repeated(Elements(ForestGroups(tops)), Groups(s)) == {}
    ensures var p := Propagate(s, false);
            if several && p.externalParent.Some? then Read(tops + [s], several, services, waiting + [p])
            else Read(tops + [s], several, services + [p], waiting)
    ensures Elements(ForestGroups(tops + [s])) == Elements(ForestGroups(tops)) + Elements(Groups(s))
  {
    hide TreeOk, ForestGroups, Groups, Repeated, Waiting, Grounded, NothingNested;
    var p := Propagate(s, false);
    PropagateConcat(tops, [s], false);
    assert PropagateForest([s], false) == [p];
    SelectConcat(PropagateForest(tops, false), [p], several);
    SelectOne(p, several);
    ForestConcat(tops, [s]);
    ForestSingle(s);
    NothingRepeated(Elements(ForestGroups(tops)), Groups(s));
    DistinctConcat(ForestGroups(tops), Groups(s));
  }

  lemma DistinctConcat(a: seq<string>, b: seq<string>)
    ensures NoDuplicates(a + b) <==> NoDuplicates(a) && NoDuplicates(b) && Elements(b) !! Elements(a)
  {
    var all := a + b;
    assert forall i :: 0 <= i < |a| ==> all[i] == a[i];
    assert forall i :: 0 <= i < |b| ==> all[|a| + i] == b[i];
    if NoDuplicates(all) {
      forall n | n in a ensures n !in b {
        var i :| 0 <= i < |a| && a[i] == n;
        forall m | m in b ensures m != n {
          var j :| 0 <= j < |b| && b[j] == m;
          assert all[|a| + j] == m;
        }
      }
    }
    if NoDuplicates(a) && NoDuplicates(b) && Elements(b) !! Elements(a) {
      forall i, j | 0 <= i < j < |all| ensures all[i] != all[j] {
        if i < |a| <= j {
          assert a[i] in Elements(a) && b[j - |a|] in Elements(b);
        } else if |a| <= i {
          assert b[i - |a|] != b[j - |a|];
        }
      }
    }
  }

  class CombinedTopology {
    var services: seq<Service>
    var entrypoints: seq<Entrypoint>
    var directories: map<string, string>

    constructor ()
      ensures services == [] && entrypoints == [] && directories == map[]
    {
      services, entrypoints, directories := [], [], map[];
    }

    /** Records the directory of every service of a tree, unless a name is taken. */
    method AccumulateDirectories(s: Service, directory: string) returns (err: Option<LoadError>)
      modifies `directories
      ensures err.None? <==> Repeated(old(directories).Keys, Groups(s)) == {}
      ensures err.Some? ==> err.value.DuplicateServiceGroup?
      ensures err.None? ==> directories == old(directories) + Placing(Groups(s), directory)
      decreases s
    {
      hide *;
      ghost var seen := directories.Keys;
      NoTrees(s);
      TakeOne(directories, s.serviceGroup, directory);
      if s.serviceGroup in directories {
        FirstRepeats(seen, s);
        return Some(DuplicateServiceGroup(s.serviceGroup));
      }
      directories := directories[s.serviceGroup := directory];
      ghost var own := [s.serviceGroup];
      assert own + [] == own;
      for i := 0 to |s.children|
        invariant Repeated(seen, own + ForestGroups(s.children[..i])) == {}
        invariant directories == old(directories) + Placing(own + ForestGroups(s.children[..i]), directory)
      {
        ghost var before := directories;
        NextTree(s.children, i);
        ghost var so := own + ForestGroups(s.children[..i]);
        assert own + ForestGroups(s.children[..i + 1]) == so + Groups(s.children[i]);
        PlaceMore(old(directories), so, Groups(s.children[i]), directory);
        RepeatedConcat(seen, so, Groups(s.children[i]));
        err := AccumulateDirectories(s.children[i], directory);
        if err.Some? {
          LaterRepeats(seen, s, i);
          return;
        }
      }
      assert s.children[..|s.children|] == s.children;
      err := None;
    }

    /** Reads one file, putting aside the services that wait for a parent. */
    method ReadFile(file: File, several: bool, waiting0: seq<Service>, ghost tops: seq<Service>)
      returns (err: Option<LoadError>, waiting: seq<Service>)
      requires Read(tops, several, services, waiting0) && directories.Keys == Elements(ForestGroups(tops))
      modifies this
      ensures err.None? ==> Read(tops + file.services, several, services, waiting)
      ensures err.None? ==> directories == old(directories) + Placing(ForestGroups(file.services), file.directory)
      ensures err.None? ==> entrypoints == old(entrypoints) + file.entrypoints
      ensures err.None? ==> directories.Keys == Elements(ForestGroups(tops + file.services))
      ensures err.Some? ==> Defect(err.value, tops + file.services)
    {
      hide *;
      waiting := waiting0;
      assert file.services[..0] == [] && tops + [] == tops;
      NothingPlaced(directories, file.directory);
      for i := 0 to |file.services|
        invariant Read(tops + file.services[..i], several, services, waiting)
        invariant directories.Keys == Elements(ForestGroups(tops + file.services[..i]))
        invariant directories == old(directories) + Placing(ForestGroups(file.services[..i]), file.directory)
        invariant entrypoints == old(entrypoints)
      {
        ghost var so, raw := tops + file.services[..i], file.services[i];
        assert tops + file.services[..i + 1] == so + [raw];
        var s := Propagate(file.services[i], false);
        PropagationKeepsNesting(raw, false);
        PropagateKeepsGroups(raw, false);
        err := ValidateNoNestedParents(s);
        if err.Some? {
          NestedDefect(err.value, tops, file.services, i);
          return;
        }
        ghost var before := directories;
        err := AccumulateDirectories(s, file.directory);
        if err.Some? {
          DuplicateDefect(err.value, tops, file.services, i);
          return;
        }
        ReadMore(so, several, services, waiting, raw);
        NextTree(file.services, i);
        PlaceMore(old(directories), ForestGroups(file.services[..i]), Groups(raw), file.directory);
        PlacedKeys(before, Groups(raw), file.directory);
        if s.externalParent.Some? && several {
          waiting := waiting + [s];
        } else {
          services := services + [s];
        }
      }
      assert file.services[..|file.services|] == file.services;
      entrypoints := entrypoints + file.entrypoints;
      err := None;
    }

    method ReadFiles(files: seq<File>) returns (err: Option<LoadError>, waiting: seq<Service>)
      requires services == [] && entrypoints == [] && directories == map[]
      modifies this
      ensures err.None? ==> Read(Tops(files), |files| > 1, services, waiting)
      ensures err.None? ==> entrypoints == EntrypointsOf(files) && directories == DirectoriesOf(files)
      ensures err.Some? ==> Defect(err.value, Tops(files))
    {
      hide *;
      waiting := [];
      NothingRead(|files| > 1);
      assert files[..0] == [];
      for i := 0 to |files|
        invariant Read(Tops(files[..i]), |files| > 1, services, waiting)
        invariant entrypoints == EntrypointsOf(files[..i]) && directories == DirectoriesOf(files[..i])
      {
        NextFile(files, i);
        DirectoryKeys(files[..i]);
        DirectoriesNext(files, i);
        err, waiting := ReadFile(files[i], |files| > 1, waiting, Tops(files[..i]));
        if err.Some? {
          DefectRemains(err.value, files, i);
          return;
        }
      }
      assert files[..|files|] == files;
      err := None;
    }

    /** Puts every waiting tree under its parent, in the combined services or in a tree that still waits. */
    method PlaceWaiting(waiting: seq<Service>) returns (missing: Option<CombineError>)
      requires HaveParents(waiting)
      modifies `services
      ensures match Combine(old(services), waiting)
              case Ok(forest) => missing.None? && services == forest
              case Err(e) => missing == Some(e)
    {
      hide *;
      var pending := waiting;
      assert pending[0..] == waiting;
      for i := 0 to |pending|
        invariant |pending| == |waiting| && HaveParents(pending[i..])
        invariant Combine(services, pending[i..]) == Combine(old(services), waiting)
      {
        var svc := pending[i];
        ghost var later := pending[i + 1..];
        assert pending[i..][0] == svc && pending[i..][1..] == later;
        CombineIs(services, pending[i..]);
        MissingIsReported(services, pending[i..]);
        var parent := svc.externalParent.value;
        if FindInForest(services, parent).Some? {
          FoundMeansListed(services, parent);
          services := Graft(services, parent, svc);
          assert pending[i + 1..] == later;
        } else {
          FoundMeansListed(services, parent);
          ghost var services1 := services;
          var j := i + 1;
          while j < |pending| && Find(pending[j], parent).None?
            invariant i + 1 <= j <= |pending| && services == services1
            invariant forall k :: i + 1 <= k < j ==> parent !in Groups(pending[k])
          {
            FindMeansListed(pending[j], parent);
            j := j + 1;
          }
          if j == |pending| {
            NoHolder(later, parent);
            return Some(MissingParent(svc.serviceGroup, parent));
          }
          FindMeansListed(pending[j], parent);
          assert later[j - i - 1] == pending[j];
          assert forall k :: 0 <= k < j - i - 1 ==> later[k] == pending[i + 1 + k];
          GraftAt(later, parent, svc, j - i - 1);
          ghost var grafted := Graft(later, parent, svc);
          pending := pending[j := GraftTree(pending[j], parent, svc)];
          assert pending[i + 1..] == later[j - i - 1 := pending[j]] == grafted;
        }
      }
      assert pending[|pending|..] == [];
      NothingLeft(services);
      missing := None;
    }

    method PropagateStamped()
      modifies `services
      ensures services == PropagateForest(old(services), false)
    {
      for i := 0 to |services|
        invariant |services| == |old(services)|
        invariant forall k :: 0 <= k < i ==> services[k] == Propagate(old(services)[k], false)
        invariant forall k :: i <= k < |services| ==> services[k] == old(services)[k]
      {
        services := services[i := Propagate(services[i], false)];
      }
      forall k | 0 <= k < |services| ensures services[k] == PropagateForest(old(services), false)[k] {
        PropagateAt(old(services), false, k);
      }
    }

    /**
      * Loads the files: succeeds exactly when nothing nested names an external parent, names are unique and every
      * waiting tree finds its parent.
      */
    method LoadCombined(files: seq<File>) returns (err: Option<LoadError>)
      requires services == [] && entrypoints == [] && directories == map[]
      modifies this
      ensures err.None? <==> exists r :: LoadsAs(files, r)
      ensures err.None? ==> LoadsAs(files, services) && entrypoints == EntrypointsOf(files) && directories == DirectoriesOf(files)
      ensures err.Some? ==> Explains(err.value, files)
    {
      hide *;
      if |files| == 0 {
        ExplanationRefutes(NoFiles, files);
        return Some(NoFiles);
      }
      var waiting: seq<Service>;
      err, waiting := ReadFiles(files);
      if err.Some? {
        DefectExplains(err.value, files);
        ExplanationRefutes(err.value, files);
        return;
      }
      ReadAll(files, services, waiting);
      var missing := PlaceWaiting(waiting);
      if missing.Some? {
        MissingExplains(missing.value, files);
        ExplanationRefutes(ParentNotFound(missing.value), files);
        return Some(ParentNotFound(missing.value));
      }
      CombinedLoads(files, services);
      PropagateStamped();
      err := None;
    }
  }

  // ----- steps of loading

  lemma TakeOne(directories: map<string, string>, name: string, directory: string)
    ensures name !in directories ==> Repeated(directories.Keys, [name]) == {}
    ensures directories[name := directory] == directories + Placing([name], directory)
  {
    assert [name][1..] == [];
  }

  lemma FirstRepeats(seen: set<string>, s: Service)
    requires s.serviceGroup in seen
    ensures Repeated(seen, Groups(s)) != {}
  {
  }

  lemma PlaceMore(before: map<string, string>, a: seq<string>, b: seq<string>, directory: string)
    ensures before + Placing(a, directory) + Placing(b, directory) == before + Placing(a + b, directory)
    ensures (before + Placing(a, directory)).Keys == before.Keys + Elements(a)
  {
  }

  lemma PlacedKeys(before: map<string, string>, names: seq<string>, directory: string)
    ensures (before + Placing(names, directory)).Keys == before.Keys + Elements(names)
  {
  }

  lemma NothingPlaced(before: map<string, string>, directory: string)
    ensures before + Placing(ForestGroups([]), directory) == before
  {
  }

  lemma LaterRepeats(seen: set<string>, s: Service, i: nat)
    requires i < |s.children| && Repeated(seen, [s.serviceGroup] + ForestGroups(s.children[..i + 1])) != {}
    ensures Repeated(seen, Groups(s)) != {}
  {
    var own := [s.serviceGroup];
    assert s.children == s.children[..i + 1] + s.children[i + 1..];
    ForestConcat(s.children[..i + 1], s.children[i + 1..]);
    var rest := ForestGroups(s.children[i + 1..]);
    assert Groups(s) == own + ForestGroups(s.children[..i + 1]) + rest;
    RepeatedConcat(seen, own + ForestGroups(s.children[..i + 1]), rest);
  }

  /** Why reading stopped. */
  ghost predicate Defect(e: LoadError, tops: seq<Service>) {
    (e.NestedExternalParent? && !AllUnnested(tops)) || (e.DuplicateServiceGroup? && !NoDuplicates(ForestGroups(tops)))
  }

  lemma NestedDefect(e: LoadError, tops: seq<Service>, more: seq<Service>, i: nat)
    requires i < |more| && !NothingNested(more[i]) && e.NestedExternalParent?
    ensures Defect(e, tops + more)
  {
    assert (tops + more)[|tops| + i] == more[i];
  }

  lemma DuplicateDefect(e: LoadError, tops: seq<Service>, more: seq<Service>, i: nat)
    requires i < |more| && e.DuplicateServiceGroup?
    requires Repeated(Elements(ForestGroups(tops + more[..i])), Groups(more[i])) != {}
    ensures Defect(e, tops + more)
  {
    var so := tops + more[..i];
    assert tops + more == so + ([more[i]] + more[i + 1..]);
    ForestConcat(so, [more[i]] + more[i + 1..]);
    ForestConcat([more[i]], more[i + 1..]);
    ForestSingle(more[i]);
    var a, b, c := ForestGroups(so), Groups(more[i]), ForestGroups(more[i + 1..]);
    NothingRepeated(Elements(a), b);
    DistinctConcat(b, c);
    DistinctConcat(a, b + c);
    assert Elements(b) <= Elements(b + c);
  }

  lemma NothingRead(several: bool)
    ensures Read(Tops([]), several, [], []) && EntrypointsOf([]) == [] && DirectoriesOf([]) == map[]
  {
  }

  lemma DirectoriesNext(files: seq<File>, i: nat)
    requires i < |files|
    ensures DirectoriesOf(files[..i + 1]) == DirectoriesOf(files[..i]) + Placing(ForestGroups(files[i].services), files[i].directory)
  {
    assert files[..i + 1][..i] == files[..i];
  }

  lemma DefectRemains(e: LoadError, files: seq<File>, i: nat)
    requires i < |files| && Defect(e, Tops(files[..i + 1]))
    ensures Defect(e, Tops(files))
  {
    var a, b := Tops(files[..i + 1]), Tops(files[i + 1..]);
    assert files == files[..i + 1] + files[i + 1..];
    TopsConcat(files[..i + 1], files[i + 1..]);
    ForestConcat(a, b);
    DistinctConcat(ForestGroups(a), ForestGroups(b));
    assert forall k :: 0 <= k < |a| ==> (a + b)[k] == a[k];
  }

  lemma NothingLeft(services: seq<Service>)
    ensures Combine(services, []) == Ok(services)
  {
  }

  lemma FindMeansListed(s: Service, name: string)
    ensures Find(s, name).Some? <==> name in Groups(s)
  {
    GroupsAreNames(s);
  }

  lemma FoundMeansListed(ss: seq<Service>, name: string)
    ensures FindInForest(ss, name).Some? <==> name in ForestGroups(ss)
  {
    ForestGroupsAreNames(ss);
  }

  ghost function CombineAll(files: seq<File>): Result<seq<Service>, CombineError> {
    Combine(Grounded(Tops(files), |files| > 1), Waiting(Tops(files), |files| > 1))
  }

  /** The defect of the files that an error reports. */
  ghost predicate Explains(e: LoadError, files: seq<File>) {
    match e
    case NoFiles => files == []
    case NestedExternalParent(_) => !AllUnnested(Tops(files))
    case DuplicateServiceGroup(_) => !NoDuplicates(ForestGroups(Tops(files)))
    case ParentNotFound(c) => CombineAll(files) == Err(c)
  }

  lemma ExplanationRefutes(e: LoadError, files: seq<File>)
    requires Explains(e, files) || (e.NoFiles? && files == [])
    ensures Explains(e, files) && !exists r :: LoadsAs(files, r)
  {
  }

  lemma DefectExplains(e: LoadError, files: seq<File>)
    requires Defect(e, Tops(files))
    ensures Explains(e, files)
  {
  }

  lemma MissingExplains(c: CombineError, files: seq<File>)
    requires CombineAll(files) == Err(c)
    ensures Explains(ParentNotFound(c), files)
  {
  }

  /** What combining the propagated files yields, in terms of the files as written. */
  lemma ReadAll(files: seq<File>, services: seq<Service>, waiting: seq<Service>)
    requires files != [] && Read(Tops(files), |files| > 1, services, waiting)
    ensures HaveParents(waiting)
    ensures AllUnnested(Tops(files)) && NoDuplicates(ForestGroups(Tops(files)))
    ensures match CombineAll(files)
            case Ok(forest) =>
              Combine(services, waiting).Ok? && PropagateForest(Combine(services, waiting).value, false) == PropagateForest(forest, false)
            case Err(e) => Combine(services, waiting) == Err(e)
  {
    var several := |files| > 1;
    SelectPropagated(Tops(files), several);
    PropagateBeforeCombining(Grounded(Tops(files), several), Waiting(Tops(files), several));
  }

  lemma CombinedLoads(files: seq<File>, combined: seq<Service>)
    requires files != [] && AllUnnested(Tops(files)) && NoDuplicates(ForestGroups(Tops(files))) && CombineAll(files).Ok?
    requires PropagateForest(combined, false) == PropagateForest(CombineAll(files).value, false)
    ensures LoadsAs(files, PropagateForest(combined, false))
  {
  }

  // ----- the result does not depend on the order of the files

  lemma InsertReordered<T>(x: seq<T>, y: seq<T>, z: seq<T>, r: seq<T>)
    requires Reordered(r, x + z)
    ensures Reordered(y + r, x + (y + z))
  {
    assert multiset(x + (y + z)) == multiset(x) + multiset(y) + multiset(z);
    assert multiset(x + z) == multiset(x) + multiset(z);
    assert multiset(y + r) == multiset(y) + multiset(r);
  }

  lemma ReorderedSelf<T>(s: seq<T>)
    ensures Reordered(s, s)
  {
  }

  lemma {:induction false} ReorderedTops(files: seq<File>, files': seq<File>, several: bool)
    requires Reordered(files, files')
    ensures Reordered(Tops(files), Tops(files'))
    ensures Reordered(Waiting(Tops(files), several), Waiting(Tops(files'), several))
    ensures Reordered(Grounded(Tops(files), several), Grounded(Tops(files'), several))
    decreases files
  {
    hide *;
    if files == [] {
      NothingReordered(files');
      ReorderedSelf(Tops(files));
      ReorderedSelf(Waiting(Tops(files), several));
      ReorderedSelf(Grounded(Tops(files), several));
    } else {
      var a, b := FirstOf(files, files');
      ReorderedTops(files[1..], a + b, several);
      TopsConcat(a, [files[0]] + b);
      TopsConcat([files[0]], b);
      TopsConcat([files[0]], files[1..]);
      TopsConcat(a, b);
      assert [files[0]] + files[1..] == files;
      var x, y, z, r := Tops(a), Tops([files[0]]), Tops(b), Tops(files[1..]);
      SelectConcat(x, y + z, several);
      SelectConcat(y, z, several);
      SelectConcat(x, z, several);
      SelectConcat(y, r, several);
      InsertReordered(x, y, z, r);
      InsertReordered(Waiting(x, several), Waiting(y, several), Waiting(z, several), Waiting(r, several));
      InsertReordered(Grounded(x, several), Grounded(y, several), Grounded(z, several), Grounded(r, several));
    }
  }

  lemma {:induction false} SelectedGroups(tops: seq<Service>, several: bool)
    ensures multiset(ForestGroups(Grounded(tops, several) + Waiting(tops, several))) == multiset(ForestGroups(tops))
  {
    ForestParts(Grounded(tops, several), Waiting(tops, several));
    if tops != [] {
      SelectedGroups(tops[1..], several);
      ForestParts(Grounded(tops[1..], several), Waiting(tops[1..], several));
      Unfold(tops);
      ForestParts([tops[0]], Waiting(tops[1..], several));
      ForestParts([tops[0]], Grounded(tops[1..], several));
      OneTree(tops[0]);
    }
  }

  /** The same files in another order load as the same forest, up to the order of siblings, or not at all. */
  lemma FileOrderDoesNotMatter(files: seq<File>, files': seq<File>, services: seq<Service>)
    requires Reordered(files, files') && LoadsAs(files, services)
    ensures exists services' :: LoadsAs(files', services') && SameForest(services, services')
  {
    var several := |files| > 1;
    assert |multiset(files)| == |multiset(files')|;
    ReorderedTops(files, files', several);
    var tops, tops' := Tops(files), Tops(files');
    ReorderedParts(tops, tops');
    SameNames(ForestGroups(tops), ForestGroups(tops'));
    forall i | 0 <= i < |tops'| ensures NothingNested(tops'[i]) {
      assert tops'[i] in multiset(tops);
      var k :| 0 <= k < |tops| && tops[k] == tops'[i];
    }
    SelectedGroups(tops, several);
    SameNames(ForestGroups(tops), ForestGroups(Grounded(tops, several) + Waiting(tops, several)));
    OrderDoesNotMatter(Grounded(tops, several), Waiting(tops, several), Grounded(tops', several), Waiting(tops', several));
    var combined, combined' := CombineAll(files).value, CombineAll(files').value;
    PropagateSameForest(combined, combined', false);
    CombinedLoads(files', combined');
  }

  /** Loading succeeds exactly when the files are well formed, every parent is loaded and no tree hangs below itself. */
  lemma LoadSucceeds(files: seq<File>)
    requires files != []
    ensures (exists r :: LoadsAs(files, r)) <==>
      var several := |files| > 1;
      && AllUnnested(Tops(files))
      && NoDuplicates(ForestGroups(Tops(files)))
      && ParentsLoaded(Grounded(Tops(files), several), Waiting(Tops(files), several))
      && Acyclic(AllLinks(Grounded(Tops(files), several), Waiting(Tops(files), several)))
  {
    var several := |files| > 1;
    var tops := Tops(files);
    if NoDuplicates(ForestGroups(tops)) {
      SelectedGroups(tops, several);
      SameNames(ForestGroups(tops), ForestGroups(Grounded(tops, several) + Waiting(tops, several)));
      CombineSucceeds(Grounded(tops, several), Waiting(tops, several));
    }
    if AllUnnested(tops) && NoDuplicates(ForestGroups(tops)) && CombineAll(files).Ok? {
      CombinedLoads(files, CombineAll(files).value);
    }
  }

  lemma {:induction false} NoneWaits(tops: seq<Service>)
    ensures Waiting(tops, false) == [] && Grounded(tops, false) == tops
  {
    if tops != [] {
      NoneWaits(tops[1..]);
    }
  }

  /** A single file loads with its services where they are, whatever external parents they name. */
  lemma SingleFile(file: File, services: seq<Service>)
    ensures LoadsAs([file], services) <==>
      && AllUnnested(file.services) && NoDuplicates(ForestGroups(file.services))
      && services == PropagateForest(file.services, false)
  {
    assert [file][1..] == [] && Tops([file]) == file.services + Tops([]);
    assert file.services + [] == file.services;
    NoneWaits(file.services);
  }

  /** The loaded forest holds every service once, every waiting tree under its parent, and nothing else. */
  lemma LoadConserves(files: seq<File>, services: seq<Service>)
    requires LoadsAs(files, services)
    ensures multiset(ForestGroups(services)) == multiset(ForestGroups(Tops(files))) && NoDuplicates(ForestGroups(services))
    ensures CombineAll(files).Ok?
    ensures Conserves(Grounded(Tops(files), |files| > 1), Waiting(Tops(files), |files| > 1), CombineAll(files).value)
    ensures services == PropagateForest(CombineAll(files).value, false)
  {
    var several := |files| > 1;
    CombineConserves(Grounded(Tops(files), several), Waiting(Tops(files), several));
    SelectedGroups(Tops(files), several);
    ForestParts(Grounded(Tops(files), several), Waiting(Tops(files), several));
    PropagateForestKeepsGroups(CombineAll(files).value, false);
    SameNames(ForestGroups(services), ForestGroups(Tops(files)));
  }
}
