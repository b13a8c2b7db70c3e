/** Configuration values: layered merging, lookup by path and truncation. */
module Configuration {
  import opened Wrappers
  import opened Strings

  /** Everything that is not a map is a leaf. */
  datatype Value = Leaf(text: string) | Node(fields: map<string, Value>)

  type Config = map<string, Value>

  // ----- merging

  /** Two maps merge; otherwise the later value replaces the earlier one. */
  function Override(base: Value, newer: Value): Value
    decreases newer
  {
    if base.Node? && newer.Node? then
      Node(map k | k in base.fields.Keys + newer.fields.Keys ::
        if k !in newer.fields then base.fields[k]
        else if k !in base.fields then newer.fields[k]
        else Override(base.fields[k], newer.fields[k]))
    else newer
  }

  method MergeConfiguration(base: Option<Config>, override: Option<Config>) returns (output: Config)
    ensures Node(output) == Override(Node(Fields(base)), Node(Fields(override)))
    decreases Node(Fields(override))
  {
    hide *;
    var older, newer := Fields(base), Fields(override);
    output := Copy(older);
    NothingMerged(older, newer);
    var remaining := newer.Keys;
    while remaining != {}
      invariant remaining <= newer.Keys && output == MergedExcept(older, newer, remaining)
    {
      var k :| k in remaining;
      MergeOne(older, newer, remaining, k);
      var newValue := newer[k];
      if k in output && newValue.Node? && output[k].Node? {
        FieldsOfSome(output[k].fields);
        FieldsOfSome(newValue.fields);
        var merged := MergeConfiguration(Some(output[k].fields), Some(newValue.fields));
        newValue := Node(merged);
      }
      output := output[k := newValue];
      remaining := remaining - {k};
    }
    AllMerged(older, newer);
  }

  /** The older fields with all newer ones merged in but the remaining. */
  function MergedExcept(older: Config, newer: Config, remaining: set<string>): Config {
    map k | k in older.Keys + (newer.Keys - remaining) ::
      if k !in newer || k in remaining then older[k]
      else if k in older then Override(older[k], newer[k])
      else newer[k]
  }

  lemma NothingMerged(older: Config, newer: Config)
    ensures MergedExcept(older, newer, newer.Keys) == older
  {
    hide Override;
  }

  lemma MergeOne(older: Config, newer: Config, remaining: set<string>, k: string)
    requires k in remaining && remaining <= newer.Keys
    ensures var before := MergedExcept(older, newer, remaining);
            && (k in before <==> k in older) && (k in older ==> before[k] == older[k])
            && MergedExcept(older, newer, remaining - {k}) == before[k := if k in older then Override(older[k], newer[k]) else newer[k]]
    ensures k in older && !(older[k].Node? && newer[k].Node?) ==> Override(older[k], newer[k]) == newer[k]
  {
    if k in older && !(older[k].Node? && newer[k].Node?) {
      assert Override(older[k], newer[k]) == newer[k];
    }
    hide Override;
  }

  lemma FieldsOfSome(config: Config)
    ensures Fields(Some(config)) == config
  {
  }

  lemma AllMerged(older: Config, newer: Config)
    ensures Node(MergedExcept(older, newer, {})) == Override(Node(older), Node(newer))
  {
    var all := Override(Node(older), Node(newer)).fields;
    assert MergedExcept(older, newer, {}) == all;
  }

  function Fields(config: Option<Config>): Config {
    if config.None? then map[] else config.value
  }

  method Copy(config: Config) returns (output: Config)
    ensures output == config
  {
    output := map[];
    var remaining := config.Keys;
    while remaining != {}
      invariant remaining <= config.Keys && output.Keys == config.Keys - remaining
      invariant forall k :: k in output ==> output[k] == config[k]
    {
      var k :| k in remaining;
      output := output[k := config[k]];
      remaining := remaining - {k};
    }
  }

  lemma {:induction false} MergeIdempotent(a: Value)
    ensures Override(a, a) == a
  {
    if a.Node? {
      forall k | k in a.fields ensures Override(a.fields[k], a.fields[k]) == a.fields[k] {
        MergeIdempotent(a.fields[k]);
      }
    }
  }

  lemma EmptyIsIdentity(a: Value)
    requires a.Node?
    ensures Override(Node(map[]), a) == a && Override(a, Node(map[])) == a
  {
  }

  /** `z` already has every key of `x`, and so down through common maps. */
  predicate Absorbs(z: Value, x: Value)
    decreases x
  {
    x.Node? && z.Node? ==> forall k :: k in x.fields ==> k in z.fields && Absorbs(z.fields[k], x.fields[k])
  }

  lemma {:induction false} AbsorbedMeansUnchanged(z: Value, x: Value)
    ensures Override(x, z) == z <==> Absorbs(z, x)
    decreases x
  {
    if x.Node? && z.Node? {
      forall k | k in x.fields && k in z.fields
        ensures Override(x.fields[k], z.fields[k]) == z.fields[k] <==> Absorbs(z.fields[k], x.fields[k])
      {
        AbsorbedMeansUnchanged(z.fields[k], x.fields[k]);
      }
      if Override(x, z) == z {
        forall k | k in x.fields ensures k in z.fields && Absorbs(z.fields[k], x.fields[k]) {
          assert k in Override(x, z).fields;
          assert Override(x, z).fields[k] == Override(x.fields[k], z.fields[k]);
        }
      }
    }
  }

  /** Somewhere a map is replaced by a non-map that a third layer replaces by a map lacking some of the first. */
  predicate Sandwiched(a: Value, b: Value, c: Value)
    decreases c
  {
    if a.Node? && b.Node? && c.Node? then
      exists k :: k in c.fields && k in a.fields && k in b.fields && Sandwiched(a.fields[k], b.fields[k], c.fields[k])
    else a.Node? && b.Leaf? && c.Node? && !Absorbs(c, a)
  }

  /** Merging three layers is associative exactly when no path is sandwiched. */
  lemma {:induction false} MergeAssociates(a: Value, b: Value, c: Value)
    ensures Override(Override(a, b), c) == Override(a, Override(b, c)) <==> !Sandwiched(a, b, c)
    decreases c
  {
    if a.Node? && b.Node? && c.Node? {
      var l, r := Override(Override(a, b), c), Override(a, Override(b, c));
      assert l.fields.Keys == r.fields.Keys == a.fields.Keys + b.fields.Keys + c.fields.Keys;
      forall k | k in l.fields
        ensures l.fields[k] == r.fields[k] <==>
          !(k in a.fields && k in b.fields && k in c.fields && Sandwiched(a.fields[k], b.fields[k], c.fields[k]))
      {
        if k in a.fields && k in b.fields && k in c.fields {
          MergeAssociates(a.fields[k], b.fields[k], c.fields[k]);
        }
      }
    } else if a.Node? && c.Node? {
      AbsorbedMeansUnchanged(c, a);
    }
  }

  /** Wherever all three layers have a value, it is a map in all or in none. */
  predicate SameKinds(a: Value, b: Value, c: Value)
    decreases c
  {
    && a.Node? == b.Node? == c.Node?
    && (c.Node? ==>
          forall k :: k in c.fields && k in a.fields && k in b.fields ==> SameKinds(a.fields[k], b.fields[k], c.fields[k]))
  }

  lemma {:induction false} SameKindsAssociate(a: Value, b: Value, c: Value)
    requires SameKinds(a, b, c)
    ensures Override(Override(a, b), c) == Override(a, Override(b, c))
    decreases c
  {
    NothingSandwiched(a, b, c);
    MergeAssociates(a, b, c);
  }

  lemma {:induction false} NothingSandwiched(a: Value, b: Value, c: Value)
    requires SameKinds(a, b, c)
    ensures !Sandwiched(a, b, c)
    decreases c
  {
    if c.Node? {
      forall k | k in c.fields && k in a.fields && k in b.fields ensures !Sandwiched(a.fields[k], b.fields[k], c.fields[k]) {
        NothingSandwiched(a.fields[k], b.fields[k], c.fields[k]);
      }
    }
  }

  /** Map, scalar, map: the grouping shows whether the keys of the first map survive. */
  lemma SandwichExample()
    ensures var x := Node(map["old" := Leaf("1")]);
            var z := Node(map["new" := Leaf("2")]);
            var a, b, c := Node(map["k" := x]), Node(map["k" := Leaf("off")]), Node(map["k" := z]);
            Override(Override(a, b), c) == c && Override(a, Override(b, c)) != c
  {
    var x := Node(map["old" := Leaf("1")]);
    var z := Node(map["new" := Leaf("2")]);
    var a, b, c := Node(map["k" := x]), Node(map["k" := Leaf("off")]), Node(map["k" := z]);
    assert Override(a, b).fields == b.fields && Override(b, c).fields == c.fields;
    assert "old" in Override(x, z).fields && "old" !in z.fields;
    assert Override(a, Override(b, c)).fields["k"] == Override(x, z);
  }

  // ----- lookup

  datatype Lookup = Found(value: Value) | Missing | NotMap

  function Get(v: Value, keys: seq<string>): Lookup
    decreases |keys|
  {
    if keys == [] then Found(v)
    else if v.Leaf? then NotMap
    else if keys[0] !in v.fields then Missing
    else Get(v.fields[keys[0]], keys[1..])
  }

  predicate IsStep(x: Value, key: string, y: Value) {
    x.Node? && key in x.fields && x.fields[key] == y
  }

  /** The values met one after the other when the keys are followed. */
  ghost predicate IsWay(v: Value, keys: seq<string>, way: seq<Value>) {
    && |way| == |keys| + 1 && way[0] == v
    && forall i :: 0 <= i < |keys| ==> IsStep(way[i], keys[i], way[i + 1])
  }

  ghost predicate Leads(v: Value, keys: seq<string>, x: Value) {
    exists way :: IsWay(v, keys, way) && way[|keys|] == x
  }

  /** The first keys lead to a map without the next one. */
  ghost predicate LacksKey(v: Value, keys: seq<string>) {
    exists n, x :: 0 <= n < |keys| && Leads(v, keys[..n], x) && x.Node? && keys[n] !in x.fields
  }

  /** The first keys, but not all of them, lead to something that is no map. */
  ghost predicate MeetsLeaf(v: Value, keys: seq<string>) {
    exists n, x :: 0 <= n < |keys| && Leads(v, keys[..n], x) && x.Leaf?
  }

  /** Follows the keys as far as they lead. */
  lemma {:induction false} FarthestWay(v: Value, keys: seq<string>) returns (way: seq<Value>)
    ensures 0 < |way| <= |keys| + 1 && IsWay(v, keys[..|way| - 1], way)
    ensures var n, x := |way| - 1, way[|way| - 1];
            Get(v, keys) == if n == |keys| then Found(x) else if x.Leaf? then NotMap else Missing
    ensures var n, x := |way| - 1, way[|way| - 1];
            n < |keys| && x.Node? ==> keys[n] !in x.fields
    decreases |keys|
  {
    way := [v];
    if keys != [] && v.Node? && keys[0] in v.fields {
      var rest := FarthestWay(v.fields[keys[0]], keys[1..]);
      way := [v] + rest;
      assert keys[1..][..|rest| - 1] == keys[..|way| - 1][1..];
      forall i | 0 <= i < |way| - 1 ensures IsStep(way[i], keys[i], way[i + 1]) {
        if i > 0 {
          assert keys[1..][..|rest| - 1][i - 1] == keys[i];
        }
      }
    }
  }

  lemma {:induction false} GetAlong(v: Value, keys: seq<string>, n: nat, way: seq<Value>)
    requires n <= |keys| && IsWay(v, keys[..n], way)
    ensures Get(v, keys) == Get(way[n], keys[n..])
    decreases n
  {
    if n > 0 {
      assert IsStep(way[0], keys[..n][0], way[1]);
      assert keys[1..][..n - 1] == keys[..n][1..];
      forall i | 0 <= i < n - 1 ensures IsStep(way[1..][i], keys[1..][..n - 1][i], way[1..][i + 1]) {
        assert IsStep(way[i + 1], keys[..n][i + 1], way[i + 2]);
      }
      GetAlong(v.fields[keys[0]], keys[1..], n - 1, way[1..]);
      assert keys[1..][n - 1..] == keys[n..];
    } else {
      assert keys[0..] == keys;
    }
  }

  /** A lookup finds what the keys lead to, misses the first key that is absent, or stops at the first value that is no map. */
  lemma GetFollows(v: Value, keys: seq<string>)
    ensures forall x :: Get(v, keys) == Found(x) <==> Leads(v, keys, x)
    ensures Get(v, keys) == Missing <==> LacksKey(v, keys)
    ensures Get(v, keys) == NotMap <==> MeetsLeaf(v, keys)
  {
    var farthest := FarthestWay(v, keys);
    var n, last := |farthest| - 1, farthest[|farthest| - 1];
    assert Leads(v, keys[..n], last);
    assert keys[..|keys|] == keys;
    forall m: nat, x | m <= |keys| && Leads(v, keys[..m], x) ensures Get(v, keys) == Get(x, keys[m..]) {
      var way :| IsWay(v, keys[..m], way) && way[m] == x;
      GetAlong(v, keys, m, way);
    }
    assert forall x :: Leads(v, keys, x) ==> Get(v, keys) == Get(x, keys[|keys|..]);
  }

  method GetByPath(config: Config, path: string) returns (r: Lookup)
    ensures r == Get(Node(config), Split(path, '.'))
    ensures forall x :: r == Found(x) <==> Leads(Node(config), Split(path, '.'), x)
    ensures r == Missing <==> LacksKey(Node(config), Split(path, '.'))
    ensures r == NotMap <==> MeetsLeaf(Node(config), Split(path, '.'))
  {
    var keys := Split(path, '.');
    GetFollows(Node(config), keys);
    var current := Node(config);
    for i := 0 to |keys|
      invariant Get(current, keys[i..]) == Get(Node(config), keys)
    {
      assert keys[i..][0] == keys[i] && keys[i..][1..] == keys[i + 1..];
      if current.Leaf? {
        return NotMap;
      }
      if keys[i] !in current.fields {
        return Missing;
      }
      current := current.fields[keys[i]];
    }
    r := Found(current);
  }

  /** What two layers that both allow the lookup yield together. */
  function Layered(x: Lookup, y: Lookup): Lookup
    requires !x.NotMap? && !y.NotMap?
  {
    if y.Missing? then x else if x.Missing? then y else Found(Override(x.value, y.value))
  }

  /** Looking up in a merge is merging what the layers hold at the path. */
  lemma {:induction false} GetOfMerge(a: Value, b: Value, keys: seq<string>)
    requires !Get(a, keys).NotMap? && !Get(b, keys).NotMap?
    ensures Get(Override(a, b), keys) == Layered(Get(a, keys), Get(b, keys))
    decreases |keys|
  {
    if keys != [] && keys[0] in a.fields && keys[0] in b.fields {
      GetOfMerge(a.fields[keys[0]], b.fields[keys[0]], keys[1..]);
    }
  }

  lemma {:induction false} LeafOfMerge(a: Value, b: Value, keys: seq<string>, text: string)
    ensures Get(Override(a, b), keys) == Found(Leaf(text)) <==>
      Get(b, keys) == Found(Leaf(text)) || (Get(a, keys) == Found(Leaf(text)) && Get(b, keys) == Missing)
    decreases |keys|
  {
    if keys != [] && a.Node? && b.Node? && keys[0] in a.fields && keys[0] in b.fields {
      LeafOfMerge(a.fields[keys[0]], b.fields[keys[0]], keys[1..], text);
    }
  }

  /** The leaves of a merge are those of the newer layer and those of the base that the newer one has no key for. */
  lemma LeavesOfMerge(a: Value, b: Value, keys: seq<string>, text: string)
    ensures Leads(Override(a, b), keys, Leaf(text)) <==>
      Leads(b, keys, Leaf(text)) || (Leads(a, keys, Leaf(text)) && LacksKey(b, keys))
  {
    GetFollows(a, keys);
    GetFollows(b, keys);
    GetFollows(Override(a, b), keys);
    LeafOfMerge(a, b, keys, text);
    hide *;
  }

  // ----- truncation

  function FullPath(current: string, key: string): string {
    if current == "" then key else current + "." + key
  }

  /** The value without the fields whose path is listed. */
  function Truncate(v: Value, paths: set<string>, current: string): Value
    decreases v
  {
    if v.Leaf? then v
    else Node(map k | k in v.fields && FullPath(current, k) !in paths :: Truncate(v.fields[k], paths, FullPath(current, k)))
  }

  predicate ValidPath(path: string) {
    forall k :: k in Split(path, '.') ==> k != ""
  }

  datatype TruncateError = NilConfig | NoPaths | InvalidPath(path: string)

  method TruncateConfiguration(config: Option<Config>, paths: seq<string>) returns (r: Result<Config, TruncateError>)
    ensures r.Ok? <==> config.Some? && paths != [] && forall p :: p in paths ==> ValidPath(p)
    ensures r.Ok? ==> Node(r.value) == Truncate(Node(config.value), set p | p in paths, "")
    ensures r.Ok? ==> Prunes(Node(config.value), Node(r.value), set p | p in paths)
    ensures r == Err(NilConfig) <==> config.None?
    ensures r == Err(NoPaths) <==> config.Some? && paths == []
    ensures r.Err? && r.error.InvalidPath? ==> r.error.path in paths && !ValidPath(r.error.path)
  {
    if config.None? {
      return Err(NilConfig);
    }
    if |paths| == 0 {
      return Err(NoPaths);
    }
    for i := 0 to |paths|
      invariant forall k :: 0 <= k < i ==> ValidPath(paths[k])
    {
      if !ValidPath(paths[i]) {
        return Err(InvalidPath(paths[i]));
      }
    }
    var output := TruncateRecursive(config.value, set p | p in paths, "");
    TruncatePrunes(Node(config.value), set p | p in paths);
    r := Ok(output);
  }

  method TruncateRecursive(config: Config, paths: set<string>, current: string) returns (output: Config)
    ensures Node(output) == Truncate(Node(config), paths, current)
    decreases Node(config)
  {
    output := map[];
    var remaining := config.Keys;
    while remaining != {}
      invariant remaining <= config.Keys
      invariant forall k :: k in output <==> k in config && k !in remaining && FullPath(current, k) !in paths
      invariant forall k :: k in output ==> output[k] == Truncate(config[k], paths, FullPath(current, k))
    {
      var key :| key in remaining;
      remaining := remaining - {key};
      var fullPath := FullPath(current, key);
      if fullPath in paths {
        continue;
      }
      var value := config[key];
      if value.Node? {
        var nested := TruncateRecursive(value.fields, paths, fullPath);
        value := Node(nested);
      }
      output := output[key := value];
    }
  }

  /** Truncating a merge is merging the truncations. */
  lemma {:induction false} TruncateOfMerge(a: Value, b: Value, paths: set<string>, current: string)
    ensures Truncate(Override(a, b), paths, current) == Override(Truncate(a, paths, current), Truncate(b, paths, current))
    decreases b
  {
    if a.Node? && b.Node? {
      var l, r := Truncate(Override(a, b), paths, current), Override(Truncate(a, paths, current), Truncate(b, paths, current));
      assert l.fields.Keys == r.fields.Keys;
      forall k | k in l.fields ensures l.fields[k] == r.fields[k] {
        if k in a.fields && k in b.fields {
          TruncateOfMerge(a.fields[k], b.fields[k], paths, FullPath(current, k));
        }
      }
    }
  }

  /** Truncating twice is truncating once by all the paths. */
  lemma {:induction false} TruncateTwice(v: Value, p: set<string>, q: set<string>, current: string)
    ensures Truncate(Truncate(v, p, current), q, current) == Truncate(v, p + q, current)
    decreases v
  {
    if v.Node? {
      var l, r := Truncate(Truncate(v, p, current), q, current), Truncate(v, p + q, current);
      assert l.fields.Keys == r.fields.Keys;
      forall k | k in l.fields ensures l.fields[k] == r.fields[k] {
        TruncateTwice(v.fields[k], p, q, FullPath(current, k));
      }
    }
  }

  /** The path under which truncation meets the value at `keys` below `current`. */
  function Reached(current: string, keys: seq<string>): string
    decreases keys
  {
    if keys == [] then current else Reached(FullPath(current, keys[0]), keys[1..])
  }

  /** One of the paths on the way to the value is listed. */
  predicate CutOff(paths: set<string>, current: string, keys: seq<string>)
    decreases keys
  {
    keys != [] && (FullPath(current, keys[0]) in paths || CutOff(paths, FullPath(current, keys[0]), keys[1..]))
  }

  lemma {:induction false} GetOfTruncated(v: Value, paths: set<string>, current: string, keys: seq<string>)
    ensures Get(Truncate(v, paths, current), keys).Found? <==> Get(v, keys).Found? && !CutOff(paths, current, keys)
    ensures Get(Truncate(v, paths, current), keys).Found? ==>
      Get(Truncate(v, paths, current), keys).value == Truncate(Get(v, keys).value, paths, Reached(current, keys))
    decreases |keys|
  {
    if keys != [] && v.Node? && keys[0] in v.fields {
      GetOfTruncated(v.fields[keys[0]], paths, FullPath(current, keys[0]), keys[1..]);
    }
  }

  // ----- what truncation keeps, by the paths

  /** The keys joined by dots, without the empty ones in front. */
  function Dotted(keys: seq<string>): string {
    if keys == [] then "" else if keys[0] == "" then Dotted(keys[1..]) else Join(keys, '.')
  }

  predicate Unlisted(paths: set<string>, keys: seq<string>) {
    forall n :: 0 < n <= |keys| ==> Dotted(keys[..n]) !in paths
  }

  /** Both are maps, or they are the same value. */
  predicate Alike(x: Value, y: Value) {
    x == y || (x.Node? && y.Node?)
  }

  ghost predicate KeepsUnlisted(v: Value, w: Value, paths: set<string>) {
    forall keys, x :: Leads(v, keys, x) && Unlisted(paths, keys) ==> exists y :: Leads(w, keys, y) && Alike(x, y)
  }

  ghost predicate AddsNothing(v: Value, w: Value, paths: set<string>) {
    forall keys, y :: Leads(w, keys, y) ==> Unlisted(paths, keys) && exists x :: Leads(v, keys, x) && Alike(x, y)
  }

  /** Keys with no listed path on the way lead to the same leaf as before, or to a map where there was one; no others lead anywhere. */
  ghost predicate Prunes(v: Value, w: Value, paths: set<string>) {
    KeepsUnlisted(v, w, paths) && AddsNothing(v, w, paths)
  }

  lemma {:induction false} JoinLast(keys: seq<string>, key: string)
    requires keys != []
    ensures Join(keys + [key], '.') == Join(keys, '.') + "." + key
    decreases |keys|
  {
    assert keys == [keys[0]] + keys[1..];
    if |keys| == 1 {
      JoinCons(keys[0], [key], '.');
      assert keys + [key] == [keys[0]] + [key];
    } else {
      JoinCons(keys[0], keys[1..] + [key], '.');
      assert keys + [key] == [keys[0]] + (keys[1..] + [key]);
      JoinLast(keys[1..], key);
    }
  }

  lemma {:induction false} DottedLast(keys: seq<string>, key: string)
    ensures Dotted(keys + [key]) == FullPath(Dotted(keys), key)
    ensures keys != [] && keys[0] != "" ==> Dotted(keys) != ""
    decreases |keys|
  {
    if keys == [] {
      assert keys + [key] == [key] && [key][1..] == [];
    } else if keys[0] == "" {
      assert (keys + [key])[1..] == keys[1..] + [key];
      DottedLast(keys[1..], key);
    } else {
      JoinLast(keys, key);
    }
  }

  lemma {:induction false} CutOffAt(paths: set<string>, before: seq<string>, keys: seq<string>)
    ensures CutOff(paths, Dotted(before), keys) <==> exists n :: 0 < n <= |keys| && Dotted(before + keys[..n]) in paths
    decreases |keys|
  {
    if keys != [] {
      var next := before + [keys[0]];
      DottedLast(before, keys[0]);
      CutOffAt(paths, next, keys[1..]);
      forall n | 0 < n <= |keys| ensures before + keys[..n] == next + keys[1..][..n - 1] {
      }
      assert before + keys[..1] == next + [] == next;
      if n :| 0 < n <= |keys| && Dotted(before + keys[..n]) in paths {
        assert n == 1 || (0 < n - 1 <= |keys[1..]| && Dotted(next + keys[1..][..n - 1]) in paths);
      }
      if n :| 0 < n <= |keys[1..]| && Dotted(next + keys[1..][..n]) in paths {
        assert before + keys[..n + 1] == next + keys[1..][..n + 1 - 1];
      }
    }
  }

  lemma NotCutOffIsUnlisted(paths: set<string>, keys: seq<string>)
    ensures !CutOff(paths, "", keys) <==> Unlisted(paths, keys)
  {
    CutOffAt(paths, [], keys);
    forall n | 0 < n <= |keys| ensures [] + keys[..n] == keys[..n] {
    }
  }

  lemma TruncatePrunes(v: Value, paths: set<string>)
    ensures Prunes(v, Truncate(v, paths, ""), paths)
  {
    hide Leads, Unlisted, Truncate;
    var w := Truncate(v, paths, "");
    forall keys, x | Leads(v, keys, x) && Unlisted(paths, keys) ensures exists y :: Leads(w, keys, y) && Alike(x, y) {
      var y := KeptAlike(v, w, paths, keys, x);
    }
    forall keys, y | Leads(w, keys, y) ensures Unlisted(paths, keys) && exists x :: Leads(v, keys, x) && Alike(x, y) {
      var x := FoundBefore(v, w, paths, keys, y);
    }
  }

  lemma KeptAlike(v: Value, w: Value, paths: set<string>, keys: seq<string>, x: Value) returns (y: Value)
    requires w == Truncate(v, paths, "") && Leads(v, keys, x) && Unlisted(paths, keys)
    ensures Leads(w, keys, y) && Alike(x, y)
  {
    hide Leads, Unlisted, Get;
    GetFollows(v, keys);
    GetFollows(w, keys);
    GetOfTruncated(v, paths, "", keys);
    NotCutOffIsUnlisted(paths, keys);
    assert Get(v, keys) == Found(x);
    y := Get(w, keys).value;
  }

  lemma FoundBefore(v: Value, w: Value, paths: set<string>, keys: seq<string>, y: Value) returns (x: Value)
    requires w == Truncate(v, paths, "") && Leads(w, keys, y)
    ensures Unlisted(paths, keys) && Leads(v, keys, x) && Alike(x, y)
  {
    hide Leads, Unlisted, Get;
    GetFollows(v, keys);
    GetFollows(w, keys);
    GetOfTruncated(v, paths, "", keys);
    NotCutOffIsUnlisted(paths, keys);
    assert Get(w, keys) == Found(y);
    x := Get(v, keys).value;
  }

  // ----- when listed prefixes are exactly what is removed

  /** The path or one of the maps it leads through is listed. */
  ghost predicate Listed(paths: set<string>, path: string) {
    exists p :: p in paths && (p == path || p + "." <= path)
  }

  lemma {:induction false} CutOffIsListed(paths: set<string>, current: string, keys: seq<string>)
    requires current != "" && keys != [] && forall k :: k in keys ==> '.' !in k
    ensures CutOff(paths, current, keys) <==>
      exists p :: p in paths && current + "." <= p && (p == current + "." + Join(keys, '.') || p + "." <= current + "." + Join(keys, '.'))
    decreases |keys|
  {
    var step := current + "." + keys[0];
    var whole := current + "." + Join(keys, '.');
    if |keys| == 1 {
      assert whole == step;
      assert !CutOff(paths, step, keys[1..]);
      forall p | p in paths && current + "." <= p ensures !(p + "." <= whole) {
        DotInside(current + ".", p, keys[0], "");
        assert whole == current + "." + keys[0] + "";
      }
    } else {
      assert whole == step + "." + Join(keys[1..], '.');
      CutOffIsListed(paths, step, keys[1..]);
      if step in paths {
        assert step + "." <= whole && current + "." <= step;
      }
      if p :| p in paths && current + "." <= p && (p == whole || p + "." <= whole) {
        assert keys[0] in keys;
        BoundaryPast(current + ".", keys[0], Join(keys[1..], '.'), p);
      }
      if p :| p in paths && step + "." <= p && (p == whole || p + "." <= whole) {
        assert current + "." <= step + "." <= p;
      }
    }
  }

  /** A dot-free field has no room for a listed prefix ending inside it. */
  lemma DotInside(before: string, p: string, key: string, rest: string)
    requires '.' !in key && before <= p
    ensures p + "." <= before + key + rest ==> |p| >= |before + key|
  {
    var all := before + key + rest;
    if |p| < |before + key| {
      assert all[|p|] == key[|p| - |before|] && key[|p| - |before|] in key;
      assert (p + ".")[|p|] == '.';
    }
  }

  /** A listed prefix of a longer path ends at the end of the first field or past the dot that follows it. */
  lemma BoundaryPast(before: string, key: string, rest: string, p: string)
    requires '.' !in key && before <= p
    requires p == before + key + "." + rest || p + "." <= before + key + "." + rest
    ensures p == before + key || before + key + "." <= p
  {
    var step, whole := before + key, before + key + "." + rest;
    assert whole == step + ("." + rest);
    DotInside(before, p, key, "." + rest);
    assert whole[..|step|] == step && whole[..|step| + 1] == step + ".";
    assert p == whole[..|p|];
  }

  lemma FirstKey(path: string)
    ensures Split(path, '.')[0] == "" <==> path == "" || path[0] == '.'
  {
  }

  lemma CutOffMeansListed(paths: set<string>, path: string)
    requires Split(path, '.')[0] != ""
    ensures CutOff(paths, "", Split(path, '.')) <==> Listed(paths, path)
  {
    hide Split;
    var keys := Split(path, '.');
    var first := keys[0];
    JoinOfSplit(path, '.');
    assert CutOff(paths, "", keys) <==> first in paths || CutOff(paths, first, keys[1..]);
    if |keys| == 1 {
      assert path == "" + first + "";
      forall p ensures !(p + "." <= path) {
        DotInside("", p, first, "");
      }
    } else {
      var rest := Join(keys[1..], '.');
      assert path == first + "." + rest == "" + first + "." + rest;
      CutOffIsListed(paths, first, keys[1..]);
      forall p | p in paths && (p == path || p + "." <= path) ensures p == first || first + "." <= p {
        BoundaryPast("", first, rest, p);
        assert "" + first == first;
      }
      assert first + "." <= path;
    }
  }

  /** Unless its first key is empty, a path is found after truncation iff it was found before and no prefix of it is listed. */
  lemma LookupAfterTruncation(v: Value, paths: set<string>, path: string)
    requires path != "" && path[0] != '.'
    ensures Get(Truncate(v, paths, ""), Split(path, '.')).Found? <==> Get(v, Split(path, '.')).Found? && !Listed(paths, path)
  {
    FirstKey(path);
    GetOfTruncated(v, paths, "", Split(path, '.'));
    CutOffMeansListed(paths, path);
  }

  // ----- paths with a leading dot

  ghost predicate RemovesListedOnly(path: string, v: Value, paths: set<string>) {
    Get(Truncate(v, paths, ""), Split(path, '.')).Found? <==> Get(v, Split(path, '.')).Found? && !Listed(paths, path)
  }

  predicate AllValid(paths: set<string>) {
    forall p :: p in paths ==> ValidPath(p)
  }

  predicate AllEmpty(keys: seq<string>) {
    forall i :: 0 <= i < |keys| ==> keys[i] == ""
  }

  lemma LeadingDotIsNeverListed(paths: set<string>, path: string)
    requires AllValid(paths) && Split(path, '.')[0] == ""
    ensures !Listed(paths, path)
  {
    FirstKey(path);
    forall p | p in paths ensures p != path && !(p + "." <= path) {
      FirstKey(p);
      assert Split(p, '.')[0] in Split(p, '.');
      assert p != "" && p[0] != '.';
      assert (p + ".")[0] == p[0];
    }
  }

  lemma {:induction false} EmptyKeysAreNotCut(paths: set<string>, keys: seq<string>)
    requires "" !in paths && AllEmpty(keys)
    ensures !CutOff(paths, "", keys)
    decreases keys
  {
    if keys != [] {
      EmptyKeysAreNotCut(paths, keys[1..]);
    }
  }

  /** A value that has just the given path. */
  function Nest(keys: seq<string>): Value {
    if keys == [] then Leaf("") else Node(map[keys[0] := Nest(keys[1..])])
  }

  lemma {:induction false} NestHasPath(keys: seq<string>)
    ensures Get(Nest(keys), keys).Found?
  {
    if keys != [] {
      NestHasPath(keys[1..]);
    }
  }

  /** Truncation loses the empty keys in front, so listing the first real key cuts the path off. */
  lemma {:induction false} FirstRealKey(keys: seq<string>) returns (key: string)
    requires !AllEmpty(keys)
    ensures key in keys && key != "" && CutOff({key}, "", keys)
    decreases keys
  {
    if keys[0] != "" {
      key := keys[0];
    } else {
      var i :| 0 <= i < |keys| && keys[i] != "";
      assert keys[1..][i - 1] == keys[i];
      key := FirstRealKey(keys[1..]);
    }
  }

  /** Truncation removes a path just by its listed prefixes, unless the path has an empty key before a real one. */
  lemma TruncationIsExact(path: string)
    ensures (forall v, paths :: AllValid(paths) ==> RemovesListedOnly(path, v, paths)) <==>
      Split(path, '.')[0] != "" || AllEmpty(Split(path, '.'))
  {
    var keys := Split(path, '.');
    FirstKey(path);
    if keys[0] != "" {
      forall v, paths | AllValid(paths) ensures RemovesListedOnly(path, v, paths) {
        LookupAfterTruncation(v, paths, path);
      }
    } else if AllEmpty(keys) {
      forall v, paths | AllValid(paths) ensures RemovesListedOnly(path, v, paths) {
        LeadingDotIsNeverListed(paths, path);
        assert "" in Split("", '.');
        EmptyKeysAreNotCut(paths, keys);
        GetOfTruncated(v, paths, "", keys);
      }
    } else {
      var key := FirstRealKey(keys);
      SplitOfOne(key, '.');
      assert AllValid({key});
      LeadingDotIsNeverListed({key}, path);
      NestHasPath(keys);
      GetOfTruncated(Nest(keys), {key}, "", keys);
      assert !RemovesListedOnly(path, Nest(keys), {key});
    }
  }
}
