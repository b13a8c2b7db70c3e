/** Resolution of layered configurations and the provenance of their values. */
module Provenance {
  import opened Wrappers
  import opened Strings
  import opened Configuration

  datatype Environment = Environment(defaults: Config, regions: map<string, Config>)

  datatype Cloud = Cloud(defaults: Config, environments: map<string, Environment>)

  datatype Resolver = Resolver(cloud: string, environment: string, defaults: Config, clouds: map<string, Cloud>)
  {
    predicate Resolves() {
      cloud in clouds && environment in clouds[cloud].environments
    }

    function CloudLayer(): Config
      requires Resolves()
    {
      clouds[cloud].defaults
    }

    function EnvironmentLayer(): Config
      requires Resolves()
    {
      clouds[cloud].environments[environment].defaults
    }

    /** A region without overrides contributes nothing. */
    function RegionLayer(region: string): Config
      requires Resolves()
    {
      var regions := clouds[cloud].environments[environment].regions;
      if region in regions then regions[region] else map[]
    }

    /** The layers of a region, the most general first. */
    function Layers(region: string): seq<Config>
      requires Resolves()
    {
      [defaults, CloudLayer(), EnvironmentLayer(), RegionLayer(region)]
    }
  }

  datatype ResolveError = CloudNotFound | EnvironmentNotFound | NotIndexable(part: Part)

  datatype Part = Default | Clouds | Environments | Region | Merged

  /** The left fold of overriding. */
  function Fold(base: Value, layers: seq<Value>): Value
    decreases |layers|
  {
    if layers == [] then base else Fold(Override(base, layers[0]), layers[1..])
  }

  function AsValues(layers: seq<Config>): (r: seq<Value>)
    ensures |r| == |layers| && forall i :: 0 <= i < |layers| ==> r[i] == Node(layers[i])
  {
    if layers == [] then [] else [Node(layers[0])] + AsValues(layers[1..])
  }

  method GetConfiguration(r: Resolver) returns (result: Result<Config, ResolveError>)
    ensures result.Ok? <==> r.Resolves()
    ensures result.Ok? ==> Node(result.value) == Fold(Node(r.defaults), AsValues([r.CloudLayer(), r.EnvironmentLayer()]))
  {
    if r.cloud !in r.clouds {
      return Err(CloudNotFound);
    }
    var cfg := MergeConfiguration(Some(r.defaults), Some(r.clouds[r.cloud].defaults));
    if r.environment !in r.clouds[r.cloud].environments {
      return Err(EnvironmentNotFound);
    }
    cfg := MergeConfiguration(Some(cfg), Some(r.clouds[r.cloud].environments[r.environment].defaults));
    FoldThree(Node(r.defaults), AsValues([r.CloudLayer(), r.EnvironmentLayer()]));
    result := Ok(cfg);
  }

  lemma FoldThree(base: Value, layers: seq<Value>)
    ensures |layers| == 2 ==> Fold(base, layers) == Override(Override(base, layers[0]), layers[1])
    ensures |layers| == 3 ==> Fold(base, layers) == Override(Override(Override(base, layers[0]), layers[1]), layers[2])
  {
    if |layers| >= 2 {
      var once := Override(base, layers[0]);
      var twice := Override(once, layers[1]);
      assert Fold(base, layers) == Fold(once, layers[1..]) == Fold(twice, layers[1..][1..]);
      if |layers| == 2 {
        assert layers[1..][1..] == [];
      } else if |layers| == 3 {
        assert layers[1..][1..] == [layers[2]] && [layers[2]][1..] == [];
        assert Fold(twice, [layers[2]]) == Fold(Override(twice, layers[2]), []);
      }
    }
  }

  method GetRegionConfiguration(r: Resolver, region: string) returns (result: Result<Config, ResolveError>)
    ensures result.Ok? <==> r.Resolves()
    ensures result.Ok? ==> Node(result.value) == Fold(Node(r.defaults), AsValues(r.Layers(region)[1..]))
  {
    if r.cloud !in r.clouds {
      return Err(CloudNotFound);
    }
    var cloud := r.clouds[r.cloud];
    var cfg := MergeConfiguration(Some(r.defaults), Some(cloud.defaults));
    if r.environment !in cloud.environments {
      return Err(EnvironmentNotFound);
    }
    var environment := cloud.environments[r.environment];
    cfg := MergeConfiguration(Some(cfg), Some(environment.defaults));
    var regionCfg := if region in environment.regions then environment.regions[region] else map[];
    cfg := MergeConfiguration(Some(cfg), Some(regionCfg));
    FoldThree(Node(r.defaults), AsValues(r.Layers(region)[1..]));
    result := Ok(cfg);
  }

  /** What each part holds at the path. */
  type Record = map<Part, Option<Value>>

  function PartOf(r: Resolver, region: string, merged: Config, part: Part): Config
    requires r.Resolves()
  {
    match part
    case Default => r.defaults
    case Clouds => r.CloudLayer()
    case Environments => r.EnvironmentLayer()
    case Region => r.RegionLayer(region)
    case Merged => merged
  }

  /** The set values of the layers, the most general first. */
  function SetValues(lookups: seq<Lookup>): seq<Value> {
    if lookups == [] then []
    else (if lookups[0].Found? then [lookups[0].value] else []) + SetValues(lookups[1..])
  }

  function LookupAll(layers: seq<Value>, keys: seq<string>): (r: seq<Lookup>)
    ensures |r| == |layers| && forall i :: 0 <= i < |layers| ==> r[i] == Get(layers[i], keys)
  {
    if layers == [] then [] else [Get(layers[0], keys)] + LookupAll(layers[1..], keys)
  }

  ghost predicate Indexable(layers: seq<Value>, keys: seq<string>) {
    forall i :: 0 <= i < |layers| ==> !Get(layers[i], keys).NotMap?
  }

  /** What a non-empty list of values amounts to, the later overriding the earlier. */
  function Amount(values: seq<Value>): Lookup {
    if values == [] then Missing else Found(Fold(values[0], values[1..]))
  }

  lemma {:induction false} LookupOfFold(base: Value, layers: seq<Value>, keys: seq<string>)
    requires Indexable([base] + layers, keys)
    ensures Get(Fold(base, layers), keys) == Amount(SetValues(LookupAll([base] + layers, keys)))
    decreases |layers|
  {
    var all := [base] + layers;
    assert all[0] == base && all[1..] == layers;
    if layers == [] {
      assert LookupAll(all, keys)[1..] == [];
    } else {
      var next := layers[0];
      assert !Get(all[0], keys).NotMap? && !Get(all[1], keys).NotMap?;
      GetOfMerge(base, next, keys);
      var merged := Override(base, next);
      forall i | 0 <= i < |[merged] + layers[1..]| ensures !Get(([merged] + layers[1..])[i], keys).NotMap? {
        if i > 0 {
          assert ([merged] + layers[1..])[i] == all[i + 1];
        }
      }
      LookupOfFold(merged, layers[1..], keys);
      FirstTwo(base, next, merged, layers[1..], keys);
    }
  }

  lemma LayeredIs(x: Lookup, y: Lookup)
    requires !x.NotMap? && !y.NotMap?
    ensures x.Found? && y.Found? ==> Layered(x, y) == Found(Override(x.value, y.value))
    ensures x.Missing? ==> Layered(x, y) == y
    ensures y.Missing? ==> Layered(x, y) == x
  {
  }

  lemma AmountOfTwo(x: Value, y: Value, tail: seq<Value>)
    ensures Amount([Override(x, y)] + tail) == Amount([x] + ([y] + tail))
  {
    hide Override;
    assert ([x] + ([y] + tail))[1..] == [y] + tail && ([y] + tail)[1..] == tail;
    assert ([Override(x, y)] + tail)[1..] == tail;
  }

  /** Merging the first two layers first does not change what the set values amount to. */
  lemma FirstTwo(a: Value, b: Value, merged: Value, rest: seq<Value>, keys: seq<string>)
    requires !Get(a, keys).NotMap? && !Get(b, keys).NotMap?
    requires Get(merged, keys) == Layered(Get(a, keys), Get(b, keys))
    ensures Amount(SetValues(LookupAll([merged] + rest, keys))) == Amount(SetValues(LookupAll([a] + ([b] + rest), keys)))
  {
    hide *;
    var tail := SetValues(LookupAll(rest, keys));
    LookupCons(merged, rest, keys);
    LookupCons(b, rest, keys);
    LookupCons(a, [b] + rest, keys);
    LayeredIs(Get(a, keys), Get(b, keys));
    if Get(a, keys).Found? && Get(b, keys).Found? {
      AmountOfTwo(Get(a, keys).value, Get(b, keys).value, tail);
    } else if Get(a, keys).Found? {
      assert [Get(a, keys).value] + ([] + tail) == [Get(a, keys).value] + tail;
    } else if Get(b, keys).Found? {
      assert [] + ([Get(b, keys).value] + tail) == [Get(b, keys).value] + tail;
    } else {
      assert [] + ([] + tail) == [] + tail;
    }
  }

  lemma LookupCons(v: Value, rest: seq<Value>, keys: seq<string>)
    ensures SetValues(LookupAll([v] + rest, keys)) ==
      (if Get(v, keys).Found? then [Get(v, keys).value] else []) + SetValues(LookupAll(rest, keys))
  {
    assert ([v] + rest)[1..] == rest;
    assert LookupAll([v] + rest, keys)[1..] == LookupAll(rest, keys);
  }

  /** Reports what every layer and the result hold at the path; fails when a layer cannot be indexed that far. */
  method ValueProvenance(r: Resolver, region: string, path: string) returns (result: Result<Record, ResolveError>)
    ensures result.Ok? <==> r.Resolves() && Indexable(AsValues(r.Layers(region)), Split(path, '.'))
    ensures result.Ok? ==> result.value.Keys == {Default, Clouds, Environments, Region, Merged}
    ensures result.Ok? ==> Explained(result.value, AsValues(r.Layers(region)), Split(path, '.'))
    ensures result.Ok? <==> r.Resolves() && forall layer :: layer in r.Layers(region) ==> !MeetsLeaf(Node(layer), Split(path, '.'))
    ensures result.Ok? ==> ShowsLayers(result.value, r, region, Split(path, '.'))
    ensures result == Err(CloudNotFound) <==> r.cloud !in r.clouds
    ensures result == Err(EnvironmentNotFound) <==> r.cloud in r.clouds && r.environment !in r.clouds[r.cloud].environments
  {
    hide Get, Fold, SetValues, LookupAll, Amount, Indexable, Explained, ShowsLayers, MeetsLeaf, LacksKey, Leads, IsWay;
    if r.cloud !in r.clouds {
      return Err(CloudNotFound);
    }
    if r.environment !in r.clouds[r.cloud].environments {
      return Err(EnvironmentNotFound);
    }
    var merged := GetRegionConfiguration(r, region);
    ghost var keys := Split(path, '.');
    IndexableMeets(r, region, keys);
    MergedLookup(r, region, merged.value, keys);
    var record: Record := map[];
    var remaining := {Default, Clouds, Environments, Region, Merged};
    while remaining != {}
      invariant remaining <= {Default, Clouds, Environments, Region, Merged}
      invariant record.Keys == {Default, Clouds, Environments, Region, Merged} - remaining
      invariant forall part :: part in record ==>
        Holds(record[part], Get(Node(PartOf(r, region, merged.value, part)), keys))
    {
      var part :| part in remaining;
      var value := GetByPath(PartOf(r, region, merged.value, part), path);
      if value.NotMap? {
        NotIndexablePart(r, region, merged.value, part, keys);
        return Err(NotIndexable(part));
      }
      record := record[part := if value.Missing? then None else Some(value.value)];
      remaining := remaining - {part};
    }
    PartsExplained(r, region, merged.value, keys, record);
    LayersShown(r, region, merged.value, keys, record);
    result := Ok(record);
  }

  /** A recorded value and whether it is set agree with a lookup that did not fail. */
  ghost predicate Holds(value: Option<Value>, lookup: Lookup) {
    match lookup
    case Found(v) => value == Some(v)
    case Missing => value == None
    case NotMap => false
  }

  /** Set to what the keys lead to in the layer, unset if they miss a key on the way. */
  ghost predicate Shows(value: Option<Value>, layer: Config, keys: seq<string>) {
    && (forall x :: value == Some(x) <==> Leads(Node(layer), keys, x))
    && (value.None? <==> LacksKey(Node(layer), keys))
  }

  ghost predicate ShowsLayers(record: Record, r: Resolver, region: string, keys: seq<string>)
    requires r.Resolves() && record.Keys == {Default, Clouds, Environments, Region, Merged}
  {
    var environment := r.clouds[r.cloud].environments[r.environment];
    && Shows(record[Default], r.defaults, keys)
    && Shows(record[Clouds], r.clouds[r.cloud].defaults, keys)
    && Shows(record[Environments], environment.defaults, keys)
    && Shows(record[Region], if region in environment.regions then environment.regions[region] else map[], keys)
  }

  lemma HoldsShows(value: Option<Value>, layer: Config, keys: seq<string>)
    requires Holds(value, Get(Node(layer), keys))
    ensures Shows(value, layer, keys)
  {
    GetFollows(Node(layer), keys);
  }

  lemma LayersShown(r: Resolver, region: string, merged: Config, keys: seq<string>, record: Record)
    requires r.Resolves() && record.Keys == {Default, Clouds, Environments, Region, Merged}
    requires forall part :: part in record ==> Holds(record[part], Get(Node(PartOf(r, region, merged, part)), keys))
    ensures ShowsLayers(record, r, region, keys)
  {
    hide Shows, Holds, Get;
    forall part | part in record ensures Shows(record[part], PartOf(r, region, merged, part), keys) {
      HoldsShows(record[part], PartOf(r, region, merged, part), keys);
    }
    assert Shows(record[Default], PartOf(r, region, merged, Default), keys);
    assert Shows(record[Clouds], PartOf(r, region, merged, Clouds), keys);
    assert Shows(record[Environments], PartOf(r, region, merged, Environments), keys);
    assert Shows(record[Region], PartOf(r, region, merged, Region), keys);
  }

  lemma IndexableMeets(r: Resolver, region: string, keys: seq<string>)
    requires r.Resolves()
    ensures Indexable(AsValues(r.Layers(region)), keys) <==> forall layer :: layer in r.Layers(region) ==> !MeetsLeaf(Node(layer), keys)
  {
    hide MeetsLeaf, Get;
    var layers := r.Layers(region);
    forall i | 0 <= i < |layers| ensures Get(AsValues(layers)[i], keys).NotMap? <==> MeetsLeaf(Node(layers[i]), keys) {
      GetFollows(Node(layers[i]), keys);
    }
  }

  /** The record shows every layer, and a result that is set iff some layer is and folds the set values in order. */
  ghost predicate Explained(record: Record, layers: seq<Value>, keys: seq<string>)
    requires record.Keys == {Default, Clouds, Environments, Region, Merged} && |layers| == 4
  {
    && Holds(record[Default], Get(layers[0], keys))
    && Holds(record[Clouds], Get(layers[1], keys))
    && Holds(record[Environments], Get(layers[2], keys))
    && Holds(record[Region], Get(layers[3], keys))
    && Holds(record[Merged], Amount(Recorded(record)))
  }

  /** The set values of a record in the order default, cloud, environment, region. */
  function Recorded(record: Record): seq<Value>
    requires record.Keys == {Default, Clouds, Environments, Region, Merged}
  {
    One(record[Default]) + (One(record[Clouds]) + (One(record[Environments]) + One(record[Region])))
  }

  function One(value: Option<Value>): seq<Value> {
    if value.Some? then [value.value] else []
  }

  lemma MergedLookup(r: Resolver, region: string, merged: Config, keys: seq<string>)
    requires r.Resolves() && Node(merged) == Fold(Node(r.defaults), AsValues(r.Layers(region)[1..]))
    ensures var layers := AsValues(r.Layers(region));
            Indexable(layers, keys) ==> Get(Node(merged), keys) == Amount(SetValues(LookupAll(layers, keys)))
  {
    var layers := AsValues(r.Layers(region));
    assert [Node(r.defaults)] + AsValues(r.Layers(region)[1..]) == layers;
    if Indexable(layers, keys) {
      LookupOfFold(Node(r.defaults), AsValues(r.Layers(region)[1..]), keys);
    }
  }

  lemma NotIndexablePart(r: Resolver, region: string, merged: Config, part: Part, keys: seq<string>)
    requires r.Resolves() && Get(Node(PartOf(r, region, merged, part)), keys).NotMap?
    requires var layers := AsValues(r.Layers(region));
             Indexable(layers, keys) ==> Get(Node(merged), keys) == Amount(SetValues(LookupAll(layers, keys)))
    ensures !Indexable(AsValues(r.Layers(region)), keys)
  {
    var layers := AsValues(r.Layers(region));
    if part.Merged? {
    } else {
      var i := match part case Default => 0 case Clouds => 1 case Environments => 2 case _ => 3;
      assert layers[i] == Node(PartOf(r, region, merged, part));
    }
  }

  lemma PartsExplained(r: Resolver, region: string, merged: Config, keys: seq<string>, record: Record)
    requires r.Resolves() && record.Keys == {Default, Clouds, Environments, Region, Merged}
    requires forall part :: part in record ==> Holds(record[part], Get(Node(PartOf(r, region, merged, part)), keys))
    requires var layers := AsValues(r.Layers(region));
             Indexable(layers, keys) ==> Get(Node(merged), keys) == Amount(SetValues(LookupAll(layers, keys)))
    ensures Indexable(AsValues(r.Layers(region)), keys)
    ensures Explained(record, AsValues(r.Layers(region)), keys)
  {
    hide Get, Fold, SetValues, LookupAll, Amount;
    var layers := AsValues(r.Layers(region));
    assert Holds(record[Default], Get(layers[0], keys)) && Holds(record[Clouds], Get(layers[1], keys));
    assert Holds(record[Environments], Get(layers[2], keys)) && Holds(record[Region], Get(layers[3], keys));
    assert Holds(record[Merged], Get(Node(merged), keys));
    RecordedValues(layers, keys, record);
  }

  lemma RecordedValues(layers: seq<Value>, keys: seq<string>, record: Record)
    requires record.Keys == {Default, Clouds, Environments, Region, Merged} && |layers| == 4
    requires Holds(record[Default], Get(layers[0], keys)) && Holds(record[Clouds], Get(layers[1], keys))
    requires Holds(record[Environments], Get(layers[2], keys)) && Holds(record[Region], Get(layers[3], keys))
    ensures SetValues(LookupAll(layers, keys)) == Recorded(record)
  {
    hide Get, SetValues, LookupAll;
    LookupCons(layers[0], layers[1..], keys);
    LookupCons(layers[1], layers[2..], keys);
    LookupCons(layers[2], layers[3..], keys);
    LookupCons(layers[3], [], keys);
    NoLayers(keys);
    assert layers == [layers[0]] + layers[1..] && layers[1..] == [layers[1]] + layers[2..];
    assert layers[2..] == [layers[2]] + layers[3..] && layers[3..] == [layers[3]] + [];
  }

  lemma NoLayers(keys: seq<string>)
    ensures SetValues(LookupAll([], keys)) == []
  {
  }
}
