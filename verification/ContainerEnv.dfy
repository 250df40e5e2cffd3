/** Merging container environments by variable name (pkg/controller/certmanager/deployment_helper.go). */
module ContainerEnv {
  import opened Strings
  import ContainerArgs

  datatype EnvVar = EnvVar(name: string, value: string)

  type EnvMap = map<string, EnvVar>

  function Parse(envs: seq<EnvVar>): EnvMap {
    if envs == [] then map[]
    else var last := envs[|envs| - 1]; Parse(envs[..|envs| - 1])[last.name := last]
  }

  ghost predicate WellNamed(m: EnvMap) {
    forall k :: k in m ==> m[k].name == k
  }

  ghost function AtNames(m: EnvMap, names: seq<string>): seq<EnvVar>
    requires Elements(names) <= m.Keys
  {
    seq(|names|, i requires 0 <= i < |names| => assert names[i] in Elements(names); m[names[i]])
  }

  /** The merged list: the variables of the last-writer-wins map in the order of their names. */
  ghost function Merge(source: seq<EnvVar>, override: seq<EnvVar>): seq<EnvVar> {
    var m := Parse(source) + Parse(override);
    AtNames(m, Listing(m.Keys))
  }

  lemma {:induction false} ParseWellNamed(envs: seq<EnvVar>)
    ensures WellNamed(Parse(envs))
  {
    if envs != [] {
      ParseWellNamed(envs[..|envs| - 1]);
    }
  }

  lemma {:induction false} ParseAtNames(m: EnvMap, names: seq<string>)
    requires WellNamed(m) && Elements(names) <= m.Keys
    ensures Parse(AtNames(m, names)).Keys == Elements(names)
    ensures forall k :: k in Elements(names) ==> Parse(AtNames(m, names))[k] == m[k]
  {
    if names != [] {
      var init, last := names[..|names| - 1], names[|names| - 1];
      assert Elements(names) == Elements(init) + {last} by {
        assert names == init + [last];
      }
      ParseAtNames(m, init);
      assert AtNames(m, names)[..|names| - 1] == AtNames(m, init);
    }
  }

  /** Unlike arguments, environments always survive the round trip. */
  lemma ParseMerge(source: seq<EnvVar>, override: seq<EnvVar>)
    ensures Parse(Merge(source, override)) == Parse(source) + Parse(override)
  {
    ParseWellNamed(source);
    ParseWellNamed(override);
    var m := Parse(source) + Parse(override);
    ParseAtNames(m, Listing(m.Keys));
  }

  lemma NamesSorted(source: seq<EnvVar>, override: seq<EnvVar>)
    ensures forall i, j :: 0 <= i < j < |Merge(source, override)| ==> Lt(Merge(source, override)[i].name, Merge(source, override)[j].name)
  {
    ParseWellNamed(source);
    ParseWellNamed(override);
    var m := Parse(source) + Parse(override);
    var names := Listing(m.Keys);
    forall i | 0 <= i < |names|
      ensures Merge(source, override)[i].name == names[i]
    {
      assert names[i] in Elements(names);
    }
  }

  lemma MergeIdempotentAndAssociative(a: seq<EnvVar>, b: seq<EnvVar>, c: seq<EnvVar>)
    ensures Merge(Merge(a, b), b) == Merge(a, b)
    ensures Merge(Merge(a, b), c) == Merge(a, Merge(b, c))
  {
    ParseMerge(a, b);
    ParseMerge(b, c);
    ContainerArgs.AddAssociative(Parse(a), Parse(b), Parse(c));
    assert (Parse(a) + Parse(b)) + Parse(b) == Parse(a) + Parse(b);
  }

  lemma EmptyLayer(envs: seq<EnvVar>, layer: seq<EnvVar>)
    ensures layer == [] ==> Parse(envs) + Parse(layer) == Parse(envs)
  {
  }

  lemma NoKeysExactlyEmpty(envs: seq<EnvVar>)
    ensures Parse(envs).Keys <= {} <==> envs == []
  {
    if envs != [] {
      assert envs[|envs| - 1].name in Parse(envs);
    }
  }

  lemma ParseAppend(envs: seq<EnvVar>, extra: EnvVar)
    ensures Parse(envs + [extra]) == Parse(envs)[extra.name := extra]
  {
    assert (envs + [extra])[..|envs + [extra]| - 1] == envs;
  }

  method ParseEnvMap(envMap: EnvMap, envs: seq<EnvVar>) returns (r: EnvMap)
    ensures r == envMap + Parse(envs)
  {
    r := envMap;
    for i := 0 to |envs|
      invariant r == envMap + Parse(envs[..i])
    {
      assert envs[..i + 1][..i] == envs[..i];
      r := r[envs[i].name := envs[i]];
    }
    assert envs[..|envs|] == envs;
  }

  method MergeContainerEnvs(sourceEnvs: seq<EnvVar>, overrideEnvs: seq<EnvVar>) returns (destEnvs: seq<EnvVar>)
    ensures destEnvs == Merge(sourceEnvs, overrideEnvs)
    ensures forall i, j :: 0 <= i < j < |destEnvs| ==> Lt(destEnvs[i].name, destEnvs[j].name)
  {
    NamesSorted(sourceEnvs, overrideEnvs);
    var source := ParseEnvMap(map[], sourceEnvs);
    assert source == Parse(sourceEnvs);
    var dest := ParseEnvMap(source, overrideEnvs);
    destEnvs := SortedEnvs(dest);
  }

  method SortedEnvs(dest: EnvMap) returns (destEnvs: seq<EnvVar>)
    ensures destEnvs == AtNames(dest, Listing(dest.Keys))
  {
    var enumerated := EnumerateKeys(dest);
    var keys := SortStrings(enumerated);
    SortedDistinctIsListing(enumerated, keys);
    destEnvs := CollectEnvs(dest, keys);
  }

  method CollectEnvs(dest: EnvMap, keys: seq<string>) returns (destEnvs: seq<EnvVar>)
    requires Elements(keys) <= dest.Keys
    ensures destEnvs == AtNames(dest, keys)
  {
    assert forall i :: 0 <= i < |keys| ==> keys[i] in Elements(keys);
    destEnvs := [];
    for i := 0 to |keys|
      invariant |destEnvs| == i
      invariant forall j :: 0 <= j < i ==> destEnvs[j] == dest[keys[j]]
    {
      destEnvs := destEnvs + [dest[keys[i]]];
    }
  }

  /** Ranging over a Go map: every key once, in an arbitrary order. */
  method EnumerateKeys<V>(m: map<string, V>) returns (keys: seq<string>)
    ensures Elements(keys) == m.Keys
    ensures Distinct(keys)
  {
    keys := [];
    var remaining := m.Keys;
    while remaining != {}
      invariant remaining <= m.Keys
      invariant Elements(keys) == m.Keys - remaining
      invariant Distinct(keys)
      decreases remaining
    {
      var k :| k in remaining;
      assert Elements(keys + [k]) == Elements(keys) + {k};
      assert k !in Elements(keys);
      keys := keys + [k];
      remaining := remaining - {k};
    }
  }
}
