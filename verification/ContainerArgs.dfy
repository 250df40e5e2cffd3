/**
 The argument algebra of pkg/controller/common/container_args.go: parsing `key[=value]`
 arguments into a map, printing the map back as a sorted list, and stripping keys.

 The specification side is `Parse`, `Print` and `Merge`; the methods follow the source's
 loops, including its iteration over a Go map in an unspecified order.
 */
module ContainerArgs {
  import opened Strings

  type ArgMap = map<string, string>

  function Key(arg: string): string {
    Before(arg, '=')
  }

  function Value(arg: string): string {
    After(arg, '=')
  }

  /** What one argument contributes: the empty argument contributes nothing. */
  function Entry(arg: string): ArgMap {
    if arg == "" then map[] else map[Key(arg) := Value(arg)]
  }

  /** The last-writer-wins map of an argument list. */
  function Parse(args: seq<string>): ArgMap {
    if args == [] then map[] else Parse(args[..|args| - 1]) + Entry(args[|args| - 1])
  }

  function Print(key: string, value: string): string {
    if |value| > 0 then key + "=" + value else key
  }

  ghost function PrintedAt(m: ArgMap, keys: set<string>): set<string>
    requires keys <= m.Keys
  {
    set k | k in keys :: Print(k, m[k])
  }

  ghost function Printed(m: ArgMap): set<string> {
    PrintedAt(m, m.Keys)
  }

  /** Maps whose keys could have come from parsing. */
  ghost predicate WellKeyed(m: ArgMap) {
    forall k :: k in m ==> '=' !in k
  }

  /** The merged list: the one sorted listing of the last-writer-wins map. */
  ghost function Merge(source: seq<string>, override: seq<string>): seq<string> {
    Listing(Printed(Parse(source) + Parse(override)))
  }

  /**
   The pair ("", "") is the only one that does not survive printing: it prints as the
   empty argument, which parsing skips. It comes from the argument "=".
   */
  predicate Vanishing(m: ArgMap) {
    "" in m && m[""] == ""
  }

  function Surviving(m: ArgMap): ArgMap {
    if Vanishing(m) then m - {""} else m
  }

  // ----- Overriding maps -----

  lemma AddAssociative<K, V>(a: map<K, V>, b: map<K, V>, c: map<K, V>)
    ensures (a + b) + c == a + (b + c)
  {
  }

  lemma RemoveDistributes<K, V>(a: map<K, V>, b: map<K, V>, keys: set<K>)
    ensures (a + b) - keys == (a - keys) + (b - keys)
  {
  }

  // ----- Parsing -----

  lemma {:induction false} ParseConcat(a: seq<string>, b: seq<string>)
    ensures Parse(a + b) == Parse(a) + Parse(b)
  {
    if b == [] {
      assert a + b == a;
    } else {
      var init := b[..|b| - 1];
      ParseConcat(a, init);
      assert (a + b)[..|a + b| - 1] == a + init;
      AddAssociative(Parse(a), Parse(init), Entry(b[|b| - 1]));
    }
  }

  lemma {:induction false} ParseWellKeyed(args: seq<string>)
    ensures WellKeyed(Parse(args))
  {
    if args != [] {
      ParseWellKeyed(args[..|args| - 1]);
      BeforeHasNone(args[|args| - 1], '=');
    }
  }

  /** Every parsed pair was written by some argument, and every non-empty argument has its key parsed. */
  lemma {:induction false} ParsePoints(args: seq<string>)
    ensures forall k :: k in Parse(args) ==> exists i :: 0 <= i < |args| && Writes(args[i], k, Parse(args)[k])
    ensures forall i :: 0 <= i < |args| && args[i] != "" ==> Key(args[i]) in Parse(args)
  {
    if args != [] {
      var init := args[..|args| - 1];
      ParsePoints(init);
      forall k | k in Parse(args)
        ensures exists i :: 0 <= i < |args| && Writes(args[i], k, Parse(args)[k])
      {
        if k in Entry(args[|args| - 1]) {
          assert Writes(args[|args| - 1], k, Parse(args)[k]);
        } else {
          assert k in Parse(init) && Parse(init)[k] == Parse(args)[k];
          var i :| 0 <= i < |init| && Writes(init[i], k, Parse(init)[k]);
          assert Writes(args[i], k, Parse(args)[k]);
        }
      }
      forall i | 0 <= i < |args| && args[i] != ""
        ensures Key(args[i]) in Parse(args)
      {
        if i < |init| {
          assert init[i] == args[i];
        }
      }
    }
  }

  ghost predicate Writes(arg: string, key: string, value: string) {
    arg != "" && Key(arg) == key && Value(arg) == value
  }

  // ----- Printing -----

  lemma PrintParses(key: string, value: string)
    requires '=' !in key
    ensures Key(Print(key, value)) == key && Value(Print(key, value)) == value
    ensures Print(key, value) == "" <==> key == "" && value == ""
  {
    BeforeAppend(key, '=', value);
  }

  /** Printing is injective, so no two entries of a map collapse into one argument. */
  lemma PrintedDeterminesMap(m: ArgMap, n: ArgMap)
    requires WellKeyed(m) && WellKeyed(n)
    ensures Printed(m) == Printed(n) <==> m == n
  {
    if Printed(m) == Printed(n) {
      PrintedIncluded(m, n);
      PrintedIncluded(n, m);
    }
  }

  lemma PrintedIncluded(m: ArgMap, n: ArgMap)
    requires WellKeyed(m) && WellKeyed(n) && Printed(m) <= Printed(n)
    ensures forall k :: k in m ==> k in n && n[k] == m[k]
  {
    forall k | k in m
      ensures k in n && n[k] == m[k]
    {
      assert Print(k, m[k]) in Printed(n);
      var k' :| k' in n && Print(k', n[k']) == Print(k, m[k]);
      PrintParses(k, m[k]);
      PrintParses(k', n[k']);
    }
  }

  /** Re-parsing any listing of a printed map gives the map back, but for the vanishing pair. */
  lemma ParsePrinted(args: seq<string>, m: ArgMap)
    requires WellKeyed(m) && Elements(args) == Printed(m)
    ensures Parse(args) == Surviving(m)
  {
    ParsePoints(args);
    var p, s := Parse(args), Surviving(m);
    forall k | k in p
      ensures k in s && s[k] == p[k]
    {
      var i :| 0 <= i < |args| && Writes(args[i], k, p[k]);
      assert args[i] in Elements(args);
      var k' :| k' in m && args[i] == Print(k', m[k']);
      PrintParses(k', m[k']);
    }
    forall k | k in s
      ensures k in p
    {
      PrintParses(k, m[k]);
      assert Print(k, m[k]) in Elements(args);
      var i :| 0 <= i < |args| && args[i] == Print(k, m[k]);
    }
  }

  // ----- Laws of merging -----

  lemma MergeWellKeyed(source: seq<string>, override: seq<string>)
    ensures WellKeyed(Parse(source) + Parse(override))
  {
    ParseWellKeyed(source);
    ParseWellKeyed(override);
  }

  /** The list `MergeContainerArgs` returns parses back to the override of the two maps, values containing '=' included. */
  lemma ParseMerge(source: seq<string>, override: seq<string>)
    ensures Parse(Merge(source, override)) == Surviving(Parse(source) + Parse(override))
  {
    MergeWellKeyed(source, override);
    ParsePrinted(Merge(source, override), Parse(source) + Parse(override));
  }

  /** Two merges give the same list exactly when the merged maps agree. */
  lemma MergeEqual(a: seq<string>, b: seq<string>, c: seq<string>, d: seq<string>)
    ensures Merge(a, b) == Merge(c, d) <==> Parse(a) + Parse(b) == Parse(c) + Parse(d)
  {
    MergeWellKeyed(a, b);
    MergeWellKeyed(c, d);
    PrintedDeterminesMap(Parse(a) + Parse(b), Parse(c) + Parse(d));
    assert Elements(Merge(a, b)) == Printed(Parse(a) + Parse(b));
    assert Elements(Merge(c, d)) == Printed(Parse(c) + Parse(d));
  }

  /** Merging the same override again changes nothing, except that a vanishing pair of the source is dropped. */
  lemma MergeIdempotent(a: seq<string>, b: seq<string>)
    ensures Merge(Merge(a, b), b) == Merge(a, b) <==> !(Vanishing(Parse(a)) && "" !in Parse(b))
  {
    ParseMerge(a, b);
    MergeEqual(Merge(a, b), b, a, b);
    var whole := Parse(a) + Parse(b);
    assert Surviving(whole) + Parse(b) == whole <==> !(Vanishing(whole) && "" !in Parse(b)) by {
      if Vanishing(whole) && "" !in Parse(b) {
        assert "" in whole && "" !in Surviving(whole) + Parse(b);
      }
    }
  }

  /** What key "" ends as when merging to the left and to the right; all other keys always agree. */
  ghost predicate AssociativeAtEmptyKey(a: ArgMap, b: ArgMap, c: ArgMap) {
    if "" in c then c[""] != "" || Vanishing(a)
    else if "" in b then b[""] != "" || "" !in a
    else !Vanishing(a)
  }

  /** Merging is associative exactly when the vanishing pair does not interfere. */
  lemma MergeAssociative(a: seq<string>, b: seq<string>, c: seq<string>)
    ensures Merge(Merge(a, b), c) == Merge(a, Merge(b, c))
            <==> AssociativeAtEmptyKey(Parse(a), Parse(b), Parse(c))
  {
    ParseMerge(a, b);
    ParseMerge(b, c);
    MergeEqual(Merge(a, b), c, a, Merge(b, c));
    AssociativeMaps(Parse(a), Parse(b), Parse(c));
  }

  lemma AssociativeMaps(a: ArgMap, b: ArgMap, c: ArgMap)
    ensures Surviving(a + b) + c == a + Surviving(b + c) <==> AssociativeAtEmptyKey(a, b, c)
  {
    var ab, bc := Surviving(a + b), Surviving(b + c);
    AgreeOffKey(a, b, c, ab, bc, "");
    EqualAtKey(ab + c, a + bc, "");
  }

  lemma AgreeOffKey<K, V>(a: map<K, V>, b: map<K, V>, c: map<K, V>, ab: map<K, V>, bc: map<K, V>, e: K)
    requires ab == a + b || ab == (a + b) - {e}
    requires bc == b + c || bc == (b + c) - {e}
    ensures (ab + c) - {e} == (a + bc) - {e}
  {
  }

  lemma EqualAtKey<K, V>(m: map<K, V>, n: map<K, V>, e: K)
    requires m - {e} == n - {e}
    ensures m == n <==> (e in m <==> e in n) && (e in m ==> m[e] == n[e])
  {
    if (e in m <==> e in n) && (e in m ==> e in n && m[e] == n[e]) {
      assert forall k :: k in m && k != e ==> k in m - {e};
      assert forall k :: k in n && k != e ==> k in n - {e};
      assert forall k :: k in m && k != e ==> k in n && m[k] == (m - {e})[k] == (n - {e})[k] == n[k];
      assert m.Keys == n.Keys;
    }
  }

  /** Without the argument "=" no pair vanishes, and merging is a plain override of maps. */
  lemma {:induction false} NoBareSeparator(args: seq<string>)
    requires "=" !in args
    ensures !Vanishing(Parse(args))
  {
    ParsePoints(args);
    forall i | 0 <= i < |args|
      ensures !Writes(args[i], "", "")
    {
      OnlySeparatorVanishes(args[i]);
      assert args[i] in args;
    }
  }

  lemma OnlySeparatorVanishes(arg: string)
    ensures Writes(arg, "", "") <==> arg == "="
  {
    if arg != "" {
      assert arg == [arg[0]] + arg[1..];
      assert arg[0] != '=' ==> Before(arg, '=')[0] == arg[0];
    }
  }

  // ----- Stripping -----

  function Strip(args: seq<string>, keys: set<string>): seq<string> {
    if args == [] then []
    else
      var init := Strip(args[..|args| - 1], keys);
      if Key(args[|args| - 1]) in keys then init else init + [args[|args| - 1]]
  }

  /** Stripping a list is removing the keys from its map, whatever duplicates the list has. */
  lemma {:induction false} ParseStrip(args: seq<string>, keys: set<string>)
    ensures Parse(Strip(args, keys)) == Parse(args) - keys
  {
    if args != [] {
      var init, last := args[..|args| - 1], args[|args| - 1];
      ParseStrip(init, keys);
      RemoveDistributes(Parse(init), Entry(last), keys);
      if Key(last) in keys {
        assert Entry(last) - keys == map[];
      } else {
        assert Entry(last) - keys == Entry(last);
        var stripped := Strip(init, keys);
        assert (stripped + [last])[..|stripped + [last]| - 1] == stripped;
      }
    }
  }

  // ----- The methods -----

  method ParseArgMap(argMap: ArgMap, args: seq<string>) returns (r: ArgMap)
    ensures r == argMap + Parse(args)
  {
    r := argMap;
    for i := 0 to |args|
      invariant r == argMap + Parse(args[..i])
    {
      var arg := args[i];
      var splitted := Split(arg, '=');
      ParseStep(argMap, r, args, i);
      if |splitted| > 0 && arg != "" {
        SplitCutsOnce(arg, '=');
        r := r[splitted[0] := Join(splitted[1..], "=")];
      }
    }
    assert args[..|args|] == args;
  }

  lemma ParseStep(argMap: ArgMap, r: ArgMap, args: seq<string>, i: nat)
    requires i < |args| && r == argMap + Parse(args[..i])
    ensures argMap + Parse(args[..i + 1]) == r + Entry(args[i])
    ensures args[i] != "" ==> r + Entry(args[i]) == r[Key(args[i]) := Value(args[i])]
    ensures args[i] == "" ==> r + Entry(args[i]) == r
  {
    assert args[..i + 1][..i] == args[..i];
    AddAssociative(argMap, Parse(args[..i]), Entry(args[i]));
  }

  method MergeContainerArgs(sourceArgs: seq<string>, overrideArgs: seq<string>) returns (r: seq<string>)
    ensures r == Merge(sourceArgs, overrideArgs)
    ensures StrictlySorted(r)
  {
    var dest := ParseArgMap(map[], sourceArgs);
    dest := ParseArgMap(dest, overrideArgs);
    assert dest == Parse(sourceArgs) + Parse(overrideArgs);
    MergeWellKeyed(sourceArgs, overrideArgs);
    var destArgs := PrintArgMap(dest);
    r := SortStrings(destArgs);
    SortedDistinctIsListing(destArgs, r);
  }

  /** The loop draws the entries of the map in an arbitrary order, as ranging over a Go map does. */
  method PrintArgMap(dest: ArgMap) returns (destArgs: seq<string>)
    requires WellKeyed(dest)
    ensures Elements(destArgs) == Printed(dest)
    ensures Distinct(destArgs)
  {
    destArgs := [];
    var remaining := dest.Keys;
    ghost var done: set<string> := {};
    while remaining != {}
      invariant remaining == dest.Keys - done && done <= dest.Keys
      invariant Elements(destArgs) == PrintedAt(dest, done)
      invariant Distinct(destArgs)
      decreases remaining
    {
      var key :| key in remaining;
      PrintOneMore(dest, done, key, destArgs);
      destArgs := destArgs + [Print(key, dest[key])];
      remaining, done := remaining - {key}, done + {key};
    }
    assert done == dest.Keys;
  }

  lemma PrintOneMore(dest: ArgMap, done: set<string>, key: string, destArgs: seq<string>)
    requires WellKeyed(dest) && done <= dest.Keys && key in dest && key !in done
    requires Elements(destArgs) == PrintedAt(dest, done)
    requires Distinct(destArgs)
    ensures Elements(destArgs + [Print(key, dest[key])]) == PrintedAt(dest, done + {key})
    ensures Distinct(destArgs + [Print(key, dest[key])])
  {
    var arg := Print(key, dest[key]);
    if arg in Elements(destArgs) {
      var k :| k in done && Print(k, dest[k]) == arg;
      PrintParses(k, dest[k]);
      PrintParses(key, dest[key]);
    }
    assert Elements(destArgs + [arg]) == Elements(destArgs) + {arg};
    assert PrintedAt(dest, done + {key}) == PrintedAt(dest, done) + {arg};
  }

  method StripArgsByKeys(args: seq<string>, keys: set<string>) returns (out: seq<string>)
    ensures out == Strip(args, keys)
  {
    if |keys| == 0 {
      StripNothing(args);
      return args;
    }
    out := [];
    for i := 0 to |args|
      invariant out == Strip(args[..i], keys)
    {
      SplitCutsOnce(args[i], '=');
      assert args[..i + 1][..i] == args[..i];
      if Split(args[i], '=')[0] !in keys {
        out := out + [args[i]];
      }
    }
    assert args[..|args|] == args;
  }

  lemma {:induction false} StripNothing(args: seq<string>)
    ensures Strip(args, {}) == args
  {
    if args != [] {
      StripNothing(args[..|args| - 1]);
    }
  }

  method ArgKeysSet(keys: seq<string>) returns (m: set<string>)
    ensures m == Elements(keys)
  {
    m := {};
    for i := 0 to |keys|
      invariant m == Elements(keys[..i])
    {
      m := m + {keys[i]};
      assert keys[..i + 1] == keys[..i] + [keys[i]];
    }
    assert keys[..|keys|] == keys;
  }
}
