/** `validateMatchLabelKeysAndMismatchLabelKeys` (pkg/controller/common/core_validation_helpers.go). */
module LabelKeys {
  import opened Outcomes
  import opened Strings

  /** A label selector; of an expression only the key matters here. */
  datatype Selector = Selector(matchLabels: map<string, string>, expressionKeys: seq<string>)

  datatype FieldError =
    | Forbidden
    | InvalidName(key: string)
    | InMatchAndSelector(key: string)
    | InMatchAndMismatch(key: string)

  /** How often a selector mentions a key, over matchLabels and matchExpressions. */
  function Occurrences(labels: set<string>, expressions: seq<string>, key: string): nat {
    multiset(expressions)[key] + if key in labels then 1 else 0
  }

  function Excess(labels: set<string>, expressions: seq<string>, key: string): nat {
    var n := Occurrences(labels, expressions, key);
    if n > 1 then n - 1 else 0
  }

  ghost function Pick(s: set<string>): string
    requires s != {}
  {
    var x :| x in s; x
  }

  /** The sum over distinct keys of the occurrences beyond the first. */
  ghost function TotalExcess(keys: set<string>, labels: set<string>, expressions: seq<string>): nat {
    if keys == {} then 0
    else var k := Pick(keys); Excess(labels, expressions, k) + TotalExcess(keys - {k}, labels, expressions)
  }

  lemma {:induction false} TotalExcessStep(keys: set<string>, labels: set<string>, expressions: seq<string>, e: string)
    ensures TotalExcess(keys, labels, expressions + [e]) ==
            TotalExcess(keys, labels, expressions) + if e in keys && Occurrences(labels, expressions, e) > 0 then 1 else 0
  {
    if keys != {} {
      TotalExcessStep(keys - {Pick(keys)}, labels, expressions, e);
    }
  }

  lemma {:induction false} TotalExcessStart(keys: set<string>, labels: set<string>)
    ensures TotalExcess(keys, labels, []) == 0
  {
    if keys != {} {
      TotalExcessStart(keys - {Pick(keys)}, labels);
    }
  }

  lemma {:induction false} NoExcess(keys: set<string>, labels: set<string>, expressions: seq<string>)
    ensures TotalExcess(keys, labels, expressions) == 0 <==> forall k :: k in keys ==> Occurrences(labels, expressions, k) <= 1
  {
    if keys != {} {
      var x := Pick(keys);
      NoExcess(keys - {x}, labels, expressions);
      assert forall k :: k in keys <==> k == x || k in keys - {x};
    }
  }

  function CountInSelector(errs: seq<FieldError>): nat {
    if errs == [] then 0
    else CountInSelector(errs[..|errs| - 1]) + if errs[|errs| - 1].InMatchAndSelector? then 1 else 0
  }

  lemma {:induction false} CountConcat(a: seq<FieldError>, b: seq<FieldError>)
    ensures CountInSelector(a + b) == CountInSelector(a) + CountInSelector(b)
  {
    if b == [] {
      assert a + b == a;
    } else {
      CountConcat(a, b[..|b| - 1]);
      assert (a + b)[..|a + b| - 1] == a + b[..|b| - 1];
    }
  }

  lemma {:induction false} CountNone(errs: seq<FieldError>)
    requires forall i :: 0 <= i < |errs| ==> !errs[i].InMatchAndSelector?
    ensures CountInSelector(errs) == 0
  {
    if errs != [] {
      CountNone(errs[..|errs| - 1]);
    }
  }

  lemma {:induction false} CountAll(errs: seq<FieldError>)
    requires forall i :: 0 <= i < |errs| ==> errs[i].InMatchAndSelector?
    ensures CountInSelector(errs) == |errs|
  {
    if errs != [] {
      CountAll(errs[..|errs| - 1]);
    }
  }

  /** The keys of one list are valid names, and come with a selector if there are any. */
  ghost predicate KeysAcceptable(keys: seq<string>, hasSelector: bool, nameValid: string -> bool) {
    keys != [] ==> hasSelector && forall i :: 0 <= i < |keys| ==> nameValid(keys[i])
  }

  method ValidateLabelKeys(keys: seq<string>, hasSelector: bool, nameValid: string -> bool) returns (errs: seq<FieldError>)
    ensures errs == [] <==> KeysAcceptable(keys, hasSelector, nameValid)
    ensures forall i :: 0 <= i < |errs| ==>
                          if hasSelector then errs[i].InvalidName? && errs[i].key in keys && !nameValid(errs[i].key) else errs[i] == Forbidden
  {
    if |keys| == 0 {
      return [];
    }
    if !hasSelector {
      return [Forbidden];
    }
    errs := [];
    for i := 0 to |keys|
      invariant errs == [] <==> forall j :: 0 <= j < i ==> nameValid(keys[j])
      invariant forall j :: 0 <= j < |errs| ==> errs[j].InvalidName? && errs[j].key in keys && !nameValid(errs[j].key)
    {
      if !nameValid(keys[i]) {
        errs := errs + [InvalidName(keys[i])];
      }
    }
  }

  /** One more mention of a key counts for that key alone. */
  lemma OccurrencesStep(labels: set<string>, expressions: seq<string>, e: string)
    ensures forall k :: Occurrences(labels, expressions + [e], k) == Occurrences(labels, expressions, k) + if k == e then 1 else 0
  {
  }

  lemma OccurrencesStart(labels: set<string>)
    ensures forall k :: Occurrences(labels, [], k) == if k in labels then 1 else 0
  {
  }

  /** Walks the expressions, with the set of keys seen so far. */
  method ValidateSelector(matchKeys: seq<string>, selector: Selector) returns (errs: seq<FieldError>)
    ensures |errs| == TotalExcess(Elements(matchKeys), selector.matchLabels.Keys, selector.expressionKeys)
    ensures forall i :: 0 <= i < |errs| ==>
                          && errs[i].InMatchAndSelector? && errs[i].key in matchKeys
                          && Occurrences(selector.matchLabels.Keys, selector.expressionKeys, errs[i].key) > 1
  {
    hide Occurrences, TotalExcess;
    errs := [];
    var seen := selector.matchLabels.Keys;
    ghost var labels, expressions := selector.matchLabels.Keys, selector.expressionKeys;
    TotalExcessStart(Elements(matchKeys), labels);
    OccurrencesStart(labels);
    for i := 0 to |selector.expressionKeys|
      invariant |errs| == TotalExcess(Elements(matchKeys), labels, expressions[..i])
      invariant forall j :: 0 <= j < |errs| ==>
                              errs[j].InMatchAndSelector? && errs[j].key in matchKeys && Occurrences(labels, expressions[..i], errs[j].key) > 1
      invariant forall k :: k in seen <==> Occurrences(labels, expressions[..i], k) > 0
    {
      var key := selector.expressionKeys[i];
      assert expressions[..i + 1] == expressions[..i] + [key];
      TotalExcessStep(Elements(matchKeys), labels, expressions[..i], key);
      OccurrencesStep(labels, expressions[..i], key);
      if key in matchKeys && key in seen {
        errs := errs + [InMatchAndSelector(key)];
      }
      seen := seen + {key};
    }
    assert expressions[..|expressions|] == expressions;
  }

  method ValidateDisjoint(matchKeys: seq<string>, mismatchKeys: seq<string>) returns (errs: seq<FieldError>)
    ensures errs == [] <==> Elements(matchKeys) !! Elements(mismatchKeys)
    ensures forall i :: 0 <= i < |errs| ==> errs[i].InMatchAndMismatch? && errs[i].key in matchKeys && errs[i].key in mismatchKeys
  {
    errs := [];
    for i := 0 to |matchKeys|
      invariant errs == [] <==> forall j :: 0 <= j < i ==> matchKeys[j] !in mismatchKeys
      invariant forall j :: 0 <= j < |errs| ==> errs[j].InMatchAndMismatch? && errs[j].key in matchKeys && errs[j].key in mismatchKeys
    {
      if matchKeys[i] in mismatchKeys {
        errs := errs + [InMatchAndMismatch(matchKeys[i])];
      }
    }
    if errs != [] {
      var j :| 0 <= j < |matchKeys| && matchKeys[j] in mismatchKeys;
      assert matchKeys[j] in Elements(matchKeys) * Elements(mismatchKeys);
    }
  }

  /** No match key occurs twice in the selector. */
  ghost predicate SelectorAcceptable(matchKeys: seq<string>, selector: Option<Selector>) {
    selector.Some? ==>
      forall k :: k in Elements(matchKeys) ==> Occurrences(selector.value.matchLabels.Keys, selector.value.expressionKeys, k) <= 1
  }

  lemma SelectorAcceptableMeans(matchKeys: seq<string>, selector: Option<Selector>)
    ensures SelectorAcceptable(matchKeys, selector) <==>
            (selector.Some? ==>
               forall k :: k in matchKeys ==>
                             multiset(selector.value.expressionKeys)[k] + (if k in selector.value.matchLabels then 1 else 0) <= 1)
  {
    assert forall k :: k in Elements(matchKeys) <==> k in matchKeys;
  }

  lemma SelectorAcceptableExactly(matchKeys: seq<string>, selector: Selector)
    ensures TotalExcess(Elements(matchKeys), selector.matchLabels.Keys, selector.expressionKeys) == 0 <==> SelectorAcceptable(matchKeys, Some(selector))
  {
    NoExcess(Elements(matchKeys), selector.matchLabels.Keys, selector.expressionKeys);
  }

  /**
   No error exactly when names are valid, keys come with a selector, match and mismatch keys
   are disjoint and no match key is mentioned twice; and one duplicate error for every
   mention of a match key beyond its first.
   */
  method ValidateMatchAndMismatchLabelKeys(matchKeys: seq<string>, mismatchKeys: seq<string>, selector: Option<Selector>, nameValid: string -> bool)
    returns (errs: seq<FieldError>)
    ensures errs == [] <==>
            && (forall i :: 0 <= i < |matchKeys| ==> nameValid(matchKeys[i]))
            && (forall i :: 0 <= i < |mismatchKeys| ==> nameValid(mismatchKeys[i]))
            && (selector.None? ==> matchKeys == [] && mismatchKeys == [])
            && (selector.Some? ==>
                  forall k :: k in matchKeys ==>
                                multiset(selector.value.expressionKeys)[k] + (if k in selector.value.matchLabels then 1 else 0) <= 1)
            && Elements(matchKeys) !! Elements(mismatchKeys)
    ensures CountInSelector(errs) ==
            if selector.None? then 0
            else TotalExcess(Elements(matchKeys), selector.value.matchLabels.Keys, selector.value.expressionKeys)
  {
    SelectorAcceptableMeans(matchKeys, selector);
    hide SelectorAcceptable;
    var matchErrs := ValidateLabelKeys(matchKeys, selector.Some?, nameValid);
    var mismatchErrs := ValidateLabelKeys(mismatchKeys, selector.Some?, nameValid);
    errs := matchErrs + mismatchErrs;
    CountNone(errs);
    if selector.Some? {
      var duplicates := ValidateSelector(matchKeys, selector.value);
      SelectorAcceptableExactly(matchKeys, selector.value);
      CountConcat(errs, duplicates);
      CountAll(duplicates);
      errs := errs + duplicates;
    }
    var overlaps := ValidateDisjoint(matchKeys, mismatchKeys);
    CountConcat(errs, overlaps);
    CountNone(overlaps);
    errs := errs + overlaps;
  }
}
