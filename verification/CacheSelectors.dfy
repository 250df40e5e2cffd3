/**
 The unified cache of pkg/operator/setup_manager.go: every controller registers the types it
 manages under its own value of the app label, and types shared by several controllers get
 one entry whose selector accepts all their values.
 */
module CacheSelectors {
  import opened Outcomes

  /** An object pointer used as a map key: its identity and its Go type. */
  datatype Pointer = Pointer(identity: nat, goType: string)

  datatype Entry = Unfiltered | AppLabelIn(values: set<string>)

  type ObjectList = map<Pointer, Entry>

  /** What a controller registers; `custom` is its own resource, cached without a filter. */
  datatype Registration = Registration(value: string, resources: seq<Pointer>, custom: Pointer)

  /** The label values registered for a type. */
  function Registered(registrations: seq<Registration>, goType: string): set<string> {
    set i | 0 <= i < |registrations| && (exists j :: 0 <= j < |registrations[i].resources| && registrations[i].resources[j].goType == goType)
      :: registrations[i].value
  }

  /** The selector of an entry on an object's app label; `None` when the object has no such label. */
  predicate Selects(entry: Entry, app: Option<string>) {
    entry.AppLabelIn? ==> app.Some? && app.value in entry.values
  }

  ghost predicate Present(list: ObjectList, goType: string) {
    exists k :: k in list && k.goType == goType
  }

  /** One filtered entry per registered type, with exactly the registered values. */
  ghost predicate Represents(list: ObjectList, values: map<string, set<string>>) {
    && (forall k :: k in list && list[k].AppLabelIn? ==> k.goType in values && list[k].values == values[k.goType])
    && (forall t :: t in values ==> Present(list, t))
    && (forall k, l :: k in list && l in list && k.goType in values && k.goType == l.goType ==> k == l)
    && (forall k :: k in list && k.goType in values ==> list[k].AppLabelIn?)
  }

  function WithValue(values: map<string, set<string>>, goType: string, value: string): map<string, set<string>> {
    values[goType := (if goType in values then values[goType] else {}) + {value}]
  }

  /** Looks an entry up by type in an arbitrary order: pointers of one type differ. */
  method FindExistingCacheEntry(list: ObjectList, target: Pointer) returns (r: Option<Pointer>)
    ensures r.Some? ==> r.value in list && r.value.goType == target.goType
    ensures r.None? ==> !Present(list, target.goType)
  {
    var remaining := list.Keys;
    while remaining != {}
      invariant remaining <= list.Keys
      invariant forall k :: k in list && k !in remaining ==> k.goType != target.goType
      decreases remaining
    {
      var k :| k in remaining;
      if k.goType == target.goType {
        return Some(k);
      }
      remaining := remaining - {k};
    }
    return None;
  }

  ghost function Add(values: map<string, set<string>>, value: string, resources: seq<Pointer>): map<string, set<string>> {
    if resources == [] then values
    else WithValue(Add(values, value, resources[..|resources| - 1]), resources[|resources| - 1].goType, value)
  }

  /** No unfiltered entry has a type that is about to be managed. */
  ghost predicate Manageable(list: ObjectList, resources: seq<Pointer>) {
    forall k, i :: k in list && list[k].Unfiltered? && 0 <= i < |resources| ==> resources[i].goType != k.goType
  }

  ghost predicate AllValid(list: ObjectList, valueValid: string -> bool) {
    forall k, v :: k in list && list[k].AppLabelIn? && v in list[k].values ==> valueValid(v)
  }

  /** Merges the value into the entry of the type, or makes the first entry. */
  method AddResource(list: ObjectList, value: string, resource: Pointer, valueValid: string -> bool,
                     ghost values: map<string, set<string>>)
    returns (r: Result<ObjectList, string>)
    requires Represents(list, values)
    requires forall k :: k in list && list[k].Unfiltered? ==> resource.goType != k.goType
    ensures r.Ok? ==> Represents(r.value, WithValue(values, resource.goType, value))
    ensures r.Ok? ==> forall k :: k in r.value && r.value[k].Unfiltered? ==> k in list && list[k].Unfiltered?
    ensures r.Ok? ==> forall k :: k in list && list[k].Unfiltered? ==> k in r.value && r.value[k].Unfiltered?
    ensures AllValid(list, valueValid) ==> (r.Ok? <==> valueValid(value)) && (r.Ok? ==> AllValid(r.value, valueValid))
  {
    var found := FindExistingCacheEntry(list, resource);
    if found.None? {
      if !valueValid(value) {
        return Err("failed to create label requirement");
      }
      r := Ok(list[resource := AppLabelIn({value})]);
      MergedRepresents(list, values, resource, {value}, value);
    } else {
      assert list[found.value].AppLabelIn?;
      var merged := list[found.value].values + {value};
      if exists v :: v in merged && !valueValid(v) {
        return Err("failed to create merged label requirement");
      }
      r := Ok(list[found.value := AppLabelIn(merged)]);
      MergedRepresents(list, values, found.value, merged, value);
    }
  }

  lemma MergedRepresents(list: ObjectList, values: map<string, set<string>>, k: Pointer, merged: set<string>, value: string)
    requires Represents(list, values)
    requires if k in list then list[k].AppLabelIn? && merged == list[k].values + {value}
             else !Present(list, k.goType) && merged == {value}
    ensures Represents(list[k := AppLabelIn(merged)], WithValue(values, k.goType, value))
  {
    hide Present;
    var after, updated := list[k := AppLabelIn(merged)], WithValue(values, k.goType, value);
    MergedPresent(list, after, values, k);
    AtMostOneOfType(list, values, k);
    assert updated[k.goType] == merged;
  }

  lemma MergedPresent(list: ObjectList, after: ObjectList, values: map<string, set<string>>, k: Pointer)
    requires Represents(list, values) && k in after && list.Keys <= after.Keys
    ensures Present(after, k.goType) && forall t :: t in values ==> Present(after, t)
  {
    forall t | t in values
      ensures Present(after, t)
    {
      var l :| l in list && l.goType == t;
      assert l in after;
    }
  }

  lemma AtMostOneOfType(list: ObjectList, values: map<string, set<string>>, k: Pointer)
    requires Represents(list, values) && if k in list then list[k].AppLabelIn? else !Present(list, k.goType)
    ensures forall l :: l in list && l.goType == k.goType ==> l == k
    ensures k in list <==> k.goType in values
  {
  }

  method AddControllerCacheConfig(list: ObjectList, value: string, resources: seq<Pointer>, valueValid: string -> bool,
                                  ghost values: map<string, set<string>>)
    returns (r: Result<ObjectList, string>)
    requires Represents(list, values) && Manageable(list, resources)
    ensures r.Ok? ==> Represents(r.value, Add(values, value, resources))
    ensures r.Ok? ==> forall k :: k in r.value && r.value[k].Unfiltered? ==> k in list && list[k].Unfiltered?
    ensures r.Ok? ==> forall k :: k in list && list[k].Unfiltered? ==> k in r.value && r.value[k].Unfiltered?
    ensures AllValid(list, valueValid) ==>
              (r.Ok? <==> resources == [] || valueValid(value)) && (r.Ok? ==> AllValid(r.value, valueValid))
  {
    var current := list;
    for i := 0 to |resources|
      invariant Represents(current, Add(values, value, resources[..i]))
      invariant forall k :: k in current && current[k].Unfiltered? ==> k in list && list[k].Unfiltered?
      invariant forall k :: k in list && list[k].Unfiltered? ==> k in current && current[k].Unfiltered?
      invariant AllValid(list, valueValid) ==> AllValid(current, valueValid) && (i > 0 ==> valueValid(value))
    {
      assert resources[..i + 1][..i] == resources[..i];
      var added := AddResource(current, value, resources[i], valueValid, Add(values, value, resources[..i]));
      if added.Err? {
        return added;
      }
      current := added.value;
    }
    assert resources[..|resources|] == resources;
    return Ok(current);
  }

  // ----- Any sequence of registrations -----

  ghost function AllValues(registrations: seq<Registration>): map<string, set<string>> {
    if registrations == [] then map[]
    else
      var last := registrations[|registrations| - 1];
      Add(AllValues(registrations[..|registrations| - 1]), last.value, last.resources)
  }

  lemma {:induction false} AddPoint(values: map<string, set<string>>, value: string, resources: seq<Pointer>, goType: string)
    ensures var added := Add(values, value, resources); var here := exists j :: 0 <= j < |resources| && resources[j].goType == goType;
            && (goType in added <==> goType in values || here)
            && (goType in added ==> added[goType] == (if goType in values then values[goType] else {}) + (if here then {value} else {}))
  {
    if resources != [] {
      var init := resources[..|resources| - 1];
      AddPoint(values, value, init, goType);
      assert forall j :: 0 <= j < |init| ==> init[j] == resources[j];
      assert (exists j :: 0 <= j < |resources| && resources[j].goType == goType)
             <==> (exists j :: 0 <= j < |init| && init[j].goType == goType) || resources[|resources| - 1].goType == goType;
    }
  }

  lemma {:induction false} AllValuesAreRegistered(registrations: seq<Registration>, goType: string)
    ensures goType in AllValues(registrations) <==> Registered(registrations, goType) != {}
    ensures goType in AllValues(registrations) ==> AllValues(registrations)[goType] == Registered(registrations, goType)
  {
    if registrations != [] {
      var init, last := registrations[..|registrations| - 1], registrations[|registrations| - 1];
      AllValuesAreRegistered(init, goType);
      AddPoint(AllValues(init), last.value, last.resources, goType);
      RegisteredStep(registrations, goType);
    }
  }

  lemma RegisteredStep(registrations: seq<Registration>, goType: string)
    requires registrations != []
    ensures var init, last := registrations[..|registrations| - 1], registrations[|registrations| - 1];
            Registered(registrations, goType) == Registered(init, goType) +
            if exists j :: 0 <= j < |last.resources| && last.resources[j].goType == goType then {last.value} else {}
  {
    var init, last := registrations[..|registrations| - 1], registrations[|registrations| - 1];
    assert forall i :: 0 <= i < |init| ==> init[i] == registrations[i];
    forall v | v in Registered(init, goType)
      ensures v in Registered(registrations, goType)
    {
      var i :| 0 <= i < |init| && (exists j :: 0 <= j < |init[i].resources| && init[i].resources[j].goType == goType) && init[i].value == v;
      assert registrations[i].value == v;
    }
  }

  /** Custom resources are never among the managed types. */
  ghost predicate CustomsApart(registrations: seq<Registration>) {
    forall i, j, k :: 0 <= i < |registrations| && 0 <= j < |registrations| && 0 <= k < |registrations[j].resources| ==>
                        registrations[i].custom.goType != registrations[j].resources[k].goType
  }

  /**
   The cache map after any sequence of registrations: a managed type has at most one entry,
   and it accepts an object exactly when its app label is a value registered for the type.
   */
  ghost predicate Exact(list: ObjectList, registrations: seq<Registration>) {
    forall k :: k in list && Registered(registrations, k.goType) != {} ==>
                  && (forall l :: l in list && l.goType == k.goType ==> l == k)
                  && (forall app :: Selects(list[k], app) <==> app.Some? && app.value in Registered(registrations, k.goType))
  }

  method BuildCacheObjectList(registrations: seq<Registration>, valueValid: string -> bool) returns (r: Result<ObjectList, string>)
    requires CustomsApart(registrations)
    ensures r.Ok? ==> Exact(r.value, registrations)
    ensures r.Ok? ==> forall t :: Registered(registrations, t) != {} ==> Present(r.value, t)
    ensures r.Ok? <==> forall i :: 0 <= i < |registrations| ==> registrations[i].resources == [] || valueValid(registrations[i].value)
    ensures r.Ok? ==> CustomsPresent(r.value, registrations, |registrations|)
  {
    hide CustomsPresent, AllValid, Represents, Present, CustomOnly, CustomsApart, Manageable, Exact, Registered, Add;
    var list: ObjectList := map[];
    StartsEmpty(registrations, valueValid);
    for i := 0 to |registrations|
      invariant Represents(list, AllValues(registrations[..i]))
      invariant CustomOnly(list, registrations, i)
      invariant CustomsPresent(list, registrations, i)
      invariant AllValid(list, valueValid)
      invariant forall j :: 0 <= j < i ==> registrations[j].resources == [] || valueValid(registrations[j].value)
    {
      var registration := registrations[i];
      CustomsManageable(list, registrations, i);
      var added := AddControllerCacheConfig(list, registration.value, registration.resources, valueValid, AllValues(registrations[..i]));
      if added.Err? {
        return added;
      }
      assert registrations[..i + 1][..i] == registrations[..i];
      CustomNotManaged(registrations, i + 1, i);
      CustomRepresents(added.value, AllValues(registrations[..i + 1]), registration.custom);
      CustomOnlyStep(list, added.value, registrations, i);
      CustomsPresentStep(list, added.value, registrations, i);
      UnfilteredValid(added.value, registration.custom, valueValid);
      list := added.value[registration.custom := Unfiltered];
    }
    assert registrations[..|registrations|] == registrations;
    RepresentsIsExact(list, registrations);
    return Ok(list);
  }

  lemma StartsEmpty(registrations: seq<Registration>, valueValid: string -> bool)
    ensures Represents(map[], AllValues(registrations[..0])) && CustomOnly(map[], registrations, 0) && AllValid(map[], valueValid)
    ensures CustomsPresent(map[], registrations, 0)
  {
    assert registrations[..0] == [];
  }

  lemma UnfilteredValid(list: ObjectList, custom: Pointer, valueValid: string -> bool)
    requires AllValid(list, valueValid)
    ensures AllValid(list[custom := Unfiltered], valueValid)
  {
  }

  /** The unfiltered entries are custom resources of earlier registrations. */
  ghost predicate CustomOnly(list: ObjectList, registrations: seq<Registration>, n: nat) {
    forall k :: k in list && list[k].Unfiltered? ==> exists j :: 0 <= j < n && j < |registrations| && registrations[j].custom == k
  }

  /** Every registered custom resource has an entry without a filter. */
  ghost predicate CustomsPresent(list: ObjectList, registrations: seq<Registration>, n: nat) {
    forall j :: 0 <= j < n && j < |registrations| ==> registrations[j].custom in list && list[registrations[j].custom] == Unfiltered
  }

  lemma CustomsPresentStep(list: ObjectList, added: ObjectList, registrations: seq<Registration>, i: nat)
    requires i < |registrations| && CustomsPresent(list, registrations, i)
    requires forall k :: k in list && list[k].Unfiltered? ==> k in added && added[k].Unfiltered?
    ensures CustomsPresent(added[registrations[i].custom := Unfiltered], registrations, i + 1)
  {
  }

  lemma CustomOnlyStep(list: ObjectList, added: ObjectList, registrations: seq<Registration>, i: nat)
    requires i < |registrations| && CustomOnly(list, registrations, i)
    requires forall k :: k in added && added[k].Unfiltered? ==> k in list && list[k].Unfiltered?
    ensures CustomOnly(added[registrations[i].custom := Unfiltered], registrations, i + 1)
  {
  }

  lemma CustomsManageable(list: ObjectList, registrations: seq<Registration>, i: nat)
    requires CustomsApart(registrations) && i < |registrations| && CustomOnly(list, registrations, i)
    ensures Manageable(list, registrations[i].resources)
  {
  }

  lemma CustomRepresents(list: ObjectList, values: map<string, set<string>>, custom: Pointer)
    requires Represents(list, values) && custom.goType !in values
    ensures Represents(list[custom := Unfiltered], values)
  {
    forall t | t in values
      ensures Present(list[custom := Unfiltered], t)
    {
      var k :| k in list && k.goType == t;
      assert k in list[custom := Unfiltered];
    }
  }

  lemma CustomNotManaged(registrations: seq<Registration>, n: nat, i: nat)
    requires CustomsApart(registrations) && i < n <= |registrations|
    ensures registrations[i].custom.goType !in AllValues(registrations[..n])
  {
    AllValuesAreRegistered(registrations[..n], registrations[i].custom.goType);
  }

  lemma RepresentsIsExact(list: ObjectList, registrations: seq<Registration>)
    requires Represents(list, AllValues(registrations))
    ensures Exact(list, registrations)
    ensures forall t :: Registered(registrations, t) != {} ==> Present(list, t)
  {
    forall t: string
      ensures t in AllValues(registrations) <==> Registered(registrations, t) != {}
      ensures t in AllValues(registrations) ==> AllValues(registrations)[t] == Registered(registrations, t)
    {
      AllValuesAreRegistered(registrations, t);
    }
    forall k, app | k in list && Registered(registrations, k.goType) != {}
      ensures Selects(list[k], app) <==> app.Some? && app.value in Registered(registrations, k.goType)
    {
      assert list[k].AppLabelIn?;
    }
  }
}
