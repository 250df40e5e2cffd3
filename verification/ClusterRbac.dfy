/**
 The cluster-scoped RBAC protocol of the IstioCSR controller
 (pkg/controller/istiocsr/rbacs.go): a ClusterRole and a ClusterRoleBinding with
 server-generated names, recorded in the IstioCSR status, found again by label when the
 status write was lost, and with an immutable role reference that forces delete and create.

 `Cluster` is the API server together with the persisted status. Every call may fail, with
 or without having taken effect, and other writers act between any two calls unless a pass
 is `quiet`. `history` records every state the cluster goes through, so that safety is a
 statement about all of them.
 */
module ClusterRbac {
  import opened Outcomes

  type Labels = map<string, string>

  datatype Resource<+S> = Resource(labels: Labels, spec: S)

  datatype Rule = Rule(apiGroups: seq<string>, resources: seq<string>, verbs: seq<string>)
  datatype Subject = Subject(kind: string, name: string, namespace: string)
  datatype BindingSpec = BindingSpec(roleRef: string, subjects: seq<Subject>)

  type Role = Resource<seq<Rule>>
  type Binding = Resource<BindingSpec>

  /** The two names in `status`; "" when not recorded. */
  datatype Recorded = Recorded(role: string, binding: string)

  /** What a pass wants: user labels, the operand version, and the manifests' rules, subjects and service account. */
  datatype Desired = Desired(userLabels: Labels, version: string, rules: seq<Rule>, subjects: seq<Subject>, serviceAccount: string)

  /** Only `DuplicateResources` is irrecoverable by construction; the others are classified by their API status. */
  datatype Failure = Retry | DuplicateResources | RoleRefImmutable

  const GENERATE_NAME := "cert-manager-istio-csr-"
  const APP_LABEL := "app"
  const APP_VALUE := "cert-manager-istio-csr"
  const MAPPING_LABEL := "cert-manager-istio-csr-namespace"

  function DefaultLabels(version: string): Labels {
    map[
      APP_LABEL := APP_VALUE,
      "app.kubernetes.io/name" := APP_VALUE,
      "app.kubernetes.io/instance" := APP_VALUE,
      "app.kubernetes.io/version" := version,
      "app.kubernetes.io/managed-by" := "cert-manager-operator",
      "app.kubernetes.io/part-of" := "cert-manager-operator"
    ]
  }

  /** Controller labels override user labels, and the mapping label overrides both. */
  function DesiredLabels(d: Desired, ns: string): Labels {
    (d.userLabels + DefaultLabels(d.version))[MAPPING_LABEL := ns]
  }

  ghost predicate Has(labels: Labels, key: string, value: string) {
    key in labels && labels[key] == value
  }

  ghost predicate Reserved(key: string) {
    || key == "cert-manager-istio-csr-namespace" || key == "app"
    || key == "app.kubernetes.io/name" || key == "app.kubernetes.io/instance" || key == "app.kubernetes.io/version"
    || key == "app.kubernetes.io/managed-by" || key == "app.kubernetes.io/part-of"
  }

  /** The labels of a cluster-scoped resource of the instance in `ns`, one by one. */
  ghost predicate LabelledFor(labels: Labels, userLabels: Labels, version: string, ns: string) {
    && Has(labels, "cert-manager-istio-csr-namespace", ns)
    && Has(labels, "app", "cert-manager-istio-csr")
    && Has(labels, "app.kubernetes.io/name", "cert-manager-istio-csr")
    && Has(labels, "app.kubernetes.io/instance", "cert-manager-istio-csr")
    && Has(labels, "app.kubernetes.io/version", version)
    && Has(labels, "app.kubernetes.io/managed-by", "cert-manager-operator")
    && Has(labels, "app.kubernetes.io/part-of", "cert-manager-operator")
    && (forall k :: k in userLabels && !Reserved(k) ==> Has(labels, k, userLabels[k]))
    && (forall k :: k in labels ==> Reserved(k) || k in userLabels)
  }

  lemma ReservedKeysDiffer()
    ensures "app.kubernetes.io/version" != "app.kubernetes.io/part-of"
  {
    assert "app.kubernetes.io/version"[18] != "app.kubernetes.io/part-of"[18];
  }

  lemma DefaultLabelsAre(version: string)
    ensures var l := DefaultLabels(version);
            && Has(l, "app", "cert-manager-istio-csr") && Has(l, "app.kubernetes.io/name", "cert-manager-istio-csr")
            && Has(l, "app.kubernetes.io/instance", "cert-manager-istio-csr") && Has(l, "app.kubernetes.io/version", version)
            && Has(l, "app.kubernetes.io/managed-by", "cert-manager-operator") && Has(l, "app.kubernetes.io/part-of", "cert-manager-operator")
            && (forall k :: k in l ==> Reserved(k)) && "cert-manager-istio-csr-namespace" !in l
  {
    ReservedKeysDiffer();
    assert |"cert-manager-istio-csr-namespace"| == 32;
    assert forall k :: k in DefaultLabels(version) ==> |k| < 30;
  }

  /** Controller labels override user labels, the mapping label overrides both, and there are no others. */
  lemma DesiredLabelsAre(d: Desired, ns: string)
    ensures LabelledFor(DesiredLabels(d, ns), d.userLabels, d.version, ns)
  {
    hide DefaultLabels;
    DefaultLabelsAre(d.version);
  }

  predicate Matches(selector: Labels, labels: Labels) {
    forall k :: k in selector ==> k in labels && labels[k] == selector[k]
  }

  /** Labelled as a resource of the instance in `ns`, whatever the user labels are. */
  predicate Mine(ns: string, labels: Labels) {
    && MAPPING_LABEL in labels && labels[MAPPING_LABEL] == ns
    && APP_LABEL in labels && labels[APP_LABEL] == APP_VALUE
  }

  // ----- What is kept -----

  ghost predicate AtMostOne<S>(ns: string, objs: map<string, Resource<S>>) {
    forall a, b :: a in objs && b in objs && Mine(ns, objs[a].labels) && Mine(ns, objs[b].labels) ==> a == b
  }

  /** Every resource of the instance carries this name. */
  ghost predicate OnlyAt<S>(ns: string, objs: map<string, Resource<S>>, name: string) {
    forall n :: n in objs && Mine(ns, objs[n].labels) ==> n == name
  }

  /** The protocol's invariant: one resource at most, and only under the recorded name once there is one. */
  ghost predicate Tidy<S>(ns: string, objs: map<string, Resource<S>>, recorded: string) {
    AtMostOne(ns, objs) && (recorded != "" ==> OnlyAt(ns, objs, recorded))
  }

  /** An unrecorded resource can still be found: it matches the labels the next pass will list by. */
  predicate Findable<S>(ns: string, objs: map<string, Resource<S>>, recorded: string, labels: Labels) {
    recorded == "" ==> forall n :: n in objs && Mine(ns, objs[n].labels) ==> Matches(labels, objs[n].labels)
  }

  /** Where the instance's next resource belongs: nowhere yet when `name` is "", otherwise only under `name`. */
  ghost predicate Target<S>(ns: string, objs: map<string, Resource<S>>, name: string) {
    forall n :: n in objs && Mine(ns, objs[n].labels) ==> name != "" && n == name
  }

  /** Which name a pass settles on: the recorded one, else one found by label, else a new one. */
  ghost predicate Chosen<S>(objs: map<string, Resource<S>>, recorded: string, labels: Labels, name: string) {
    && name != ""
    && (recorded != "" ==> name == recorded)
    && (recorded == "" && (exists n :: n in objs && Matches(labels, objs[n].labels)) ==>
          name in objs && Matches(labels, objs[name].labels))
    && (recorded == "" && !(exists n :: n in objs && Matches(labels, objs[n].labels)) ==> name !in objs)
  }

  /** What others may do: delete anything, create and relabel anything that is not the instance's, edit contents. */
  predicate Outside<S>(ns: string, before: map<string, Resource<S>>, after: map<string, Resource<S>>) {
    forall n :: n in after && Mine(ns, after[n].labels) ==> n in before && after[n].labels == before[n].labels
  }

  lemma DesiredIsMine(d: Desired, ns: string)
    ensures Mine(ns, DesiredLabels(d, ns))
    ensures Matches(DesiredLabels(d, ns), DesiredLabels(d, ns))
  {
    assert MAPPING_LABEL[0] == 'c' && APP_LABEL[0] == 'a';
  }

  lemma MatchingIsMine(ns: string, selector: Labels, labels: Labels)
    requires Mine(ns, selector) && Matches(selector, labels)
    ensures Mine(ns, labels)
  {
  }

  lemma OutsideNothing<S>(ns: string, objs: map<string, Resource<S>>)
    ensures Outside(ns, objs, objs)
  {
  }

  lemma OutsideKeeps<S>(ns: string, before: map<string, Resource<S>>, after: map<string, Resource<S>>, recorded: string, labels: Labels)
    requires Outside(ns, before, after)
    ensures Tidy(ns, before, recorded) ==> Tidy(ns, after, recorded)
    ensures Target(ns, before, recorded) ==> Target(ns, after, recorded)
    ensures Findable(ns, before, recorded, labels) ==> Findable(ns, after, recorded, labels)
  {
  }

  /** Writing the instance's resource where it belongs keeps everything tidy and findable. */
  lemma PutKeeps<S>(ns: string, before: map<string, Resource<S>>, name: string, r: Resource<S>, recorded: string, target: string)
    requires Target(ns, before, target) && name != ""
    requires target != "" ==> name == target
    requires recorded != "" ==> name == recorded
    ensures Tidy(ns, before[name := r], recorded)
    ensures Target(ns, before[name := r], name)
  {
  }

  /**
   A tidy cluster stays free of duplicates exactly when an unrecorded resource is still
   findable by the labels in force: editing the user labels while a status write is
   outstanding is what breaks it.
   */
  lemma DuplicateExactlyWhenUnfindable<S>(ns: string, objs: map<string, Resource<S>>, recorded: string, name: string, r: Resource<S>)
    requires Mine(ns, r.labels)
    requires Tidy(ns, objs, recorded) && Chosen(objs, recorded, r.labels, name)
    ensures AtMostOne(ns, objs[name := r]) <==> Findable(ns, objs, recorded, r.labels)
  {
    var labels := r.labels;
    var after := objs[name := r];
    MatchingAreMine(ns, objs, labels);
    if recorded == "" {
      if n :| n in objs && Mine(ns, objs[n].labels) {
        if Matches(labels, objs[n].labels) {
          assert name == n;
        } else {
          assert n in after && name in after && n != name;
        }
      }
    }
  }

  lemma MatchingAreMine<S>(ns: string, objs: map<string, Resource<S>>, selector: Labels)
    requires Mine(ns, selector)
    ensures forall n :: n in objs && Matches(selector, objs[n].labels) ==> Mine(ns, objs[n].labels)
  {
  }

  /** The failure itself: a role created under one label set, its status write lost, and the labels edited. */
  lemma EditedLabelsDuplicate(ns: string, name: string, rules: seq<Rule>)
    requires name != "" && name != "cert-manager-istio-csr-1"
    ensures
      var first := Desired(map["team" := "a"], "", rules, [], "");
      var second := Desired(map["team" := "b"], "", rules, [], "");
      var objs := map["cert-manager-istio-csr-1" := Resource(DesiredLabels(first, ns), rules)];
      && Tidy(ns, objs, "")
      && Chosen(objs, "", DesiredLabels(second, ns), name)
      && !AtMostOne(ns, objs[name := Resource(DesiredLabels(second, ns), rules)])
  {
    var first := Desired(map["team" := "a"], "", rules, [], "");
    var second := Desired(map["team" := "b"], "", rules, [], "");
    var objs := map["cert-manager-istio-csr-1" := Resource(DesiredLabels(first, ns), rules)];
    UserLabelKept(first, ns);
    UserLabelKept(second, ns);
    assert "a"[0] != "b"[0];
    assert !Matches(DesiredLabels(second, ns), DesiredLabels(first, ns));
    DesiredIsMine(first, ns);
    DesiredIsMine(second, ns);
    assert !Findable(ns, objs, "", DesiredLabels(second, ns)) by {
      assert "cert-manager-istio-csr-1" in objs;
    }
    assert forall n :: n in objs ==> n == "cert-manager-istio-csr-1";
    DuplicateExactlyWhenUnfindable(ns, objs, "", name, Resource(DesiredLabels(second, ns), rules));
  }

  lemma UserLabelKept(d: Desired, ns: string)
    requires "team" in d.userLabels
    ensures "team" in DesiredLabels(d, ns) && DesiredLabels(d, ns)["team"] == d.userLabels["team"]
  {
    assert forall k :: k in DefaultLabels(d.version) ==> k[0] == 'a';
    assert MAPPING_LABEL[0] == 'c' && "team"[0] == 't';
  }

  // ----- Runs -----

  datatype Snapshot = Snapshot(roles: map<string, Role>, bindings: map<string, Binding>, recorded: Recorded)

  /** Every state the cluster went through, the present one outermost. */
  datatype Trace = Start(now: Snapshot) | Step(before: Trace, now: Snapshot)

  ghost predicate Safe(ns: string, s: Snapshot) {
    Tidy(ns, s.roles, s.recorded.role) && Tidy(ns, s.bindings, s.recorded.binding)
  }

  /** A recorded name is never changed or lost. */
  ghost predicate Keeps(before: Recorded, after: Recorded) {
    (before.role != "" ==> after.role == before.role) && (before.binding != "" ==> after.binding == before.binding)
  }

  /** Every state is safe and every step keeps the recorded names. */
  ghost predicate Sound(ns: string, t: Trace) {
    Safe(ns, t.now) && (t.Step? ==> Keeps(t.before.now.recorded, t.now.recorded) && Sound(ns, t.before))
  }

  /** No step rewrites the role reference of a binding it keeps. */
  ghost predicate RoleRefsKept(t: Trace) {
    t.Step? ==> RoleRefStep(t.before.now, t.now) && RoleRefsKept(t.before)
  }

  ghost predicate RoleRefStep(a: Snapshot, b: Snapshot) {
    forall n :: n in a.bindings && n in b.bindings ==> b.bindings[n].spec.roleRef == a.bindings[n].spec.roleRef
  }

  ghost predicate Extends(t: Trace, longer: Trace) {
    longer == t || (longer.Step? && Extends(t, longer.before))
  }

  lemma {:induction false} ExtendsTransitive(a: Trace, b: Trace, c: Trace)
    requires Extends(a, b) && Extends(b, c)
    ensures Extends(a, c)
  {
    if b != c {
      ExtendsTransitive(a, b, c.before);
    }
  }

  /** In a sound trace every earlier state had at most one resource of each kind and a name since kept. */
  lemma {:induction false} SoundMeans(ns: string, t: Trace, earlier: Trace)
    requires Sound(ns, t) && Extends(earlier, t)
    ensures AtMostOne(ns, earlier.now.roles) && AtMostOne(ns, earlier.now.bindings)
    ensures Keeps(earlier.now.recorded, t.now.recorded)
  {
    if earlier != t {
      SoundMeans(ns, t.before, earlier);
    }
  }

  /** There is always a free name with the prefix. */
  method FreeSuffix(taken: set<string>) returns (suffix: string)
    ensures GENERATE_NAME + suffix !in taken
  {
    var bound: nat := 0;
    var rest := taken;
    while rest != {}
      invariant rest <= taken
      invariant forall n :: n in taken && n !in rest ==> |n| <= bound
      decreases rest
    {
      var n :| n in rest;
      bound := if |n| > bound then |n| else bound;
      rest := rest - {n};
    }
    suffix := seq(bound + 1, _ => 'x');
  }

  /** In no step of such a trace did a binding that stayed get another role reference. */
  lemma {:induction false} RoleRefsNeverChange(t: Trace, step: Trace)
    requires RoleRefsKept(t) && Extends(step, t) && step.Step?
    ensures forall n :: n in step.before.now.bindings && n in step.now.bindings ==>
                          step.now.bindings[n].spec.roleRef == step.before.now.bindings[n].spec.roleRef
  {
    if step != t {
      RoleRefsNeverChange(t.before, step);
    }
  }

  datatype Lookup<+T> = Found(value: T) | Missing | LookupFailed

  class Cluster {
    const ns: string
    var roles: map<string, Role>
    var bindings: map<string, Binding>
    var recorded: Recorded
    /** No call fails while this is set. */
    var healthy: bool
    ghost var history: Trace
    ghost var bindingWrites: nat

    ghost function Now(): Snapshot
      reads this
    {
      Snapshot(roles, bindings, recorded)
    }

    ghost predicate Valid()
      reads this
    {
      history.now == Now() && RoleRefsKept(history) && "" !in roles && "" !in bindings
    }

    /** Every state so far was safe and recorded names were write-once. */
    ghost predicate Good()
      reads this
    {
      Valid() && Sound(ns, history)
    }

    /** Whatever is not recorded yet can be found by these labels. */
    predicate Findables(labels: Labels)
      reads this
    {
      Findable(ns, roles, recorded.role, labels) && Findable(ns, bindings, recorded.binding, labels)
    }

    ghost predicate Fine(labels: Labels)
      reads this
    {
      Good() && Findables(labels)
    }

    /** A status held in memory that may be persisted at any time. */
    ghost predicate Ahead(status: Recorded)
      reads this
    {
      && Keeps(recorded, status)
      && (status.role != "" ==> Target(ns, roles, status.role))
      && (status.binding != "" ==> Target(ns, bindings, status.binding))
    }

    constructor (ns: string)
      ensures Good() && this.ns == ns
      ensures roles == map[] && bindings == map[] && recorded == Recorded("", "")
    {
      this.ns := ns;
      roles, bindings, recorded, healthy := map[], map[], Recorded("", ""), false;
      history, bindingWrites := Start(Snapshot(map[], map[], Recorded("", ""))), 0;
    }

    /** Appends the present state to the history. */
    ghost method Log()
      requires RoleRefsKept(history) && RoleRefStep(history.now, Now()) && "" !in roles && "" !in bindings
      modifies this`history
      ensures Valid() && history == Step(old(history), Now())
      ensures Sound(ns, old(history)) && Safe(ns, Now()) && Keeps(old(history).now.recorded, recorded) ==> Good()
    {
      history := Step(history, Now());
    }

    /** Other writers: any number of deletions, edits and foreign creations, each in the history. */
    method Interfere(quiet: bool)
      requires Valid()
      modifies this`roles, this`bindings, this`history, this`bindingWrites
      ensures Valid() && Extends(old(history), history)
      ensures Outside(ns, old(roles), roles) && Outside(ns, old(bindings), bindings)
      ensures old(Good()) ==> Good()
      ensures quiet ==> roles == old(roles) && bindings == old(bindings) && bindingWrites == old(bindingWrites)
    {
      if quiet {
        return;
      }
      var steps: nat := *;
      while steps > 0
        invariant Valid() && Extends(old(history), history)
        invariant Outside(ns, old(roles), roles) && Outside(ns, old(bindings), bindings)
        invariant old(Good()) ==> Good()
      {
        ghost var t := history;
        InterfereOnce();
        ExtendsTransitive(old(history), t, history);
        steps := steps - 1;
      }
    }

    /** One write of somebody else; the server keeps role references immutable for them too. */
    method InterfereOnce()
      requires Valid()
      modifies this`roles, this`bindings, this`history, this`bindingWrites
      ensures Valid() && Extends(old(history), history)
      ensures Outside(ns, old(roles), roles) && Outside(ns, old(bindings), bindings)
      ensures old(Good()) ==> Good()
    {
      hide Tidy, Outside, Mine;
      var newRoles: map<string, Role>, newBindings: map<string, Binding> := *, *;
      OutsideNothing(ns, roles);
      OutsideNothing(ns, bindings);
      if && Outside(ns, roles, newRoles) && Outside(ns, bindings, newBindings) && "" !in newRoles && "" !in newBindings
         && forall n :: n in bindings && n in newBindings ==> newBindings[n].spec.roleRef == bindings[n].spec.roleRef
      {
        OutsideKeeps(ns, roles, newRoles, recorded.role, map[]);
        OutsideKeeps(ns, bindings, newBindings, recorded.binding, map[]);
        roles, bindings, bindingWrites := newRoles, newBindings, bindingWrites + 1;
        Log();
      }
    }

    // ----- API calls. Each may fail; a write may also fail after taking effect. -----

    /** The server's choice: any name with the prefix, and a free one when it is healthy. */
    method GenerateName(taken: set<string>) returns (name: string)
      ensures "cert-manager-istio-csr-" <= name && name != "" && (healthy ==> name !in taken)
    {
      var suffix: string := *;
      if GENERATE_NAME + suffix in taken && healthy {
        suffix := FreeSuffix(taken);
      }
      name := GENERATE_NAME + suffix;
    }

    method GetRole(name: string) returns (r: Lookup<Role>)
      ensures r.Found? ==> name in roles && r.value == roles[name]
      ensures r.Missing? ==> name !in roles
      ensures healthy ==> !r.LookupFailed?
    {
      var failed := Fault(healthy);
      if failed {
        return LookupFailed;
      }
      r := if name in roles then Found(roles[name]) else Missing;
    }

    method GetBinding(name: string) returns (r: Lookup<Binding>)
      ensures r.Found? ==> name in bindings && r.value == bindings[name]
      ensures r.Missing? ==> name !in bindings
      ensures healthy ==> !r.LookupFailed?
    {
      var failed := Fault(healthy);
      if failed {
        return LookupFailed;
      }
      r := if name in bindings then Found(bindings[name]) else Missing;
    }

    method ListRoles(selector: Labels) returns (r: Option<set<string>>)
      ensures r.Some? ==> r.value == set n | n in roles && Matches(selector, roles[n].labels)
      ensures healthy ==> r.Some?
    {
      var failed := Fault(healthy);
      if failed {
        return None;
      }
      r := Some(set n | n in roles && Matches(selector, roles[n].labels));
    }

    method ListBindings(selector: Labels) returns (r: Option<set<string>>)
      ensures r.Some? ==> r.value == set n | n in bindings && Matches(selector, bindings[n].labels)
      ensures healthy ==> r.Some?
    {
      var failed := Fault(healthy);
      if failed {
        return None;
      }
      r := Some(set n | n in bindings && Matches(selector, bindings[n].labels));
    }

    /** Writes the role under a name that suits the place where it belongs. */
    method PutRole(target: string, name: string, role: Role)
      requires Valid() && name != ""
      modifies this`roles, this`history
      ensures Valid() && Extends(old(history), history) && roles == old(roles)[name := role]
      ensures Findable(ns, old(roles), recorded.role, role.labels) ==> Findable(ns, roles, recorded.role, role.labels)
      ensures Target(ns, old(roles), target) && (target != "" ==> name == target) ==> Target(ns, roles, name)
      ensures old(Good()) && Target(ns, old(roles), target) && (target != "" ==> name == target) && (recorded.role != "" ==> name == recorded.role) ==> Good()
    {
      if Target(ns, roles, target) && (target != "" ==> name == target) {
        PutKeeps(ns, roles, name, role, if recorded.role != "" && name != recorded.role then "" else recorded.role, target);
      }
      roles := roles[name := role];
      Log();
    }

    /** An empty name asks the server to generate one; a taken name is refused. */
    method CreateRole(name: string, role: Role) returns (r: Result<string, Failure>)
      requires Valid()
      modifies this`roles, this`history
      ensures Valid() && Extends(old(history), history)
      ensures Findable(ns, old(roles), recorded.role, role.labels) ==> Findable(ns, roles, recorded.role, role.labels)
      ensures r.Ok? && Target(ns, old(roles), name) ==> Target(ns, roles, r.value)
      ensures r.Ok? ==> r.value != "" && r.value !in old(roles) && roles == old(roles)[r.value := role]
      ensures r.Ok? ==> if name == "" then "cert-manager-istio-csr-" <= r.value else r.value == name
      ensures r.Err? ==> r.error == Retry
      ensures healthy && name !in old(roles) ==> r.Ok?
      ensures old(Good()) && Target(ns, old(roles), name) && (recorded.role != "" ==> name == recorded.role) ==> Good()
    {
      var refused := Fault(healthy);
      var chosen := name;
      if name == "" {
        chosen := GenerateName(roles.Keys);
      }
      hide Findable, Target, Sound, RoleRefsKept;
      if refused || chosen in roles {
        return Err(Retry);
      }
      PutRole(name, chosen, role);
      var unanswered := Fault(healthy);
      if unanswered {
        return Err(Retry);
      }
      return Ok(chosen);
    }

    /** Writes the binding under a name that suits the place where it belongs. */
    method PutBinding(target: string, name: string, binding: Binding)
      requires Valid() && name != "" && (name in bindings ==> bindings[name].spec.roleRef == binding.spec.roleRef)
      modifies this`bindings, this`history, this`bindingWrites
      ensures Valid() && Extends(old(history), history) && bindings == old(bindings)[name := binding]
      ensures Findable(ns, old(bindings), recorded.binding, binding.labels) ==> Findable(ns, bindings, recorded.binding, binding.labels)
      ensures Target(ns, old(bindings), target) && (target != "" ==> name == target) ==> Target(ns, bindings, name)
      ensures old(Good()) && Target(ns, old(bindings), target) && (target != "" ==> name == target) && (recorded.binding != "" ==> name == recorded.binding) ==> Good()
    {
      if Target(ns, bindings, target) && (target != "" ==> name == target) {
        PutKeeps(ns, bindings, name, binding, if recorded.binding != "" && name != recorded.binding then "" else recorded.binding, target);
      }
      bindings, bindingWrites := bindings[name := binding], bindingWrites + 1;
      Log();
    }

    method CreateBinding(name: string, binding: Binding) returns (r: Result<string, Failure>)
      requires Valid()
      modifies this`bindings, this`history, this`bindingWrites
      ensures Valid() && Extends(old(history), history)
      ensures Findable(ns, old(bindings), recorded.binding, binding.labels) ==> Findable(ns, bindings, recorded.binding, binding.labels)
      ensures r.Ok? && Target(ns, old(bindings), name) ==> Target(ns, bindings, r.value)
      ensures name != "" && Target(ns, old(bindings), name) ==> Target(ns, bindings, name)
      ensures r.Ok? ==> r.value != "" && r.value !in old(bindings) && bindings == old(bindings)[r.value := binding]
      ensures r.Ok? ==> if name == "" then "cert-manager-istio-csr-" <= r.value else r.value == name
      ensures r.Err? ==> r.error == Retry
      ensures healthy && name !in old(bindings) ==> r.Ok?
      ensures old(Good()) && Target(ns, old(bindings), name) && (recorded.binding != "" ==> name == recorded.binding) ==> Good()
    {
      var refused := Fault(healthy);
      var chosen := name;
      if name == "" {
        chosen := GenerateName(bindings.Keys);
      }
      hide Findable, Target, Sound, RoleRefsKept;
      if refused || chosen in bindings {
        return Err(Retry);
      }
      PutBinding(name, chosen, binding);
      var unanswered := Fault(healthy);
      if unanswered {
        return Err(Retry);
      }
      return Ok(chosen);
    }

    /** `UpdateWithRetry`: overwrites whatever is live under the name, and fails when nothing is. */
    method UpdateRole(name: string, role: Role) returns (r: Result<(), Failure>)
      requires Valid()
      modifies this`roles, this`history
      ensures Valid() && Extends(old(history), history)
      ensures Findable(ns, old(roles), recorded.role, role.labels) ==> Findable(ns, roles, recorded.role, role.labels)
      ensures name != "" && Target(ns, old(roles), name) ==> Target(ns, roles, name)
      ensures r.Ok? ==> roles == old(roles)[name := role]
      ensures r.Err? ==> r.error == Retry
      ensures healthy && name in old(roles) ==> r.Ok?
      ensures old(Good()) && name != "" && Target(ns, old(roles), name) && (recorded.role != "" ==> name == recorded.role) ==> Good()
    {
      var refused := Fault(healthy);
      if refused || name !in roles {
        return Err(Retry);
      }
      PutRole(name, name, role);
      var unanswered := Fault(healthy);
      if unanswered {
        return Err(Retry);
      }
      return Ok(());
    }

    /** The server refuses to change the role reference of a live binding. */
    method UpdateBinding(name: string, binding: Binding) returns (r: Result<(), Failure>)
      requires Valid()
      modifies this`bindings, this`history, this`bindingWrites
      ensures Valid() && Extends(old(history), history)
      ensures Findable(ns, old(bindings), recorded.binding, binding.labels) ==> Findable(ns, bindings, recorded.binding, binding.labels)
      ensures name != "" && Target(ns, old(bindings), name) ==> Target(ns, bindings, name)
      ensures r.Ok? ==> bindings == old(bindings)[name := binding]
      ensures r.Err? && r.error == RoleRefImmutable ==> name in old(bindings) && old(bindings)[name].spec.roleRef != binding.spec.roleRef
      ensures r.Err? ==> r.error in {Retry, RoleRefImmutable}
      ensures healthy && name in old(bindings) && old(bindings)[name].spec.roleRef == binding.spec.roleRef ==> r.Ok?
      ensures old(Good()) && name != "" && Target(ns, old(bindings), name) && (recorded.binding != "" ==> name == recorded.binding) ==> Good()
    {
      var refused := Fault(healthy);
      if refused || name !in bindings {
        return Err(Retry);
      }
      if bindings[name].spec.roleRef != binding.spec.roleRef {
        return Err(RoleRefImmutable);
      }
      PutBinding(name, name, binding);
      var unanswered := Fault(healthy);
      if unanswered {
        return Err(Retry);
      }
      return Ok(());
    }

    /** `false` for an error other than not-found. */
    method DeleteBinding(name: string) returns (gone: bool)
      requires Valid()
      modifies this`bindings, this`history, this`bindingWrites
      ensures Valid() && Extends(old(history), history)
      ensures Outside(ns, old(bindings), bindings)
      ensures gone ==> bindings == old(bindings) - {name}
      ensures healthy ==> gone
      ensures old(Good()) ==> Good()
    {
      var refused := Fault(healthy);
      if refused {
        return false;
      }
      OutsideKeeps(ns, bindings, bindings - {name}, recorded.binding, map[]);
      if name in bindings {
        bindings, bindingWrites := bindings - {name}, bindingWrites + 1;
        Log();
      }
      var unanswered := Fault(healthy);
      if unanswered {
        return false;
      }
      assert name !in old(bindings) ==> old(bindings) == old(bindings) - {name};
      return true;
    }

    /** Persists both names at once. */
    method UpdateStatus(status: Recorded) returns (ok: bool)
      requires Valid()
      modifies this`recorded, this`history
      ensures Valid() && Extends(old(history), history)
      ensures recorded == old(recorded) || recorded == status
      ensures ok ==> recorded == status
      ensures healthy ==> ok
      ensures old(Good()) && old(Ahead(status)) ==> Good()
    {
      var refused := Fault(healthy);
      if refused {
        return false;
      }
      recorded := status;
      Log();
      var unanswered := Fault(healthy);
      if unanswered {
        return false;
      }
      return true;
    }
  }
}
