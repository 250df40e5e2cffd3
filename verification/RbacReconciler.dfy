/**
 One reconcile pass over the cluster-scoped RBAC resources, and runs of passes
 (pkg/controller/istiocsr/rbacs.go). A pass reads the status once, works on its own copy,
 and may stop after any call; whatever copy it ends with may still be persisted afterwards
 by the condition update.
 */
module RbacReconciler {
  import opened Outcomes
  import opened ClusterRbac

  function DesiredRole(d: Desired, ns: string): Role {
    Resource(DesiredLabels(d, ns), d.rules)
  }

  function DesiredBinding(d: Desired, ns: string, roleName: string): Binding {
    Resource(DesiredLabels(d, ns), BindingSpec(roleName, MovedSubjects(d.subjects, d.serviceAccount, ns)))
  }

  function MovedSubject(s: Subject, serviceAccount: string, ns: string): Subject {
    if s.kind == "ServiceAccount" && s.name == serviceAccount then s.(namespace := ns) else s
  }

  function MovedSubjects(subjects: seq<Subject>, serviceAccount: string, ns: string): seq<Subject> {
    seq(|subjects|, i requires 0 <= i < |subjects| => MovedSubject(subjects[i], serviceAccount, ns))
  }

  /** `updateServiceAccountNamespaceInRBACBindingObject`: the operand's account is moved into the instance's namespace. */
  method UpdateSubjects(subjects: seq<Subject>, serviceAccount: string, ns: string) returns (moved: seq<Subject>)
    ensures moved == MovedSubjects(subjects, serviceAccount, ns)
  {
    moved := subjects;
    for i := 0 to |subjects|
      invariant |moved| == |subjects|
      invariant forall j :: 0 <= j < i ==> moved[j] == MovedSubject(subjects[j], serviceAccount, ns)
      invariant forall j :: i <= j < |subjects| ==> moved[j] == subjects[j]
    {
      if moved[i].kind == "ServiceAccount" && moved[i].name == serviceAccount {
        moved := moved[i := moved[i].(namespace := ns)];
      }
    }
  }

  /** What a lookup by recorded name, or by label when there is none, tells about the store. */
  ghost predicate LookedUp<S>(objs: map<string, Resource<S>>, recorded: string, labels: Labels, found: Option<string>) {
    match found
    case Some(n) => n in objs && (if recorded != "" then n == recorded else Matches(labels, objs[n].labels))
    case None => if recorded != "" then recorded !in objs else forall n :: n in objs ==> !Matches(labels, objs[n].labels)
  }

  function TargetName(recorded: string, found: Option<string>): string {
    if recorded != "" then recorded else match found case Some(n) => n case None => ""
  }

  lemma LookedUpTarget<S>(ns: string, objs: map<string, Resource<S>>, recorded: string, labels: Labels, found: Option<string>)
    requires Mine(ns, labels) && "" !in objs
    requires Tidy(ns, objs, recorded) && Findable(ns, objs, recorded, labels)
    requires LookedUp(objs, recorded, labels, found)
    ensures Target(ns, objs, TargetName(recorded, found))
  {
    if recorded == "" && found.Some? {
      MatchingIsMine(ns, labels, objs[found.value].labels);
    }
  }

  lemma LookedUpChosen<S>(objs: map<string, Resource<S>>, recorded: string, labels: Labels, found: Option<string>, name: string)
    requires LookedUp(objs, recorded, labels, found) && name != ""
    requires found.Some? ==> name == found.value
    requires found.None? ==> name !in objs && (recorded != "" ==> name == recorded)
    ensures Chosen(objs, recorded, labels, name)
  {
  }

  /** Without a recorded name, several resources match the labels. */
  ghost predicate Ambiguous<S>(objs: map<string, Resource<S>>, recorded: string, labels: Labels) {
    recorded == "" && exists a, b :: a in objs && b in objs && a != b && Matches(labels, objs[a].labels) && Matches(labels, objs[b].labels)
  }

  lemma TidyIsUnambiguous<S>(ns: string, objs: map<string, Resource<S>>, recorded: string, labels: Labels)
    requires Mine(ns, labels) && AtMostOne(ns, objs)
    ensures !Ambiguous(objs, recorded, labels)
  {
    MatchingAreMine(ns, objs, labels);
  }

  /** Several resources with the instance's labels are reported as an irrecoverable duplicate. */
  lemma SeveralMatches<S>(ns: string, objs: map<string, Resource<S>>, labels: Labels, items: set<string>)
    requires Mine(ns, labels)
    requires items == set n | n in objs && Matches(labels, objs[n].labels)
    ensures AtMostOne(ns, objs) ==> |items| <= 1
    ensures |items| == 1 ==> exists n :: items == {n}
    ensures |items| == 0 ==> forall n :: n in objs ==> !Matches(labels, objs[n].labels)
    ensures |items| > 1 <==> Ambiguous(objs, "", labels)
  {
    assert forall n :: n in objs && Matches(labels, objs[n].labels) ==> n in items;
    if x :| x in items {
      var rest := items - {x};
      assert |items| == |rest| + 1;
      if |items| == 1 {
        assert items == {x};
      }
      if a, b :| a in items && b in items && a != b {
        assert {a, b} <= items && |{a, b}| == 2;
        assert |items - {a, b}| == |items| - 2;
      }
      if y :| y in rest {
        MatchingIsMine(ns, labels, objs[x].labels);
        MatchingIsMine(ns, labels, objs[y].labels);
      }
    }
  }

  /** Others may act before every call of a pass. */
  method LetOthersAct(c: Cluster, ghost labels: Labels, ghost role: string, ghost binding: string, quiet: bool)
    requires c.Valid()
    modifies c`roles, c`bindings, c`history, c`bindingWrites
    ensures c.Valid() && Extends(old(c.history), c.history)
    ensures old(c.Fine(labels)) ==> c.Fine(labels)
    ensures Target(c.ns, old(c.roles), role) ==> Target(c.ns, c.roles, role)
    ensures Target(c.ns, old(c.bindings), binding) ==> Target(c.ns, c.bindings, binding)
    ensures quiet ==> c.roles == old(c.roles) && c.bindings == old(c.bindings) && c.bindingWrites == old(c.bindingWrites)
  {
    c.Interfere(quiet);
    OutsideKeeps(c.ns, old(c.roles), c.roles, c.recorded.role, labels);
    OutsideKeeps(c.ns, old(c.bindings), c.bindings, c.recorded.binding, labels);
    OutsideKeeps(c.ns, old(c.roles), c.roles, role, labels);
    OutsideKeeps(c.ns, old(c.bindings), c.bindings, binding, labels);
  }

  method FindRole(c: Cluster, recorded: string, desired: Role, quiet: bool)
    returns (r: Result<Option<string>, Failure>, fetched: Role)
    requires c.Valid() && Mine(c.ns, desired.labels)
    modifies c`roles, c`bindings, c`history, c`bindingWrites
    ensures c.Valid() && Extends(old(c.history), c.history)
    ensures old(c.Fine(desired.labels)) ==> c.Fine(desired.labels)
    ensures quiet ==> c.roles == old(c.roles) && c.bindings == old(c.bindings) && c.bindingWrites == old(c.bindingWrites)
    ensures r.Ok? ==> LookedUp(c.roles, recorded, desired.labels, r.value)
    ensures r.Ok? && r.value.Some? ==> fetched == c.roles[r.value.value]
    ensures r == Err(DuplicateResources) ==> !AtMostOne(c.ns, c.roles)
    ensures r.Ok? ==> !Ambiguous(c.roles, recorded, desired.labels)
    ensures c.healthy ==> r.Ok? || (r.error == DuplicateResources && Ambiguous(c.roles, recorded, desired.labels))
    ensures r.Err? ==> r.error in {Retry, DuplicateResources}
  {
    fetched := desired;
    LetOthersAct(c, desired.labels, "", "", quiet);
    if recorded != "" {
      var got := c.GetRole(recorded);
      match got
      case LookupFailed => r := Err(Retry);
      case Missing => r := Ok(None);
      case Found(role) =>
        fetched := role;
        r := Ok(Some(recorded));
    } else {
      var items := c.ListRoles(desired.labels);
      if items.None? {
        return Err(Retry), fetched;
      }
      SeveralMatches(c.ns, c.roles, desired.labels, items.value);
      if |items.value| > 0 {
        if |items.value| != 1 {
          return Err(DuplicateResources), fetched;
        }
        var n :| n in items.value;
        fetched := c.roles[n];
        return Ok(Some(n)), fetched;
      }
      r := Ok(None);
    }
  }

  method FindBinding(c: Cluster, recorded: string, desired: Binding, quiet: bool)
    returns (r: Result<Option<string>, Failure>, fetched: Binding)
    requires c.Valid() && Mine(c.ns, desired.labels)
    modifies c`roles, c`bindings, c`history, c`bindingWrites
    ensures c.Valid() && Extends(old(c.history), c.history)
    ensures old(c.Fine(desired.labels)) ==> c.Fine(desired.labels)
    ensures quiet ==> c.roles == old(c.roles) && c.bindings == old(c.bindings) && c.bindingWrites == old(c.bindingWrites)
    ensures r.Ok? ==> LookedUp(c.bindings, recorded, desired.labels, r.value)
    ensures r.Ok? && r.value.Some? ==> fetched == c.bindings[r.value.value]
    ensures r == Err(DuplicateResources) ==> !AtMostOne(c.ns, c.bindings)
    ensures r.Ok? ==> !Ambiguous(c.bindings, recorded, desired.labels)
    ensures c.healthy ==> r.Ok? || (r.error == DuplicateResources && Ambiguous(c.bindings, recorded, desired.labels))
    ensures r.Err? ==> r.error in {Retry, DuplicateResources}
  {
    fetched := desired;
    LetOthersAct(c, desired.labels, "", "", quiet);
    if recorded != "" {
      var got := c.GetBinding(recorded);
      match got
      case LookupFailed => r := Err(Retry);
      case Missing => r := Ok(None);
      case Found(binding) =>
        fetched := binding;
        r := Ok(Some(recorded));
    } else {
      var items := c.ListBindings(desired.labels);
      if items.None? {
        return Err(Retry), fetched;
      }
      SeveralMatches(c.ns, c.bindings, desired.labels, items.value);
      if |items.value| > 0 {
        if |items.value| != 1 {
          return Err(DuplicateResources), fetched;
        }
        var n :| n in items.value;
        fetched := c.bindings[n];
        return Ok(Some(n)), fetched;
      }
      r := Ok(None);
    }
  }

  /** Updates the role that was found, or creates one under the recorded or a generated name. */
  method ApplyRole(c: Cluster, desired: Role, found: Option<string>, fetched: Role, recorded: string)
    returns (r: Result<string, Failure>)
    requires c.Valid() && recorded == c.recorded.role
    requires found.Some? ==> found.value != "" && (recorded != "" ==> found.value == recorded)
    modifies c`roles, c`history
    ensures c.Valid() && Extends(old(c.history), c.history)
    ensures old(c.Fine(desired.labels)) && Target(c.ns, old(c.roles), TargetName(recorded, found)) ==>
              c.Fine(desired.labels) && (r.Ok? ==> Target(c.ns, c.roles, r.value))
    ensures r.Ok? ==> r.value != "" && (TargetName(recorded, found) != "" ==> r.value == TargetName(recorded, found))
    ensures r.Err? ==> r.error == Retry
    ensures r.Ok? && found.Some? && found.value in old(c.roles) && fetched == old(c.roles)[found.value] ==>
              c.roles == old(c.roles)[r.value := desired]
    ensures r.Ok? && found.None? ==> c.roles == old(c.roles)[r.value := desired] && r.value !in old(c.roles)
    ensures c.healthy && (if found.Some? then found.value in old(c.roles) else recorded !in old(c.roles)) ==> r.Ok?
    ensures r.Ok? && found.None? && recorded == "" ==> "cert-manager-istio-csr-" <= r.value
  {
    if found.Some? {
      if fetched == desired {
        return Ok(found.value);
      }
      var updated := c.UpdateRole(found.value, desired);
      return if updated.Err? then Err(updated.error) else Ok(found.value);
    }
    r := c.CreateRole(recorded, desired);
  }

  /** Looks the role up and applies it; the name settled on is not recorded yet. */
  method SettleRole(c: Cluster, recorded: string, desired: Role, quiet: bool) returns (r: Result<string, Failure>)
    requires c.Valid() && recorded == c.recorded.role && Mine(c.ns, desired.labels)
    modifies c`roles, c`bindings, c`history, c`bindingWrites
    ensures c.Valid() && Extends(old(c.history), c.history)
    ensures old(c.Fine(desired.labels)) ==>
              c.Fine(desired.labels) && r != Err(DuplicateResources) && (r.Ok? ==> Target(c.ns, c.roles, r.value))
    ensures r.Ok? ==> r.value != "" && (recorded != "" ==> r.value == recorded)
    ensures r.Err? ==> r.error in {Retry, DuplicateResources}
    ensures quiet ==> c.bindings == old(c.bindings) && c.bindingWrites == old(c.bindingWrites)
    ensures quiet && r.Ok? ==>
              c.roles == old(c.roles)[r.value := desired] && Chosen(old(c.roles), recorded, desired.labels, r.value)
    ensures quiet && r.Ok? && recorded == "" && r.value !in old(c.roles) ==> "cert-manager-istio-csr-" <= r.value
    ensures quiet && r.Ok? ==> !Ambiguous(old(c.roles), recorded, desired.labels)
    ensures quiet && c.healthy ==> r.Ok? || (r.error == DuplicateResources && Ambiguous(old(c.roles), recorded, desired.labels))
  {
    ghost var fine := c.Fine(desired.labels);
    var found, fetched := FindRole(c, recorded, desired, quiet);
    if found.Err? {
      return Err(found.error);
    }
    if fine {
      LookedUpTarget(c.ns, c.roles, recorded, desired.labels, found.value);
    }
    ghost var looked, t := c.roles, c.history;
    LetOthersAct(c, desired.labels, TargetName(recorded, found.value), "", quiet);
    ExtendsTransitive(old(c.history), t, c.history);
    t := c.history;
    r := ApplyRole(c, desired, found.value, fetched, recorded);
    ExtendsTransitive(old(c.history), t, c.history);
    if quiet && r.Ok? {
      LookedUpChosen(looked, recorded, desired.labels, found.value, r.value);
    }
  }

  /** Persists a status whose names are where the resources belong. */
  method RecordStatus(c: Cluster, status: Recorded, ghost labels: Labels, quiet: bool) returns (ok: bool)
    requires c.Valid()
    modifies c`roles, c`bindings, c`recorded, c`history, c`bindingWrites
    ensures c.Valid() && Extends(old(c.history), c.history)
    ensures c.recorded == old(c.recorded) || c.recorded == status
    ensures ok ==> c.recorded == status
    ensures c.healthy ==> ok
    ensures old(c.Fine(labels)) && old(c.Ahead(status)) ==> c.Fine(labels) && c.Ahead(status)
    ensures quiet ==> c.roles == old(c.roles) && c.bindings == old(c.bindings) && c.bindingWrites == old(c.bindingWrites)
  {
    LetOthersAct(c, labels, status.role, status.binding, quiet);
    ghost var t := c.history;
    ok := c.UpdateStatus(status);
    ExtendsTransitive(old(c.history), t, c.history);
  }

  method CreateOrApplyClusterRoles(c: Cluster, status: Recorded, desired: Role, quiet: bool)
    returns (r: Result<string, Failure>, status': Recorded)
    requires c.Valid() && status == c.recorded && Mine(c.ns, desired.labels)
    modifies c`roles, c`bindings, c`recorded, c`history, c`bindingWrites
    ensures c.Valid() && Extends(old(c.history), c.history)
    // Safety, whatever fails and whoever interferes.
    ensures old(c.Fine(desired.labels)) ==> c.Fine(desired.labels) && c.Ahead(status') && r != Err(DuplicateResources)
    // A pass that succeeds has persisted the name it settled on.
    ensures r.Ok? ==> c.recorded == status' == status.(role := r.value) && r.value != ""
    ensures r.Ok? && status.role != "" ==> r.value == status.role
    ensures r.Err? ==> r.error in {Retry, DuplicateResources}
    ensures quiet ==> c.bindings == old(c.bindings) && c.bindingWrites == old(c.bindingWrites)
    ensures quiet && r.Ok? ==>
              c.roles == old(c.roles)[r.value := desired] && Chosen(old(c.roles), status.role, desired.labels, r.value)
    // Undisturbed and without failures, it succeeds exactly when the lookup is unambiguous.
    ensures quiet && r.Ok? && status.role == "" && r.value !in old(c.roles) ==> "cert-manager-istio-csr-" <= r.value
    ensures quiet && r.Ok? ==> !Ambiguous(old(c.roles), status.role, desired.labels)
    ensures quiet && c.healthy ==> r.Ok? || (r.error == DuplicateResources && Ambiguous(old(c.roles), status.role, desired.labels))
    // The exact condition under which a tidy store stays free of duplicates.
    ensures quiet && r.Ok? && Tidy(c.ns, old(c.roles), status.role) ==>
              (AtMostOne(c.ns, c.roles) <==> Findable(c.ns, old(c.roles), status.role, desired.labels))
  {
    hide Findable, AtMostOne, Chosen, Ambiguous;
    status' := status;
    r := SettleRole(c, status.role, desired, quiet);
    if r.Err? {
      return;
    }
    status' := status.(role := r.value);
    if quiet && Tidy(c.ns, old(c.roles), status.role) {
      DuplicateExactlyWhenUnfindable(c.ns, old(c.roles), status.role, r.value, desired);
    }
    ghost var t := c.history;
    var ok := RecordStatus(c, status', desired.labels, quiet);
    ExtendsTransitive(old(c.history), t, c.history);
    if !ok {
      r := Err(Retry);
    }
  }

  /**
   Reconciles a binding that was found with other contents. A changed role reference cannot
   be updated: the binding is deleted, and `recreate` tells the caller to create it again.
   */
  method HandleBindingModification(c: Cluster, desired: Binding, name: string, fetched: Binding)
    returns (r: Result<bool, Failure>)
    requires c.Valid() && name != "" && (c.recorded.binding != "" ==> name == c.recorded.binding)
    modifies c`bindings, c`history, c`bindingWrites
    ensures c.Valid() && Extends(old(c.history), c.history)
    ensures old(c.Fine(desired.labels)) && Target(c.ns, old(c.bindings), name) ==>
              c.Fine(desired.labels) && Target(c.ns, c.bindings, name)
    ensures r == Ok(false) ==> c.bindings == old(c.bindings)[name := desired]
    ensures r == Ok(true) ==> c.bindings == old(c.bindings) - {name}
    ensures r == Err(RoleRefImmutable) ==> name in old(c.bindings) && old(c.bindings)[name] != fetched
    ensures r.Err? ==> r.error in {Retry, RoleRefImmutable}
    ensures c.healthy && name in old(c.bindings) && old(c.bindings)[name] == fetched ==> r.Ok?
  {
    if fetched.spec.roleRef != desired.spec.roleRef {
      var gone := c.DeleteBinding(name);
      OutsideKeeps(c.ns, old(c.bindings), c.bindings, name, desired.labels);
      OutsideKeeps(c.ns, old(c.bindings), c.bindings, c.recorded.binding, desired.labels);
      return if gone then Ok(true) else Err(Retry);
    }
    var updated := c.UpdateBinding(name, desired);
    r := if updated.Err? then Err(updated.error) else Ok(false);
  }

  /** Looks the binding up and applies it, deleting and creating it again when its role reference changed. */
  method SettleBinding(c: Cluster, recorded: string, desired: Binding, quiet: bool) returns (r: Result<string, Failure>)
    requires c.Valid() && recorded == c.recorded.binding && Mine(c.ns, desired.labels)
    modifies c`roles, c`bindings, c`history, c`bindingWrites
    ensures c.Valid() && Extends(old(c.history), c.history)
    ensures old(c.Fine(desired.labels)) ==>
              c.Fine(desired.labels) && r != Err(DuplicateResources) && (r.Ok? ==> Target(c.ns, c.bindings, r.value))
    ensures r.Ok? ==> r.value != "" && (recorded != "" ==> r.value == recorded)
    ensures quiet ==> c.roles == old(c.roles) && r != Err(RoleRefImmutable)
    ensures quiet && r.Ok? ==>
              c.bindings == old(c.bindings)[r.value := desired] && Chosen(old(c.bindings), recorded, desired.labels, r.value)
    ensures quiet && r.Ok? && recorded == "" && r.value !in old(c.bindings) ==> "cert-manager-istio-csr-" <= r.value
    ensures quiet && r.Ok? ==> !Ambiguous(old(c.bindings), recorded, desired.labels)
    ensures quiet && c.healthy ==> r.Ok? || (r.error == DuplicateResources && Ambiguous(old(c.bindings), recorded, desired.labels))
    ensures quiet && recorded in old(c.bindings) && old(c.bindings)[recorded] == desired ==>
              c.bindings == old(c.bindings) && c.bindingWrites == old(c.bindingWrites)
  {
    ghost var fine := c.Fine(desired.labels);
    var found, fetched := FindBinding(c, recorded, desired, quiet);
    if found.Err? {
      return Err(found.error);
    }
    if fine {
      LookedUpTarget(c.ns, c.bindings, recorded, desired.labels, found.value);
    }
    ghost var looked, t := c.bindings, c.history;
    r := ApplyBinding(c, desired, found.value, fetched, recorded, quiet);
    ExtendsTransitive(old(c.history), t, c.history);
    if quiet && r.Ok? {
      LookedUpChosen(looked, recorded, desired.labels, found.value, r.value);
    }
  }

  method ApplyBinding(c: Cluster, desired: Binding, found: Option<string>, fetched: Binding, recorded: string, quiet: bool)
    returns (r: Result<string, Failure>)
    requires c.Valid() && recorded == c.recorded.binding
    requires found.Some? ==> found.value != "" && (recorded != "" ==> found.value == recorded)
    requires found.Some? ==> found.value in c.bindings && fetched == c.bindings[found.value]
    modifies c`roles, c`bindings, c`history, c`bindingWrites
    ensures c.Valid() && Extends(old(c.history), c.history)
    ensures old(c.Fine(desired.labels)) && Target(c.ns, old(c.bindings), TargetName(recorded, found)) ==>
              c.Fine(desired.labels) && (r.Ok? ==> Target(c.ns, c.bindings, r.value))
    ensures r.Ok? ==> r.value != "" && (TargetName(recorded, found) != "" ==> r.value == TargetName(recorded, found))
    ensures r.Err? ==> r.error in {Retry, RoleRefImmutable}
    ensures quiet ==> c.roles == old(c.roles) && r != Err(RoleRefImmutable)
    ensures quiet && r.Ok? ==> c.bindings == old(c.bindings)[r.value := desired] && (found.None? ==> r.value !in old(c.bindings))
    ensures quiet && found.Some? && fetched == desired ==> c.bindings == old(c.bindings) && c.bindingWrites == old(c.bindingWrites)
    ensures quiet && c.healthy && (found.None? ==> recorded !in old(c.bindings)) ==> r.Ok?
    ensures r.Ok? && found.None? && recorded == "" ==> "cert-manager-istio-csr-" <= r.value
  {
    LetOthersAct(c, desired.labels, "", TargetName(recorded, found), quiet);
    ghost var t := c.history;
    if found.Some? {
      if fetched == desired {
        return Ok(found.value);
      }
      r := ModifyBinding(c, desired, found.value, fetched, recorded, quiet);
    } else {
      r := c.CreateBinding(recorded, desired);
    }
    ExtendsTransitive(old(c.history), t, c.history);
  }

  /** Brings a drifted binding back, under the name it has. */
  method ModifyBinding(c: Cluster, desired: Binding, name: string, fetched: Binding, recorded: string, quiet: bool)
    returns (r: Result<string, Failure>)
    requires c.Valid() && recorded == c.recorded.binding && name != "" && (recorded != "" ==> name == recorded)
    modifies c`roles, c`bindings, c`history, c`bindingWrites
    ensures c.Valid() && Extends(old(c.history), c.history)
    ensures old(c.Fine(desired.labels)) && Target(c.ns, old(c.bindings), name) ==>
              c.Fine(desired.labels) && Target(c.ns, c.bindings, name)
    ensures r.Ok? ==> r.value == name
    ensures r.Err? ==> r.error in {Retry, RoleRefImmutable}
    ensures quiet ==> c.roles == old(c.roles)
    ensures quiet && r.Ok? ==> c.bindings == old(c.bindings)[name := desired]
    ensures quiet && r == Err(RoleRefImmutable) ==> name in old(c.bindings) && old(c.bindings)[name] != fetched
    ensures quiet && c.healthy && name in old(c.bindings) && old(c.bindings)[name] == fetched ==> r.Ok?
  {
    var handled := HandleBindingModification(c, desired, name, fetched);
    if handled.Err? {
      return Err(handled.error);
    }
    if !handled.value {
      return Ok(name);
    }
    ghost var t := c.history;
    LetOthersAct(c, desired.labels, "", name, quiet);
    ExtendsTransitive(old(c.history), t, c.history);
    t := c.history;
    r := c.CreateBinding(if recorded != "" then recorded else name, desired);
    ExtendsTransitive(old(c.history), t, c.history);
  }

  method CreateOrApplyClusterRoleBindings(c: Cluster, status: Recorded, desired: Binding, quiet: bool)
    returns (r: Result<string, Failure>, status': Recorded)
    requires c.Valid() && status == c.recorded && Mine(c.ns, desired.labels)
    modifies c`roles, c`bindings, c`recorded, c`history, c`bindingWrites
    ensures c.Valid() && Extends(old(c.history), c.history)
    ensures old(c.Fine(desired.labels)) ==>
              c.Fine(desired.labels) && c.Ahead(status') && r != Err(DuplicateResources)
    ensures r.Ok? ==> c.recorded == status' == status.(binding := r.value) && r.value != ""
    ensures r.Ok? && status.binding != "" ==> r.value == status.binding
    ensures quiet ==> c.roles == old(c.roles) && r != Err(RoleRefImmutable)
    ensures quiet && r.Ok? ==>
              c.bindings == old(c.bindings)[r.value := desired] && Chosen(old(c.bindings), status.binding, desired.labels, r.value)
    ensures quiet && r.Ok? && status.binding == "" && r.value !in old(c.bindings) ==> "cert-manager-istio-csr-" <= r.value
    ensures quiet && r.Ok? ==> !Ambiguous(old(c.bindings), status.binding, desired.labels)
    ensures quiet && c.healthy ==> r.Ok? || (r.error == DuplicateResources && Ambiguous(old(c.bindings), status.binding, desired.labels))
    // The exact condition under which a tidy store stays free of duplicates.
    ensures quiet && r.Ok? && Tidy(c.ns, old(c.bindings), status.binding) ==>
              (AtMostOne(c.ns, c.bindings) <==> Findable(c.ns, old(c.bindings), status.binding, desired.labels))
    ensures quiet && status.binding in old(c.bindings) && old(c.bindings)[status.binding] == desired ==>
              c.bindings == old(c.bindings) && c.bindingWrites == old(c.bindingWrites)
  {
    hide Findable, AtMostOne, Chosen, Ambiguous;
    status' := status;
    r := SettleBinding(c, status.binding, desired, quiet);
    if r.Err? {
      return;
    }
    status' := status.(binding := r.value);
    if quiet && Tidy(c.ns, old(c.bindings), status.binding) {
      DuplicateExactlyWhenUnfindable(c.ns, old(c.bindings), status.binding, r.value, desired);
    }
    ghost var t := c.history;
    var ok := RecordStatus(c, status', desired.labels, quiet);
    ExtendsTransitive(old(c.history), t, c.history);
    if !ok {
      r := Err(Retry);
    }
  }

  /**
   The recorded role is live with the desired rules, and the recorded binding is live, refers
   to that role and has the desired subjects; both carry the instance's labels.
   */
  ghost predicate InPlace(s: Snapshot, d: Desired, ns: string) {
    && s.recorded.role in s.roles && s.recorded.binding in s.bindings
    && var role, binding := s.roles[s.recorded.role], s.bindings[s.recorded.binding];
    && role.spec == d.rules && binding.spec.roleRef == s.recorded.role
    && |binding.spec.subjects| == |d.subjects|
    && (forall i :: 0 <= i < |d.subjects| ==>
                      var wanted, live := d.subjects[i], binding.spec.subjects[i];
                      && live.kind == wanted.kind && live.name == wanted.name
                      && live.namespace == if wanted.kind == "ServiceAccount" && wanted.name == d.serviceAccount then ns else wanted.namespace)
    && LabelledFor(role.labels, d.userLabels, d.version, ns) && LabelledFor(binding.labels, d.userLabels, d.version, ns)
  }

  lemma DesiredInPlace(s: Snapshot, d: Desired, ns: string)
    requires s.recorded.role in s.roles && s.roles[s.recorded.role] == DesiredRole(d, ns)
    requires s.recorded.binding in s.bindings && s.bindings[s.recorded.binding] == DesiredBinding(d, ns, s.recorded.role)
    ensures InPlace(s, d, ns)
  {
    hide LabelledFor;
    DesiredLabelsAre(d, ns);
  }

  /** What an undisturbed pass needs in order to succeed, besides an API server that answers. */
  ghost predicate Passable(s: Snapshot, labels: Labels) {
    !Ambiguous(s.roles, s.recorded.role, labels) && !Ambiguous(s.bindings, s.recorded.binding, labels)
  }

  /**
   One pass: both resources in order, then possibly the condition update, which persists
   the pass's whole copy of the status whether the pass succeeded or not.
   */
  method ReconcileRbac(c: Cluster, d: Desired, quiet: bool) returns (r: Result<(), Failure>)
    requires c.Valid()
    modifies c`roles, c`bindings, c`recorded, c`history, c`bindingWrites
    ensures c.Valid() && Extends(old(c.history), c.history)
    ensures old(c.Fine(DesiredLabels(d, c.ns))) ==> c.Fine(DesiredLabels(d, c.ns)) && r != Err(DuplicateResources)
    ensures quiet && r.Ok? ==> InPlace(c.Now(), d, c.ns)
    // Nothing else is touched, and new names are generated by the server.
    ensures quiet && r.Ok? ==>
              && c.roles - {c.recorded.role} == old(c.roles) - {c.recorded.role}
              && c.bindings - {c.recorded.binding} == old(c.bindings) - {c.recorded.binding}
    ensures quiet && r.Ok? && old(c.recorded.role) == "" && c.recorded.role !in old(c.roles) ==> "cert-manager-istio-csr-" <= c.recorded.role
    ensures quiet && r.Ok? && old(c.recorded.binding) == "" && c.recorded.binding !in old(c.bindings) ==> "cert-manager-istio-csr-" <= c.recorded.binding
    // Undisturbed and without failures, a pass succeeds exactly when no lookup finds several resources, so always after a run.
    ensures quiet && r.Ok? ==> old(Passable(c.Now(), DesiredLabels(d, c.ns)))
    ensures quiet && c.healthy ==> r.Ok? || (r.error == DuplicateResources && old(!Passable(c.Now(), DesiredLabels(d, c.ns))))
    ensures quiet && c.healthy && old(c.Fine(DesiredLabels(d, c.ns))) ==> r.Ok?
    // A role that disappeared comes back under its name, and a correct binding is not written at all.
    ensures quiet && r.Ok? && old(c.recorded.role) != "" && old(c.recorded.binding) in old(c.bindings)
            && old(c.bindings)[old(c.recorded.binding)] == DesiredBinding(d, c.ns, old(c.recorded.role)) ==>
              && c.recorded == old(c.recorded)
              && c.roles == old(c.roles)[c.recorded.role := DesiredRole(d, c.ns)]
              && c.bindings == old(c.bindings) && c.bindingWrites == old(c.bindingWrites)
    // Undisturbed, no update of a binding is ever refused for its role reference.
    ensures quiet ==> r != Err(RoleRefImmutable)
    // The exact conditions under which an undisturbed pass from a tidy store leaves no duplicate.
    ensures quiet && r.Ok? && Tidy(c.ns, old(c.roles), old(c.recorded.role)) ==>
              (AtMostOne(c.ns, c.roles) <==> Findable(c.ns, old(c.roles), old(c.recorded.role), DesiredLabels(d, c.ns)))
    ensures quiet && r.Ok? && Tidy(c.ns, old(c.bindings), old(c.recorded.binding)) ==>
              (AtMostOne(c.ns, c.bindings) <==> Findable(c.ns, old(c.bindings), old(c.recorded.binding), DesiredLabels(d, c.ns)))
  {
    hide Findable, Tidy, AtMostOne, Chosen, Ambiguous, DesiredLabels, MovedSubjects, InPlace, Cluster.Fine, Cluster.Ahead;
    ghost var labels := DesiredLabels(d, c.ns);
    DesiredIsMine(d, c.ns);
    NeverAmbiguous(c, labels);
    var status := c.recorded;
    var role, status1 := CreateOrApplyClusterRoles(c, status, DesiredRole(d, c.ns), quiet);
    if role.Err? {
      ghost var t := c.history;
      ConditionUpdate(c, status1, labels, quiet);
      ExtendsTransitive(old(c.history), t, c.history);
      return Err(role.error);
    }
    ghost var t := c.history;
    var subjects := UpdateSubjects(d.subjects, d.serviceAccount, c.ns);
    var desired := Resource(DesiredLabels(d, c.ns), BindingSpec(role.value, subjects));
    var binding, status2 := CreateOrApplyClusterRoleBindings(c, status1, desired, quiet);
    ExtendsTransitive(old(c.history), t, c.history);
    t := c.history;
    ConditionUpdate(c, status2, labels, quiet);
    ExtendsTransitive(old(c.history), t, c.history);
    r := if binding.Err? then Err(binding.error) else Ok(());
    if quiet && r.Ok? {
      DesiredInPlace(c.Now(), d, c.ns);
      WriteTouchesOne(old(c.roles), c.recorded.role, DesiredRole(d, c.ns));
      WriteTouchesOne(old(c.bindings), c.recorded.binding, DesiredBinding(d, c.ns, c.recorded.role));
    }
  }

  lemma WriteTouchesOne<T>(objs: map<string, T>, name: string, value: T)
    ensures objs[name := value] - {name} == objs - {name}
  {
  }

  lemma NeverAmbiguous(c: Cluster, labels: Labels)
    requires Mine(c.ns, labels)
    ensures c.Fine(labels) ==> Passable(c.Now(), labels)
  {
    if c.Fine(labels) {
      TidyIsUnambiguous(c.ns, c.roles, c.recorded.role, labels);
      TidyIsUnambiguous(c.ns, c.bindings, c.recorded.binding, labels);
    }
  }

  /** The pass may also end without this write: no condition changed, or the process died. */
  method ConditionUpdate(c: Cluster, status: Recorded, ghost labels: Labels, quiet: bool)
    requires c.Valid()
    modifies c`roles, c`bindings, c`recorded, c`history, c`bindingWrites
    ensures c.Valid() && Extends(old(c.history), c.history)
    ensures c.recorded == old(c.recorded) || c.recorded == status
    ensures old(c.Fine(labels)) && old(c.Ahead(status)) ==> c.Fine(labels)
    ensures quiet ==> c.roles == old(c.roles) && c.bindings == old(c.bindings) && c.bindingWrites == old(c.bindingWrites)
  {
    if * {
      var _ := RecordStatus(c, status, labels, quiet);
    }
  }

  // ----- Runs -----

  /** A pass that nobody disturbs is `quiet`; one against a `healthy` API server meets no failure. */
  datatype Event = Pass(quiet: bool, healthy: bool) | OthersAct | Reconfigure(desired: Desired)

  /** The configuration in force after some events: the last edit that counted. */
  function LastCounted(desired: Desired, events: seq<Event>, passed: seq<bool>): Desired
    requires |events| == |passed|
  {
    if events == [] then desired
    else
      var n := |events| - 1;
      if events[n].Reconfigure? && passed[n] then events[n].desired else LastCounted(desired, events[..n], passed[..n])
  }

  /**
   Any sequence of passes, outside activity and spec edits, with failures anywhere. A spec
   edit counts when whatever is not recorded yet can be found by the new labels. In every
   state of the run, and of everything before it, there is at most one ClusterRole and one
   ClusterRoleBinding of the instance, and a name once recorded stays recorded. Every quiet
   pass against a healthy API server succeeds, whatever happened before it, and leaves
   everything as desired.
   */
  method Run(c: Cluster, desired: Desired, events: seq<Event>) returns (d: Desired, passed: seq<bool>)
    requires c.Fine(DesiredLabels(desired, c.ns))
    modifies c
    ensures c.Good() && Extends(old(c.history), c.history)
    ensures forall earlier :: Extends(earlier, c.history) ==>
                                && AtMostOne(c.ns, earlier.now.roles) && AtMostOne(c.ns, earlier.now.bindings)
                                && Keeps(earlier.now.recorded, c.recorded)
    ensures forall step :: Extends(step, c.history) && step.Step? ==> RoleRefStep(step.before.now, step.now)
    ensures |passed| == |events| && d == LastCounted(desired, events, passed)
    ensures forall i :: 0 <= i < |events| && events[i] == Pass(true, true) ==> passed[i]
    ensures events != [] && events[|events| - 1].Pass? && events[|events| - 1].quiet && passed[|events| - 1] ==> InPlace(c.Now(), d, c.ns)
  {
    hide DesiredLabels, InPlace;
    d, passed := desired, [];
    for i := 0 to |events|
      invariant c.Fine(DesiredLabels(d, c.ns)) && Extends(old(c.history), c.history)
      invariant |passed| == i && d == LastCounted(desired, events[..i], passed)
      invariant forall j :: 0 <= j < i && events[j] == Pass(true, true) ==> passed[j]
      invariant i > 0 && events[i - 1].Pass? && events[i - 1].quiet && passed[i - 1] ==> InPlace(c.Now(), d, c.ns)
    {
      var ok;
      d, ok := RunEvent(c, d, events[i]);
      assert events[..i + 1][..i] == events[..i] && (passed + [ok])[..i] == passed;
      passed := passed + [ok];
    }
    assert events[..|events|] == events;
    forall step | Extends(step, c.history) && step.Step?
      ensures RoleRefStep(step.before.now, step.now)
    {
      RoleRefsNeverChange(c.history, step);
    }
    forall earlier | Extends(earlier, c.history)
      ensures AtMostOne(c.ns, earlier.now.roles) && AtMostOne(c.ns, earlier.now.bindings)
      ensures Keeps(earlier.now.recorded, c.recorded)
    {
      SoundMeans(c.ns, c.history, earlier);
    }
  }

  method RunEvent(c: Cluster, desired: Desired, event: Event) returns (d: Desired, ok: bool)
    requires c.Fine(DesiredLabels(desired, c.ns))
    modifies c
    ensures c.Fine(DesiredLabels(d, c.ns))
    ensures forall t :: Extends(t, old(c.history)) ==> Extends(t, c.history)
    ensures event == Pass(true, true) ==> ok
    ensures event.Pass? && event.quiet && ok ==> InPlace(c.Now(), d, c.ns)
    ensures d == if event.Reconfigure? && ok then event.desired else desired
    ensures event.Reconfigure? ==> c.Now() == old(c.Now()) && (ok <==> c.Findables(DesiredLabels(event.desired, c.ns)))
  {
    hide DesiredLabels, InPlace;
    d, ok := desired, true;
    match event {
      case Pass(quiet, healthy) =>
        c.healthy := healthy;
        var r := ReconcileRbac(c, d, quiet);
        ok := r.Ok?;
      case OthersAct =>
        LetOthersAct(c, DesiredLabels(d, c.ns), "", "", false);
      case Reconfigure(next) =>
        ok := c.Findables(DesiredLabels(next, c.ns));
        if ok {
          d := next;
        }
    }
    forall t | Extends(t, old(c.history))
      ensures Extends(t, c.history)
    {
      ExtendsTransitive(t, old(c.history), c.history);
    }
  }
}
