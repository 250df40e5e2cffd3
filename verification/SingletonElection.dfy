/**
 Only one IstioCSR instance is processed: `disallowMultipleIstioCSRInstances` in
 pkg/controller/istiocsr/utils.go decides by creation timestamp and remembers a rejection
 in an annotation.

 The decision is a method with the source's loop. Around it is a transition system in which
 users create and delete instances while a reconcile is between reading its instance and
 listing the others, and in which every write may fail.
 */
module SingletonElection {
  import opened Outcomes

  /** `uid` is the server's identity of an object; a recreated object has another one. */
  datatype Instance = Instance(uid: nat, created: nat, rejected: bool)

  datatype Item = Item(namespace: string, instance: Instance)

  datatype Decision = Accept | Reject | AlreadyRejected | Failed

  // ----- The decision -----

  ghost predicate IsListing(items: seq<Item>, live: map<string, Instance>) {
    && |items| == |live|
    && (forall i :: 0 <= i < |items| ==> items[i].namespace in live && items[i].instance == live[items[i].namespace])
    && (forall ns :: ns in live ==> exists i :: 0 <= i < |items| && items[i].namespace == ns)
  }

  /** Strictly older than every instance in another namespace. */
  predicate Oldest(live: map<string, Instance>, namespace: string, created: nat) {
    forall ns :: ns in live && ns != namespace ==> created < live[ns].created
  }

  /** `read` is the instance as the reconcile read it, `listed` the later listing, or `None` when it failed. */
  ghost function Decide(read: Instance, namespace: string, listed: Option<map<string, Instance>>): Decision {
    if read.rejected then AlreadyRejected
    else if listed.None? then Failed
    else if |listed.value| <= 1 || Oldest(listed.value, namespace, read.created) then Accept
    else Reject
  }

  method DisallowMultipleInstances(read: Instance, namespace: string, list: Option<seq<Item>>, ghost live: map<string, Instance>)
    returns (d: Decision)
    requires list.Some? ==> IsListing(list.value, live)
    ensures d == Decide(read, namespace, if list.Some? then Some(live) else None)
    ensures d == AlreadyRejected <==> read.rejected
    ensures d == Failed <==> !read.rejected && list.None?
    ensures d == Reject <==>
            && !read.rejected && list.Some? && |list.value| > 1
            && exists i :: 0 <= i < |list.value| && list.value[i].namespace != namespace && list.value[i].instance.created <= read.created
  {
    if read.rejected {
      return AlreadyRejected;
    }
    if list.None? {
      return Failed;
    }
    var items := list.value;
    if |items| <= 1 {
      return Accept;
    }
    var ignoreProcessing := false;
    for i := 0 to |items|
      invariant ignoreProcessing <==>
                exists j :: 0 <= j < i && items[j].namespace != namespace && items[j].instance.created <= read.created
    {
      if items[i].namespace == namespace {
        continue;
      }
      if items[i].instance.created < read.created || items[i].instance.created == read.created {
        ignoreProcessing := true;
      }
    }
    if ignoreProcessing {
      var j :| 0 <= j < |items| && items[j].namespace != namespace && items[j].instance.created <= read.created;
      assert items[j].namespace in live;
      return Reject;
    }
    forall ns | ns in live && ns != namespace
      ensures read.created < live[ns].created
    {
      var j :| 0 <= j < |items| && items[j].namespace == ns;
    }
    return Accept;
  }

  /** A live instance without the annotation is accepted exactly when it is strictly older than all others. */
  lemma AcceptedExactlyWhenOldest(live: map<string, Instance>, namespace: string)
    requires namespace in live && !live[namespace].rejected
    ensures Decide(live[namespace], namespace, Some(live)) == Accept <==> Oldest(live, namespace, live[namespace].created)
  {
    if |live| <= 1 {
      assert live.Keys == {namespace} by {
        var rest := live.Keys - {namespace};
        assert |live.Keys| == |rest| + 1;
      }
    }
  }

  // ----- The transition system -----

  /**
   `reading` holds what the running reconciles have read, one per namespace at most.
   `accepted` and `rejected` are histories: the identities ever accepted, and those whose
   rejection was ever persisted.
   */
  datatype State = State(
    live: map<string, Instance>,
    reading: map<string, Instance>,
    clock: nat,
    nextUid: nat,
    accepted: set<nat>,
    rejected: set<nat>)

  datatype Action =
    | Create(namespace: string, created: nat, annotated: bool)
    | Delete(namespace: string)
    | Read(namespace: string)
    | Finish(namespace: string, listOk: bool, annotationWritten: bool)

  const INIT := State(map[], map[], 0, 0, {}, {})

  predicate Enabled(s: State, a: Action) {
    match a
    case Create(namespace, created, _) => namespace !in s.live && s.clock <= created
    case Delete(namespace) => namespace in s.live
    case Read(namespace) => namespace in s.live && namespace !in s.reading
    case Finish(namespace, _, _) => namespace in s.reading
  }

  ghost function Apply(s: State, a: Action): State
    requires Enabled(s, a)
  {
    match a
    case Create(namespace, created, annotated) =>
      s.(live := s.live[namespace := Instance(s.nextUid, created, annotated)],
         clock := created,
         nextUid := s.nextUid + 1,
         rejected := if annotated then s.rejected + {s.nextUid} else s.rejected)
    case Delete(namespace) => s.(live := s.live - {namespace})
    case Read(namespace) => s.(reading := s.reading[namespace := s.live[namespace]])
    case Finish(namespace, listOk, annotationWritten) =>
      var read := s.reading[namespace];
      var done := s.(reading := s.reading - {namespace});
      match Decide(read, namespace, if listOk then Some(s.live) else None)
      case Accept => done.(accepted := s.accepted + {read.uid})
      case Reject =>
        // The server refuses the annotation when the object is gone or is another one by now.
        if annotationWritten && namespace in s.live && s.live[namespace].uid == read.uid then
          done.(live := s.live[namespace := s.live[namespace].(rejected := true)], rejected := s.rejected + {read.uid})
        else done
      case AlreadyRejected => done
      case Failed => done
  }

  ghost function Run(s: State, actions: seq<Action>): State {
    if actions == [] then s
    else
      var before := Run(s, actions[..|actions| - 1]);
      var a := actions[|actions| - 1];
      if Enabled(before, a) then Apply(before, a) else before
  }

  /** At most one live instance has ever been accepted. */
  ghost predicate SingleAccepted(s: State) {
    forall m, n :: m in s.live && n in s.live && s.live[m].uid in s.accepted && s.live[n].uid in s.accepted ==> m == n
  }

  /** Identities are never reused, and creation times never exceed the clock. */
  ghost predicate Fresh(s: State) {
    && (forall n :: n in s.live ==> s.live[n].uid < s.nextUid && s.live[n].created <= s.clock)
    && (forall n :: n in s.reading ==> s.reading[n].uid < s.nextUid)
    && (forall u :: u in s.accepted ==> u < s.nextUid)
    && (forall u :: u in s.rejected ==> u < s.nextUid)
  }

  ghost predicate UniqueUids(s: State) {
    forall m, n :: m in s.live && n in s.live && s.live[m].uid == s.live[n].uid ==> m == n
  }

  /** What a reconcile read is still true of the object if the object is still there. */
  ghost predicate Current(s: State) {
    forall m, n :: m in s.reading && n in s.live && s.reading[m].uid == s.live[n].uid ==> m == n && s.reading[m] == s.live[n]
  }

  /** A persisted rejection is visible wherever the object is seen. */
  ghost predicate Remembered(s: State) {
    && (forall n :: n in s.live && s.live[n].uid in s.rejected ==> s.live[n].rejected)
    && (forall n :: n in s.reading && s.reading[n].uid in s.rejected ==> s.reading[n].rejected)
  }

  /** An accepted live instance is at least as old as every other one. */
  ghost predicate Elder(s: State) {
    forall m, n :: m in s.live && n in s.live && s.live[m].uid in s.accepted ==> s.live[m].created <= s.live[n].created
  }

  ghost predicate Invariant(s: State) {
    Fresh(s) && UniqueUids(s) && Current(s) && Remembered(s) && Elder(s) && SingleAccepted(s)
  }

  lemma FreshKept(s: State, a: Action)
    requires Enabled(s, a) && Fresh(s)
    ensures Fresh(Apply(s, a))
  {
    var next := Apply(s, a);
    match a
    case Create(_, _, _) =>
    case Delete(_) =>
    case Read(_) =>
    case Finish(namespace, _, _) =>
      var read := s.reading[namespace];
      assert next.accepted <= s.accepted + {read.uid} && next.rejected <= s.rejected + {read.uid};
      assert forall n :: n in next.live ==> n in s.live && next.live[n].uid == s.live[n].uid && next.live[n].created == s.live[n].created;
  }

  lemma UniqueUidsKept(s: State, a: Action)
    requires Enabled(s, a) && Fresh(s) && UniqueUids(s)
    ensures UniqueUids(Apply(s, a))
  {
    var next := Apply(s, a);
    assert forall n :: n in next.live && n in s.live && !a.Create? ==> next.live[n].uid == s.live[n].uid;
  }

  lemma CurrentKept(s: State, a: Action)
    requires Enabled(s, a) && Fresh(s) && UniqueUids(s) && Current(s)
    ensures Current(Apply(s, a))
  {
    if a.Finish? {
      var next := Apply(s, a);
      forall m, n | m in next.reading && n in next.live && next.reading[m].uid == next.live[n].uid
        ensures m == n && next.reading[m] == next.live[n]
      {
        assert m in s.reading && n in s.live && s.live[n].uid == next.live[n].uid;
        assert n != a.namespace;
      }
    }
  }

  lemma RememberedKept(s: State, a: Action)
    requires Enabled(s, a) && Fresh(s) && Current(s) && Remembered(s)
    ensures Remembered(Apply(s, a))
  {
    if a.Finish? {
      var next, uid := Apply(s, a), s.reading[a.namespace].uid;
      assert next.rejected <= s.rejected + {uid};
    }
  }

  lemma ElderKept(s: State, a: Action)
    requires Enabled(s, a) && Fresh(s) && Current(s) && Elder(s) && SingleAccepted(s)
    ensures Elder(Apply(s, a)) && SingleAccepted(Apply(s, a))
  {
    if a.Finish? {
      var read := s.reading[a.namespace];
      if Decide(read, a.namespace, if a.listOk then Some(s.live) else None) == Accept {
        AcceptKeepsElder(s, a.namespace);
      }
    }
  }

  lemma AcceptKeepsElder(s: State, namespace: string)
    requires namespace in s.reading && !s.reading[namespace].rejected
    requires |s.live| <= 1 || Oldest(s.live, namespace, s.reading[namespace].created)
    requires Current(s) && Elder(s) && SingleAccepted(s)
    ensures var next := s.(accepted := s.accepted + {s.reading[namespace].uid}); Elder(next) && SingleAccepted(next)
  {
    var read := s.reading[namespace];
    if namespace in s.live && s.live[namespace].uid == read.uid {
      AcceptedExactlyWhenOldest(s.live, namespace);
      assert forall n :: n in s.live && s.live[n].uid in s.accepted ==> n == namespace;
    } else {
      assert forall n :: n in s.live ==> s.live[n].uid != read.uid;
    }
  }

  lemma StepKeeps(s: State, a: Action)
    requires Invariant(s) && Enabled(s, a)
    ensures Invariant(Apply(s, a))
  {
    FreshKept(s, a);
    UniqueUidsKept(s, a);
    CurrentKept(s, a);
    RememberedKept(s, a);
    ElderKept(s, a);
  }

  /** For every interleaving, with writes failing anywhere, at most one live instance has ever been accepted. */
  lemma {:induction false} AtMostOneAccepted(actions: seq<Action>)
    ensures Invariant(Run(INIT, actions)) && SingleAccepted(Run(INIT, actions))
  {
    if actions != [] {
      var init, a := actions[..|actions| - 1], actions[|actions| - 1];
      AtMostOneAccepted(init);
      if Enabled(Run(INIT, init), a) {
        StepKeeps(Run(INIT, init), a);
      }
    }
  }

  /** An instance whose rejection was persisted is not accepted by anything that happens later. */
  lemma {:induction false} RejectionIsFinal(before: seq<Action>, later: seq<Action>, uid: nat)
    requires uid in Run(INIT, before).rejected
    ensures uid in Run(INIT, before + later).rejected
    ensures uid in Run(INIT, before + later).accepted ==> uid in Run(INIT, before).accepted
  {
    if later == [] {
      assert before + later == before;
    } else {
      var init, a := later[..|later| - 1], later[|later| - 1];
      RejectionIsFinal(before, init, uid);
      AtMostOneAccepted(before + init);
      assert (before + later)[..|before + later| - 1] == before + init;
      assert (before + later)[|before + later| - 1] == a;
    }
  }

  /** Another live instance is at least as old. */
  ghost predicate Preceded(s: State, namespace: string, created: nat) {
    exists other :: other in s.live && other != namespace && s.live[other].created <= created
  }

  /** When a step rejects an instance for good: it is created so, or a listing succeeded and showed one at least as old. */
  ghost predicate Rejects(s: State, a: Action, uid: nat) {
    match a
    case Create(_, _, annotated) => annotated && uid == s.nextUid
    case Finish(namespace, listOk, annotationWritten) =>
      && namespace in s.reading && uid == s.reading[namespace].uid && !s.reading[namespace].rejected
      && listOk && annotationWritten && namespace in s.live && s.live[namespace].uid == uid
      && |s.live| > 1 && Preceded(s, namespace, s.reading[namespace].created)
    case _ => false
  }

  /** When a step accepts an instance: it was read without the annotation, and a listing succeeded that shows none as old. */
  ghost predicate Accepts(s: State, a: Action, uid: nat) {
    && a.Finish? && a.namespace in s.reading && uid == s.reading[a.namespace].uid && !s.reading[a.namespace].rejected
    && a.listOk && (|s.live| <= 1 || !Preceded(s, a.namespace, s.reading[a.namespace].created))
  }

  /** Exactly these steps reject and accept, and a reconcile whose listing fails changes nothing that is stored. */
  lemma StepVerdicts(s: State, a: Action, uid: nat)
    requires Enabled(s, a)
    ensures uid in Apply(s, a).rejected <==> uid in s.rejected || Rejects(s, a, uid)
    ensures uid in Apply(s, a).accepted <==> uid in s.accepted || Accepts(s, a, uid)
    ensures a.Finish? && !a.listOk ==> Apply(s, a) == s.(reading := s.reading - {a.namespace})
  {
    if a.Finish? {
      var created := s.reading[a.namespace].created;
      assert Oldest(s.live, a.namespace, created) <==> !Preceded(s, a.namespace, created);
    }
  }

  ghost predicate RejectedAt(actions: seq<Action>, i: nat, uid: nat) {
    i < |actions| && Enabled(Run(INIT, actions[..i]), actions[i]) && Rejects(Run(INIT, actions[..i]), actions[i], uid)
  }

  ghost predicate AcceptedAt(actions: seq<Action>, i: nat, uid: nat) {
    i < |actions| && Enabled(Run(INIT, actions[..i]), actions[i]) && Accepts(Run(INIT, actions[..i]), actions[i], uid)
  }

  lemma PrefixVerdicts(actions: seq<Action>, i: nat, uid: nat)
    requires i < |actions| - 1
    ensures RejectedAt(actions, i, uid) <==> RejectedAt(actions[..|actions| - 1], i, uid)
    ensures AcceptedAt(actions, i, uid) <==> AcceptedAt(actions[..|actions| - 1], i, uid)
  {
    assert actions[..|actions| - 1][..i] == actions[..i];
  }

  /** Over every run, the rejected and the accepted are those whom some step rejected or accepted. */
  lemma {:induction false} VerdictsComeFromSteps(actions: seq<Action>, uid: nat)
    ensures uid in Run(INIT, actions).rejected <==> exists i :: RejectedAt(actions, i, uid)
    ensures uid in Run(INIT, actions).accepted <==> exists i :: AcceptedAt(actions, i, uid)
  {
    hide Rejects, Accepts, Enabled, Apply;
    if actions != [] {
      var n := |actions| - 1;
      VerdictsComeFromSteps(actions[..n], uid);
      forall i: nat | i < n
        ensures RejectedAt(actions, i, uid) <==> RejectedAt(actions[..n], i, uid)
        ensures AcceptedAt(actions, i, uid) <==> AcceptedAt(actions[..n], i, uid)
      {
        PrefixVerdicts(actions, i, uid);
      }
      LastVerdict(actions, uid);
      hide RejectedAt, AcceptedAt;
    }
  }

  lemma LastVerdict(actions: seq<Action>, uid: nat)
    requires actions != []
    ensures var n := |actions| - 1;
            && (uid in Run(INIT, actions).rejected <==> uid in Run(INIT, actions[..n]).rejected || RejectedAt(actions, n, uid))
            && (uid in Run(INIT, actions).accepted <==> uid in Run(INIT, actions[..n]).accepted || AcceptedAt(actions, n, uid))
  {
    hide Rejects, Accepts, Apply;
    var n := |actions| - 1;
    if Enabled(Run(INIT, actions[..n]), actions[n]) {
      StepVerdicts(Run(INIT, actions[..n]), actions[n], uid);
    }
  }

  /** An accepted instance can be rejected later only by one created at the very same time. */
  lemma AcceptedLosesOnlyToTies(actions: seq<Action>, i: nat, uid: nat)
    requires RejectedAt(actions, i, uid) && uid in Run(INIT, actions[..i]).accepted
    ensures var s := Run(INIT, actions[..i]);
            && actions[i].Finish? && actions[i].namespace in s.live
            && exists other :: other in s.live && other != actions[i].namespace && s.live[other].created == s.live[actions[i].namespace].created
  {
    AtMostOneAccepted(actions[..i]);
    var s, a := Run(INIT, actions[..i]), actions[i];
    if a.Finish? {
      var other :| other in s.live && other != a.namespace && s.live[other].created <= s.reading[a.namespace].created;
      assert s.reading[a.namespace] == s.live[a.namespace];
    }
  }

  /**
   It does happen: an instance is accepted, another one is created within the resolution of the
   clock, and at its next reconcile the first one is rejected, too.
   */
  lemma AcceptedThenRejected()
    ensures var actions := [Create("a", 0, false), Read("a"), Finish("a", true, true), Create("b", 0, false), Read("a"), Finish("a", true, true)];
            0 in Run(INIT, actions[..3]).accepted && 0 in Run(INIT, actions).rejected
  {
    var actions := [Create("a", 0, false), Read("a"), Finish("a", true, true), Create("b", 0, false), Read("a"), Finish("a", true, true)];
    var first := Instance(0, 0, false);
    StepOf(actions, 0);
    StepOf(actions, 1);
    assert Run(INIT, actions[..2]) == State(map["a" := first], map["a" := first], 0, 1, {}, {});
    StepOf(actions, 2);
    assert Run(INIT, actions[..3]) == State(map["a" := first], map[], 0, 1, {0}, {});
    StepOf(actions, 3);
    var both := map["a" := first, "b" := Instance(1, 0, false)];
    assert "a" != "b";
    assert Run(INIT, actions[..4]) == State(both, map[], 0, 2, {0}, {});
    StepOf(actions, 4);
    assert Run(INIT, actions[..5]) == State(both, map["a" := first], 0, 2, {0}, {});
    assert |both| == 2 && both["b"].created == 0;
    StepOf(actions, 5);
    assert actions[..6] == actions;
  }

  lemma StepOf(actions: seq<Action>, i: nat)
    requires i < |actions|
    ensures var before := Run(INIT, actions[..i]);
            Run(INIT, actions[..i + 1]) == if Enabled(before, actions[i]) then Apply(before, actions[i]) else before
    ensures Run(INIT, actions[..0]) == INIT
  {
    assert actions[..i + 1][..i] == actions[..i];
    assert actions[..0] == [];
  }

  /** A decision on a listing that shows another instance of the same age is never to accept. */
  lemma TiesAreRejected(s: State, m: string, n: string)
    requires m in s.live && n in s.live && m != n && s.live[m].created == s.live[n].created
    ensures Decide(s.live[m], m, Some(s.live)) != Accept
  {
    assert {m, n} <= s.live.Keys;
    assert |s.live.Keys| >= 2 by {
      var rest := s.live.Keys - {m};
      assert n in rest;
      assert |s.live.Keys| == |rest| + 1;
    }
  }
}
