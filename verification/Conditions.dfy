/**
 Status conditions and how a reconcile outcome is reported
 (api/operator/v1alpha1/conditions.go and pkg/controller/common/reconcile_result.go).

 `Set` and `Report` are the specification of the in-place updates. Runs of outcomes are folds
 of `Report`, where a status write may get lost, or may be committed although the controller
 is told that it failed.
 */
module Conditions {
  import opened Outcomes
  import Errors = ReconcileErrors

  datatype Condition = Condition(kind: string, status: string, reason: string, message: string, transition: nat)

  const DEGRADED := "Degraded"
  const READY := "Ready"
  const TRUE := "True"
  const FALSE := "False"
  const REASON_FAILED := "Failed"
  const REASON_READY := "Ready"
  const REASON_PROGRESSING := "Progressing"

  ghost predicate UniqueKinds(conditions: seq<Condition>) {
    forall i, j :: 0 <= i < j < |conditions| ==> conditions[i].kind != conditions[j].kind
  }

  /** The condition of a kind, the first one as `GetCondition` finds it. */
  function Get(conditions: seq<Condition>, kind: string): Option<Condition> {
    if conditions == [] then None
    else if conditions[0].kind == kind then Some(conditions[0])
    else Get(conditions[1..], kind)
  }

  predicate Holds(c: Option<Condition>, status: string, reason: string) {
    c.Some? && c.value.status == status && c.value.reason == reason
  }

  /** Sets a condition: unchanged when status and reason are already there, even if the message differs. */
  function Set(conditions: seq<Condition>, c: Condition): seq<Condition> {
    if conditions == [] then [c]
    else if conditions[0].kind == c.kind then
      if conditions[0].status == c.status && conditions[0].reason == c.reason then conditions
      else [c] + conditions[1..]
    else [conditions[0]] + Set(conditions[1..], c)
  }

  lemma {:induction false} SetThenGet(conditions: seq<Condition>, c: Condition, kind: string)
    ensures Get(Set(conditions, c), kind) ==
            if kind != c.kind || Holds(Get(conditions, c.kind), c.status, c.reason) then Get(conditions, kind) else Some(c)
    ensures Set(conditions, c) == conditions <==> Holds(Get(conditions, c.kind), c.status, c.reason)
  {
    if conditions != [] && conditions[0].kind != c.kind {
      SetThenGet(conditions[1..], c, kind);
      var updated := Set(conditions, c);
      assert updated[1..] == Set(conditions[1..], c);
      assert conditions == [conditions[0]] + conditions[1..];
    } else if conditions != [] {
      var updated := [c] + conditions[1..];
      assert updated[0] == c && updated[1..] == conditions[1..];
    }
  }

  lemma {:induction false} SetKeepsUnique(conditions: seq<Condition>, c: Condition)
    requires UniqueKinds(conditions)
    ensures UniqueKinds(Set(conditions, c))
    ensures forall i :: 0 <= i < |Set(conditions, c)| ==>
                          Set(conditions, c)[i].kind == c.kind || exists j :: 0 <= j < |conditions| && conditions[j].kind == Set(conditions, c)[i].kind
  {
    if conditions != [] && conditions[0].kind != c.kind {
      var rest := conditions[1..];
      SetKeepsUnique(rest, c);
      var updated := Set(rest, c);
      forall i | 0 <= i < |updated|
        ensures updated[i].kind != conditions[0].kind
        ensures updated[i].kind == c.kind || exists j :: 0 <= j < |conditions| && conditions[j].kind == updated[i].kind
      {
        if updated[i].kind != c.kind {
          var j :| 0 <= j < |rest| && rest[j].kind == updated[i].kind;
          assert conditions[j + 1].kind == updated[i].kind;
        }
      }
    }
  }

  class ConditionalStatus {
    var conditions: seq<Condition>

    constructor (conditions: seq<Condition>)
      ensures this.conditions == conditions
    {
      this.conditions := conditions;
    }

    /** The index of the first condition of a kind. */
    method GetCondition(kind: string) returns (index: Option<nat>)
      ensures index.Some? ==> index.value < |conditions| && Get(conditions, kind) == Some(conditions[index.value])
      ensures index.Some? ==> conditions[index.value].kind == kind
      ensures index.Some? ==> forall j :: 0 <= j < index.value ==> conditions[j].kind != kind
      ensures index.None? ==> Get(conditions, kind) == None && forall j :: 0 <= j < |conditions| ==> conditions[j].kind != kind
    {
      for i := 0 to |conditions|
        invariant forall j :: 0 <= j < i ==> conditions[j].kind != kind
        invariant Get(conditions, kind) == Get(conditions[i..], kind)
      {
        if conditions[i].kind == kind {
          return Some(i);
        }
        assert conditions[i..][1..] == conditions[i + 1..];
      }
      return None;
    }

    /** Appends or overwrites in place, and reports whether anything changed. */
    method SetCondition(kind: string, status: string, reason: string, message: string, now: nat) returns (changed: bool)
      modifies this
      ensures conditions == Set(old(conditions), Condition(kind, status, reason, message, now))
      ensures changed <==> !Holds(Get(old(conditions), kind), status, reason)
    {
      var c := Condition(kind, status, reason, message, now);
      var index := GetCondition(kind);
      if index.None? {
        SetAppends(conditions, c);
        conditions := conditions + [c];
        return true;
      }
      SetOverwrites(conditions, c, index.value);
      var found := conditions[index.value];
      if found.status != status || found.reason != reason {
        conditions := conditions[index.value := c];
        return true;
      }
      return false;
    }
  }

  lemma {:induction false} SetAppends(conditions: seq<Condition>, c: Condition)
    requires forall j :: 0 <= j < |conditions| ==> conditions[j].kind != c.kind
    ensures Set(conditions, c) == conditions + [c]
  {
    if conditions != [] {
      SetAppends(conditions[1..], c);
    }
  }

  lemma {:induction false} SetOverwrites(conditions: seq<Condition>, c: Condition, i: nat)
    requires i < |conditions| && conditions[i].kind == c.kind
    requires forall j :: 0 <= j < i ==> conditions[j].kind != c.kind
    ensures Set(conditions, c) ==
            if conditions[i].status == c.status && conditions[i].reason == c.reason then conditions else conditions[i := c]
  {
    if i > 0 {
      SetOverwrites(conditions[1..], c, i - 1);
      assert conditions == [conditions[0]] + conditions[1..];
    }
  }

  // ----- Reporting an outcome -----

  /**
   What a reconcile ended with, as far as the conditions are concerned. `Rejected` is the
   verdict on an instance that is not the only one, which leaves Degraded as it is.
   */
  datatype Outcome = Success | Retrying | Irrecoverable | Rejected

  /** The conditions an outcome speaks about. */
  predicate Touches(outcome: Outcome, kind: string) {
    kind == READY || (kind == DEGRADED && !outcome.Rejected?)
  }

  function Status(outcome: Outcome, kind: string): string {
    if kind == DEGRADED then (if outcome.Irrecoverable? then TRUE else FALSE)
    else (if outcome.Success? then TRUE else FALSE)
  }

  function ReasonFor(outcome: Outcome, kind: string): string {
    match outcome
    case Success => REASON_READY
    case Retrying => if kind == DEGRADED then REASON_READY else REASON_PROGRESSING
    case Irrecoverable => REASON_FAILED
    case Rejected => REASON_FAILED
  }

  function Message(outcome: Outcome, kind: string, text: string): string {
    match outcome
    case Success => if kind == DEGRADED then "" else "reconciliation successful"
    case Retrying => if kind == DEGRADED then "" else "reconciliation failed, retrying: " + text
    case Irrecoverable => if kind == DEGRADED then "reconciliation failed with irrecoverable error not retrying: " + text else ""
    case Rejected => "multiple instances of istiocsr exists, " + text + " will not be processed"
  }

  function Reported(outcome: Outcome, kind: string, text: string, now: nat): Condition {
    Condition(kind, Status(outcome, kind), ReasonFor(outcome, kind), Message(outcome, kind, text), now)
  }

  function Report(conditions: seq<Condition>, outcome: Outcome, text: string, now: nat): seq<Condition> {
    Set(if outcome.Rejected? then conditions else Set(conditions, Reported(outcome, DEGRADED, text, now)), Reported(outcome, READY, text, now))
  }

  predicate HoldsFor(conditions: seq<Condition>, outcome: Outcome, kind: string) {
    Holds(Get(conditions, kind), Status(outcome, kind), ReasonFor(outcome, kind))
  }

  /** The conditions already say what this outcome would report. */
  predicate Shows(conditions: seq<Condition>, outcome: Outcome) {
    (Touches(outcome, DEGRADED) ==> HoldsFor(conditions, outcome, DEGRADED)) && HoldsFor(conditions, outcome, READY)
  }

  lemma ReportThenGet(conditions: seq<Condition>, outcome: Outcome, text: string, now: nat, kind: string)
    ensures Get(Report(conditions, outcome, text, now), kind) ==
            if Touches(outcome, kind) && !HoldsFor(conditions, outcome, kind)
            then Some(Reported(outcome, kind, text, now)) else Get(conditions, kind)
    ensures Report(conditions, outcome, text, now) == conditions <==> Shows(conditions, outcome)
  {
    assert DEGRADED[0] != READY[0];
    var degraded, ready := Reported(outcome, DEGRADED, text, now), Reported(outcome, READY, text, now);
    var before := if outcome.Rejected? then conditions else Set(conditions, degraded);
    SetThenGet(conditions, degraded, kind);
    SetThenGet(conditions, degraded, READY);
    SetThenGet(conditions, degraded, DEGRADED);
    SetThenGet(before, ready, kind);
    SetThenGet(before, ready, DEGRADED);
    SetThenGet(before, ready, READY);
  }

  /**
   After reporting, the conditions show this outcome, and another one only where a rejection
   and an irrecoverable failure look alike; a ready operand is never degraded.
   */
  lemma ReportShows(conditions: seq<Condition>, outcome: Outcome, text: string, now: nat, other: Outcome)
    ensures Shows(Report(conditions, outcome, text, now), other) <==>
            || other == outcome
            || (other.Rejected? && outcome.Irrecoverable?)
            || (other.Irrecoverable? && outcome.Rejected? && HoldsFor(conditions, Irrecoverable, DEGRADED))
    ensures ReadyExcludesDegraded(Report(conditions, outcome, text, now))
    ensures UniqueKinds(conditions) ==> UniqueKinds(Report(conditions, outcome, text, now))
  {
    hide Report, Message, Get, UniqueKinds;
    assert DEGRADED[0] != READY[0];
    ReportThenGet(conditions, outcome, text, now, READY);
    ReportThenGet(conditions, outcome, text, now, DEGRADED);
    ReasonsDiffer();
    if UniqueKinds(conditions) {
      ReportKeepsUnique(conditions, outcome, text, now);
    }
  }

  /** A ready condition is there, and if it is true the operand is known not to be degraded. */
  ghost predicate ReadyExcludesDegraded(conditions: seq<Condition>) {
    && Get(conditions, READY).Some?
    && (Get(conditions, READY).value.status == TRUE ==> Get(conditions, DEGRADED).Some? && Get(conditions, DEGRADED).value.status == FALSE)
  }

  lemma ReportKeepsUnique(conditions: seq<Condition>, outcome: Outcome, text: string, now: nat)
    requires UniqueKinds(conditions)
    ensures UniqueKinds(Report(conditions, outcome, text, now))
  {
    SetKeepsUnique(conditions, Reported(outcome, DEGRADED, text, now));
    SetKeepsUnique(Set(conditions, Reported(outcome, DEGRADED, text, now)), Reported(outcome, READY, text, now));
    SetKeepsUnique(conditions, Reported(outcome, READY, text, now));
  }

  lemma ReasonsDiffer()
    ensures REASON_FAILED != REASON_READY && REASON_FAILED != REASON_PROGRESSING && REASON_READY != REASON_PROGRESSING
    ensures TRUE != FALSE
  {
    assert REASON_FAILED[0] == 'F' && REASON_READY[0] == 'R' && REASON_PROGRESSING[0] == 'P';
    assert TRUE[0] == 'T' && FALSE[0] == 'F';
  }

  // ----- HandleReconcileResult -----

  datatype ControlResult = ControlResult(requeue: bool, error: Option<Errors.Error>)

  /** What became of a status write. Only `Answered` is reported to the controller as a success. */
  datatype Fate = Answered | Unanswered | Lost

  predicate Committed(fate: Fate) {
    !fate.Lost?
  }

  /** The persisted conditions, with counts of the writes attempted and committed. */
  class StatusStore {
    var persisted: seq<Condition>
    var attempts: nat
    var commits: nat

    constructor (persisted: seq<Condition>)
      ensures this.persisted == persisted && attempts == 0 && commits == 0
    {
      this.persisted, attempts, commits := persisted, 0, 0;
    }

    /** `updateCondition`: on success it hands back the error it was given. A failure says nothing about the commit. */
    method UpdateCondition(conditions: seq<Condition>, prependErr: Option<Errors.Error>) returns (err: Option<Errors.Error>, ghost fate: Fate)
      modifies this
      ensures attempts == old(attempts) + 1 && commits == old(commits) + if Committed(fate) then 1 else 0
      ensures persisted == if Committed(fate) then conditions else old(persisted)
      ensures fate.Answered? ==> err == prependErr
      ensures !fate.Answered? ==> err.Some? && !Errors.IsIrrecoverable(err.value)
    {
      attempts := attempts + 1;
      var lost: bool, unanswered: bool := *, *;
      if !lost {
        persisted, commits := conditions, commits + 1;
      }
      if lost || unanswered {
        var failure := Errors.Wrapped(Errors.Plain("failed to update status"));
        fate := if lost then Lost else Unanswered;
        return Some(if prependErr.Some? then Errors.Aggregate([prependErr.value, failure]) else failure), fate;
      }
      return prependErr, Answered;
    }
  }

  function OutcomeOf(err: Option<Errors.Error>): Outcome {
    if err.None? then Success else if Errors.IsIrrecoverable(err.value) then Irrecoverable else Retrying
  }

  /** What the conditions say after a reconcile with this result. */
  ghost predicate SaysResult(conditions: seq<Condition>, reconcileErr: Option<Errors.Error>) {
    if reconcileErr.None? then
      Holds(Get(conditions, "Ready"), "True", "Ready") && Holds(Get(conditions, "Degraded"), "False", "Ready")
    else if Errors.IsIrrecoverable(reconcileErr.value) then
      Holds(Get(conditions, "Ready"), "False", "Failed") && Holds(Get(conditions, "Degraded"), "True", "Failed")
    else
      Holds(Get(conditions, "Ready"), "False", "Progressing") && Holds(Get(conditions, "Degraded"), "False", "Ready")
  }

  /** A condition is the one there was, if that says the same, or a new one with this message and time. */
  ghost predicate KeptOrNew(before: seq<Condition>, after: seq<Condition>, kind: string, message: string, now: nat) {
    && Get(after, kind).Some?
    && var c := Get(after, kind).value;
    && c.kind == kind
    && if Holds(Get(before, kind), c.status, c.reason) then Get(after, kind) == Get(before, kind) else c.message == message && c.transition == now
  }

  ghost predicate MessagesFor(before: seq<Condition>, after: seq<Condition>, reconcileErr: Option<Errors.Error>, text: string, now: nat) {
    if reconcileErr.None? then
      KeptOrNew(before, after, "Ready", "reconciliation successful", now) && KeptOrNew(before, after, "Degraded", "", now)
    else if Errors.IsIrrecoverable(reconcileErr.value) then
      && KeptOrNew(before, after, "Ready", "", now)
      && KeptOrNew(before, after, "Degraded", "reconciliation failed with irrecoverable error not retrying: " + text, now)
    else
      && KeptOrNew(before, after, "Ready", "reconciliation failed, retrying: " + text, now)
      && KeptOrNew(before, after, "Degraded", "", now)
  }

  lemma {:induction false} GetKind(conditions: seq<Condition>, kind: string)
    ensures Get(conditions, kind).Some? ==> Get(conditions, kind).value.kind == kind
  {
    if conditions != [] {
      GetKind(conditions[1..], kind);
    }
  }

  /** Reporting one kind, whatever the outcome. */
  lemma ReportKeptOrNew(conditions: seq<Condition>, outcome: Outcome, text: string, now: nat, kind: string)
    requires Touches(outcome, kind)
    ensures var after := Report(conditions, outcome, text, now);
            && Holds(Get(after, kind), Status(outcome, kind), ReasonFor(outcome, kind))
            && KeptOrNew(conditions, after, kind, Message(outcome, kind, text), now)
  {
    hide Get, Report, Message;
    ReportThenGet(conditions, outcome, text, now, kind);
    GetKind(conditions, kind);
  }

  lemma ReportSays(conditions: seq<Condition>, reconcileErr: Option<Errors.Error>, text: string, now: nat)
    ensures var after := Report(conditions, OutcomeOf(reconcileErr), text, now);
            SaysResult(after, reconcileErr) && MessagesFor(conditions, after, reconcileErr, text, now)
  {
    hide Get, Report, KeptOrNew;
    ReportKeptOrNew(conditions, OutcomeOf(reconcileErr), text, now, READY);
    ReportKeptOrNew(conditions, OutcomeOf(reconcileErr), text, now, DEGRADED);
  }

  /**
   The conditions read from the store are updated in memory and written back exactly when
   they change. A retryable failure is answered by an error or by a timed requeue, never by
   both and never by neither; an irrecoverable one only by the failure of the write.
   */
  method HandleReconcileResult(status: ConditionalStatus, store: StatusStore, reconcileErr: Option<Errors.Error>, text: string, now: nat)
    returns (result: ControlResult, ghost fate: Fate)
    requires status.conditions == store.persisted
    modifies status, store
    ensures SaysResult(status.conditions, reconcileErr) && MessagesFor(old(status.conditions), status.conditions, reconcileErr, text, now)
    ensures status.conditions == Report(old(status.conditions), OutcomeOf(reconcileErr), text, now)
    ensures store.attempts == old(store.attempts) + if Shows(old(store.persisted), OutcomeOf(reconcileErr)) then 0 else 1
    ensures store.commits == old(store.commits) + if Shows(old(store.persisted), OutcomeOf(reconcileErr)) || fate.Lost? then 0 else 1
    ensures store.persisted == if Committed(fate) then status.conditions else old(store.persisted)
    ensures Shows(old(store.persisted), OutcomeOf(reconcileErr)) ==> fate.Answered?
    ensures OutcomeOf(reconcileErr).Retrying? ==> (result.requeue <==> result.error.None?)
    ensures OutcomeOf(reconcileErr).Retrying? ==> (result.requeue <==> Shows(old(store.persisted), Retrying))
    ensures OutcomeOf(reconcileErr).Retrying? && !result.requeue && fate.Answered? ==> result.error == reconcileErr
    ensures !OutcomeOf(reconcileErr).Retrying? ==> !result.requeue && (result.error.None? <==> fate.Answered?)
  {
    var outcome := OutcomeOf(reconcileErr);
    var degradedChanged := status.SetCondition(DEGRADED, Status(outcome, DEGRADED), ReasonFor(outcome, DEGRADED), Message(outcome, DEGRADED, text), now);
    var readyChanged := status.SetCondition(READY, Status(outcome, READY), ReasonFor(outcome, READY), Message(outcome, READY, text), now);
    assert DEGRADED[0] != READY[0];
    SetThenGet(old(status.conditions), Reported(outcome, DEGRADED, text, now), READY);
    ReportThenGet(old(status.conditions), outcome, text, now, READY);
    ReportSays(old(status.conditions), reconcileErr, text, now);
    var errUpdate: Option<Errors.Error> := None;
    fate := Answered;
    if degradedChanged || readyChanged {
      errUpdate, fate := store.UpdateCondition(status.conditions, if outcome.Retrying? then reconcileErr else None);
    }
    if outcome.Retrying? && errUpdate.None? {
      return ControlResult(true, None), fate;
    }
    return ControlResult(false, errUpdate), fate;
  }

  /** An unusable user CA ends Degraded once the write is committed, with neither an error nor a requeue once it is answered. */
  method ReportInvalidCa(status: ConditionalStatus, store: StatusStore, outcome: Errors.CaOutcome, text: string, now: nat)
    returns (result: ControlResult, ghost fate: Fate)
    requires Errors.CaInvalid(outcome) && status.conditions == store.persisted
    modifies status, store
    ensures fate.Answered? <==> result == ControlResult(false, None)
    ensures Committed(fate) ==> Get(store.persisted, DEGRADED).Some? && Get(store.persisted, DEGRADED).value.status == TRUE
    ensures Committed(fate) ==> Get(store.persisted, READY).Some? && Get(store.persisted, READY).value.status == FALSE
  {
    Errors.InvalidCaIsIrrecoverable(outcome);
    ReportShows(status.conditions, Irrecoverable, text, now, Irrecoverable);
    result, fate := HandleReconcileResult(status, store, Errors.CaReconcileError(outcome), text, now);
  }

  // ----- Turning an instance away -----

  /**
   The end of `disallowMultipleIstioCSRInstances` for an instance that is turned away, and what
   `processReconcileRequest` makes of it. A fresh rejection also writes the annotation, and is
   retried unless both writes are answered. An instance that has the annotation already is never
   retried, even if its status write fails.
   */
  method RejectInstance(status: ConditionalStatus, store: StatusStore, annotated: bool, text: string, now: nat)
    returns (result: ControlResult, ghost fate: Fate, ghost annotation: Fate)
    requires status.conditions == store.persisted
    modifies status, store
    ensures Holds(Get(status.conditions, "Ready"), "False", "Failed") && Get(status.conditions, "Degraded") == Get(old(status.conditions), "Degraded")
    ensures KeptOrNew(old(status.conditions), status.conditions, "Ready", "multiple instances of istiocsr exists, " + text + " will not be processed", now)
    ensures status.conditions == Report(old(status.conditions), Rejected, text, now)
    ensures store.attempts == old(store.attempts) + if Shows(old(store.persisted), Rejected) then 0 else 1
    ensures store.commits == old(store.commits) + if Shows(old(store.persisted), Rejected) || fate.Lost? then 0 else 1
    ensures store.persisted == if Committed(fate) then status.conditions else old(store.persisted)
    ensures Shows(old(store.persisted), Rejected) ==> fate.Answered?
    ensures !result.requeue && (result.error.None? <==> annotated || (fate.Answered? && annotation.Answered?))
  {
    var message := Message(Rejected, READY, text);
    var changed := status.SetCondition(READY, FALSE, REASON_FAILED, message, now);
    ReportThenGet(old(status.conditions), Rejected, text, now, READY);
    ReportThenGet(old(status.conditions), Rejected, text, now, DEGRADED);
    GetKind(old(status.conditions), READY);
    var condUpdateErr: Option<Errors.Error> := None;
    fate, annotation := Answered, Answered;
    if changed {
      condUpdateErr, fate := store.UpdateCondition(status.conditions, None);
    }
    var err: Errors.Error;
    if annotated {
      err := Errors.Reconcile(Errors.MultipleInstance,
                              Errors.Aggregate([Errors.Plain(message)] + if condUpdateErr.Some? then [condUpdateErr.value] else []));
    } else {
      var annUpdateErr: Option<Errors.Error>;
      annUpdateErr, annotation := AnnotateRejected();
      if condUpdateErr.Some? || annUpdateErr.Some? {
        err := Errors.Aggregate((if condUpdateErr.Some? then [condUpdateErr.value] else []) + (if annUpdateErr.Some? then [annUpdateErr.value] else []));
      } else {
        err := Errors.Reconcile(Errors.MultipleInstance, Errors.Plain(message));
      }
    }
    result := ControlResult(false, if Errors.IsMultipleInstance(err) then None else Some(err));
  }

  /** The write of the annotation, which the election component follows. */
  method AnnotateRejected() returns (err: Option<Errors.Error>, ghost fate: Fate)
    ensures err.None? <==> fate.Answered?
  {
    var answered: bool, lost: bool := *, *;
    if answered {
      return None, Answered;
    }
    fate := if lost then Lost else Unanswered;
    return Some(Errors.Wrapped(Errors.Plain("failed to update reject processing annotation"))), fate;
  }

  // ----- Runs -----

  datatype Step = Step(outcome: Outcome, text: string, time: nat, fate: Fate)

  /** The persisted conditions after a run of passes, each of which writes only what differs and may lose its write. */
  function Final(conditions: seq<Condition>, steps: seq<Step>): seq<Condition> {
    if steps == [] then conditions
    else
      var before, last := Final(conditions, steps[..|steps| - 1]), steps[|steps| - 1];
      if !Shows(before, last.outcome) && Committed(last.fate) then Report(before, last.outcome, last.text, last.time) else before
  }

  /** The writes of a run whose fate is among these. */
  function Writes(conditions: seq<Condition>, steps: seq<Step>, fates: set<Fate>): nat {
    if steps == [] then 0
    else
      var init, last := steps[..|steps| - 1], steps[|steps| - 1];
      Writes(conditions, init, fates) + if !Shows(Final(conditions, init), last.outcome) && last.fate in fates then 1 else 0
  }

  const ALL_FATES := {Answered, Unanswered, Lost}
  const COMMITTED := {Answered, Unanswered}

  /** Reporting every step in turn, without conditions on change or on the write. */
  function Fold(conditions: seq<Condition>, steps: seq<Step>): seq<Condition> {
    if steps == [] then conditions
    else
      var last := steps[|steps| - 1];
      Report(Fold(conditions, steps[..|steps| - 1]), last.outcome, last.text, last.time)
  }

  /** The steps of a run whose write was not lost, whatever the controller was told. */
  function CommittedSteps(steps: seq<Step>): seq<Step> {
    if steps == [] then []
    else
      var init, last := CommittedSteps(steps[..|steps| - 1]), steps[|steps| - 1];
      if Committed(last.fate) then init + [last] else init
  }

  /** The persisted conditions are those of reporting the committed steps, and nothing else of the run matters. */
  lemma {:induction false} PersistedIsCommitted(conditions: seq<Condition>, steps: seq<Step>)
    ensures Final(conditions, steps) == Fold(conditions, CommittedSteps(steps))
  {
    if steps != [] {
      var init, last := steps[..|steps| - 1], steps[|steps| - 1];
      PersistedIsCommitted(conditions, init);
      ReportThenGet(Final(conditions, init), last.outcome, last.text, last.time, READY);
      if Committed(last.fate) {
        assert CommittedSteps(steps)[..|CommittedSteps(steps)| - 1] == CommittedSteps(init);
      }
    }
  }

  /** What the controller was told about a committed write does not matter to what is persisted or written. */
  lemma {:induction false} AnswersDoNotMatter(conditions: seq<Condition>, a: seq<Step>, b: seq<Step>)
    requires |a| == |b| && forall i :: 0 <= i < |a| ==> b[i] == a[i].(fate := b[i].fate) && Committed(a[i].fate) == Committed(b[i].fate)
    ensures Final(conditions, a) == Final(conditions, b)
    ensures Writes(conditions, a, ALL_FATES) == Writes(conditions, b, ALL_FATES)
    ensures Writes(conditions, a, COMMITTED) == Writes(conditions, b, COMMITTED)
  {
    if a != [] {
      AnswersDoNotMatter(conditions, a[..|a| - 1], b[..|b| - 1]);
    }
  }

  /** The outcome that last spoke about a kind. */
  function LastTouching(steps: seq<Step>, kind: string): Option<Outcome> {
    if steps == [] then None
    else
      var last := steps[|steps| - 1];
      if Touches(last.outcome, kind) then Some(last.outcome) else LastTouching(steps[..|steps| - 1], kind)
  }

  predicate SameReport(a: Outcome, b: Outcome, kind: string) {
    Status(a, kind) == Status(b, kind) && ReasonFor(a, kind) == ReasonFor(b, kind)
  }

  /** After some steps a kind is as this outcome would report it: so said the last step about it, or it was so before. */
  predicate Displayed(conditions: seq<Condition>, steps: seq<Step>, outcome: Outcome, kind: string) {
    match LastTouching(steps, kind)
    case None => HoldsFor(conditions, outcome, kind)
    case Some(last) => SameReport(last, outcome, kind)
  }

  /** An outcome is news after some steps: it speaks about a kind that is not displayed so. */
  predicate News(conditions: seq<Condition>, steps: seq<Step>, outcome: Outcome) {
    (Touches(outcome, DEGRADED) && !Displayed(conditions, steps, outcome, DEGRADED)) || !Displayed(conditions, steps, outcome, READY)
  }

  /** How many steps are news. */
  function Changes(conditions: seq<Condition>, steps: seq<Step>): nat {
    if steps == [] then 0
    else
      var init := steps[..|steps| - 1];
      Changes(conditions, init) + if News(conditions, init, steps[|steps| - 1].outcome) then 1 else 0
  }

  lemma {:induction false} FoldDisplays(conditions: seq<Condition>, steps: seq<Step>, outcome: Outcome, kind: string)
    requires kind == DEGRADED || kind == READY
    ensures HoldsFor(Fold(conditions, steps), outcome, kind) <==> Displayed(conditions, steps, outcome, kind)
  {
    hide Get, Report, Message;
    if steps != [] {
      var init, last := steps[..|steps| - 1], steps[|steps| - 1];
      FoldDisplays(conditions, init, outcome, kind);
      ReportThenGet(Fold(conditions, init), last.outcome, last.text, last.time, kind);
    }
  }

  lemma FoldShows(conditions: seq<Condition>, steps: seq<Step>, outcome: Outcome)
    ensures Shows(Fold(conditions, steps), outcome) <==> !News(conditions, steps, outcome)
  {
    hide Fold, HoldsFor, Displayed;
    FoldDisplays(conditions, steps, outcome, DEGRADED);
    FoldDisplays(conditions, steps, outcome, READY);
  }

  lemma {:induction false} ChangesAppend(conditions: seq<Condition>, steps: seq<Step>, s: Step)
    ensures Changes(conditions, steps + [s]) == Changes(conditions, steps) + if News(conditions, steps, s.outcome) then 1 else 0
  {
    var whole := steps + [s];
    assert whole[..|whole| - 1] == steps && whole[|whole| - 1] == s;
  }

  /**
   Over every run, with any writes lost or unanswered, the server commits one write for each
   committed step that is news.
   */
  lemma {:induction false} OneCommitPerChange(conditions: seq<Condition>, steps: seq<Step>)
    ensures Writes(conditions, steps, COMMITTED) == Changes(conditions, CommittedSteps(steps))
  {
    hide Shows, Fold, Final, News;
    if steps != [] {
      var init, last := steps[..|steps| - 1], steps[|steps| - 1];
      OneCommitPerChange(conditions, init);
      PersistedIsCommitted(conditions, init);
      if Committed(last.fate) {
        ChangesAppend(conditions, CommittedSteps(init), last);
        FoldShows(conditions, CommittedSteps(init), last.outcome);
      }
    }
  }

  /** How often the outcome differs from that of the step before. */
  function OutcomeChanges(steps: seq<Step>): nat {
    if |steps| <= 1 then 0
    else OutcomeChanges(steps[..|steps| - 1]) + if steps[|steps| - 1].outcome != steps[|steps| - 2].outcome then 1 else 0
  }

  lemma PlainNews(conditions: seq<Condition>, steps: seq<Step>, outcome: Outcome)
    requires !outcome.Rejected? && (steps != [] ==> !steps[|steps| - 1].outcome.Rejected?)
    ensures News(conditions, steps, outcome) <==> if steps == [] then !Shows(conditions, outcome) else outcome != steps[|steps| - 1].outcome
  {
    hide HoldsFor;
    ReasonsDiffer();
  }

  /** Without rejections, the news are the changes of outcome, and the first step unless it already shows. */
  lemma {:induction false} PlainChanges(conditions: seq<Condition>, steps: seq<Step>)
    requires forall i :: 0 <= i < |steps| ==> !steps[i].outcome.Rejected?
    ensures Changes(conditions, steps) == OutcomeChanges(steps) + if steps == [] || Shows(conditions, steps[0].outcome) then 0 else 1
  {
    hide News, Shows;
    if steps != [] {
      var init, last := steps[..|steps| - 1], steps[|steps| - 1];
      PlainChanges(conditions, init);
      PlainNews(conditions, init, last.outcome);
      assert init != [] ==> steps[|steps| - 2] == init[|init| - 1] && steps[0] == init[0];
    }
  }

  ghost predicate NoneLost(steps: seq<Step>) {
    forall i :: 0 <= i < |steps| ==> Committed(steps[i].fate)
  }

  /** While no write is lost there are no other writes: an unanswered one is not repeated while the outcome stays. */
  lemma OneWritePerChange(conditions: seq<Condition>, steps: seq<Step>)
    requires NoneLost(steps)
    ensures Writes(conditions, steps, ALL_FATES) == Changes(conditions, steps)
  {
    AllCommitted(conditions, steps);
    OneCommitPerChange(conditions, steps);
  }

  lemma {:induction false} AllCommitted(conditions: seq<Condition>, steps: seq<Step>)
    requires NoneLost(steps)
    ensures CommittedSteps(steps) == steps
    ensures Writes(conditions, steps, ALL_FATES) == Writes(conditions, steps, COMMITTED)
  {
    hide Final, Shows;
    if steps != [] {
      var init := steps[..|steps| - 1];
      AllCommitted(conditions, init);
      assert Committed(steps[|steps| - 1].fate);
      assert steps == init + [steps[|steps| - 1]];
    }
  }

  /** Repeating an outcome after a commit the controller was not told about sends nothing. */
  lemma UnansweredCostsNothing(conditions: seq<Condition>, steps: seq<Step>, last: Step, again: Step)
    requires Committed(last.fate) && again.outcome == last.outcome
    ensures Final(conditions, steps + [last, again]) == Final(conditions, steps + [last])
    ensures Writes(conditions, steps + [last, again], ALL_FATES) == Writes(conditions, steps + [last], ALL_FATES)
  {
    var first, both := steps + [last], steps + [last, again];
    assert first[..|first| - 1] == steps && both[..|both| - 1] == first;
    ReportShows(Final(conditions, steps), last.outcome, last.text, last.time, last.outcome);
  }

  /** Every state a run persists has unique kinds and is not ready and degraded at once. */
  lemma {:induction false} RunKeepsShape(conditions: seq<Condition>, steps: seq<Step>)
    requires UniqueKinds(conditions)
    ensures UniqueKinds(Final(conditions, steps))
    ensures CommittedSteps(steps) != [] || ReadyExcludesDegraded(conditions) ==> ReadyExcludesDegraded(Final(conditions, steps))
  {
    hide Report, ReadyExcludesDegraded, Shows, UniqueKinds;
    if steps != [] {
      var init, last := steps[..|steps| - 1], steps[|steps| - 1];
      RunKeepsShape(conditions, init);
      ReportShows(Final(conditions, init), last.outcome, last.text, last.time, last.outcome);
      ReportThenGet(Final(conditions, init), last.outcome, last.text, last.time, READY);
    }
  }

  /** The steps that speak about a kind. */
  function Touching(steps: seq<Step>, kind: string): seq<Step> {
    if steps == [] then []
    else
      var init, last := Touching(steps[..|steps| - 1], kind), steps[|steps| - 1];
      if Touches(last.outcome, kind) then init + [last] else init
  }

  /** The first step of the last block of steps that report the same status and reason for a kind. */
  function BlockStart(steps: seq<Step>, kind: string): (start: nat)
    requires steps != []
    ensures start < |steps| && SameReport(steps[start].outcome, steps[|steps| - 1].outcome, kind)
  {
    var n := |steps| - 1;
    if n > 0 && SameReport(steps[n].outcome, steps[n - 1].outcome, kind) then BlockStart(steps[..n], kind) else n
  }

  /** What the condition of a kind is after steps about it: that of the first step of the block, or older than all of them. */
  function BlockCondition(conditions: seq<Condition>, steps: seq<Step>, kind: string): Option<Condition> {
    if steps == [] then Get(conditions, kind)
    else
      var start := BlockStart(steps, kind);
      var first := steps[start];
      if start == 0 && HoldsFor(conditions, first.outcome, kind) then Get(conditions, kind)
      else Some(Reported(first.outcome, kind, first.text, first.time))
  }

  lemma {:induction false} BlockAppend(conditions: seq<Condition>, steps: seq<Step>, s: Step, kind: string)
    requires steps != []
    ensures BlockCondition(conditions, steps + [s], kind) ==
            if SameReport(s.outcome, steps[|steps| - 1].outcome, kind) then BlockCondition(conditions, steps, kind)
            else Some(Reported(s.outcome, kind, s.text, s.time))
    ensures Holds(BlockCondition(conditions, steps, kind), Status(steps[|steps| - 1].outcome, kind), ReasonFor(steps[|steps| - 1].outcome, kind))
  {
    hide Get, Message;
    var whole := steps + [s];
    assert whole[..|whole| - 1] == steps && whole[|whole| - 1] == s && whole[|whole| - 2] == steps[|steps| - 1];
    assert whole[BlockStart(steps, kind)] == steps[BlockStart(steps, kind)];
  }

  lemma {:induction false} FoldIsBlock(conditions: seq<Condition>, steps: seq<Step>, kind: string)
    requires kind == DEGRADED || kind == READY
    ensures Get(Fold(conditions, steps), kind) == BlockCondition(conditions, Touching(steps, kind), kind)
  {
    if steps != [] {
      var init, last := steps[..|steps| - 1], steps[|steps| - 1];
      FoldIsBlock(conditions, init, kind);
      ReportThenGet(Fold(conditions, init), last.outcome, last.text, last.time, kind);
      var before := Touching(init, kind);
      if Touches(last.outcome, kind) {
        if before == [] {
          assert before + [last] == [last];
        } else {
          hide BlockCondition, Get, Report;
          BlockAppend(conditions, before, last, kind);
        }
      }
    }
  }

  /**
   Over every run, a persisted condition carries the message and time of the first step of
   its current block of equal status and reason, among the committed steps that speak about
   it, or is older than the run.
   */
  lemma MessageOfBlockStart(conditions: seq<Condition>, steps: seq<Step>, kind: string)
    requires kind == DEGRADED || kind == READY
    ensures Get(Final(conditions, steps), kind) == BlockCondition(conditions, Touching(CommittedSteps(steps), kind), kind)
  {
    PersistedIsCommitted(conditions, steps);
    FoldIsBlock(conditions, CommittedSteps(steps), kind);
  }

  /**
   After any run the instance is ready exactly if the last committed step was a success, and
   degraded exactly if the last committed step other than a rejection failed for good.
   */
  lemma ReadyAfterRun(conditions: seq<Condition>, steps: seq<Step>)
    requires CommittedSteps(steps) != []
    ensures var committed, after := CommittedSteps(steps), Final(conditions, steps);
            && Get(after, "Ready").Some?
            && (Get(after, "Ready").value.status == "True" <==> committed[|committed| - 1].outcome.Success?)
            && var reconciled := Touching(committed, DEGRADED);
               reconciled != [] ==>
                 && Get(after, "Degraded").Some?
                 && (Get(after, "Degraded").value.status == "True" <==> reconciled[|reconciled| - 1].outcome.Irrecoverable?)
  {
    hide Get, Final, CommittedSteps, Message;
    var committed := CommittedSteps(steps);
    AllTouchReady(committed);
    MessageOfBlockStart(conditions, steps, READY);
    MessageOfBlockStart(conditions, steps, DEGRADED);
    LastOfBlock(conditions, Touching(committed, READY), READY);
    LastOfBlock(conditions, Touching(committed, DEGRADED), DEGRADED);
    ReasonsDiffer();
  }

  lemma {:induction false} AllTouchReady(steps: seq<Step>)
    ensures Touching(steps, READY) == steps
  {
    if steps != [] {
      AllTouchReady(steps[..|steps| - 1]);
    }
  }

  lemma LastOfBlock(conditions: seq<Condition>, steps: seq<Step>, kind: string)
    ensures steps != [] ==>
              var last := steps[|steps| - 1];
              Holds(BlockCondition(conditions, steps, kind), Status(last.outcome, kind), ReasonFor(last.outcome, kind))
  {
    if steps != [] {
      BlockAppend(conditions, steps, steps[0], kind);
    }
  }

  /** What a pass ended with: its reconcile result, or a rejection of the instance. */
  datatype PassEnd =
    | Reconciled(error: Option<Errors.Error>, text: string, time: nat)
    | TurnedAway(annotated: bool, text: string, time: nat)

  function EndOutcome(end: PassEnd): Outcome {
    match end
    case Reconciled(error, _, _) => OutcomeOf(error)
    case TurnedAway(_, _, _) => Rejected
  }

  /** How a pass is answered, given what became of its status write. */
  ghost predicate AnsweredFor(result: ControlResult, end: PassEnd, fate: Fate) {
    match end
    case Reconciled(error, _, _) =>
      if OutcomeOf(error).Retrying? then result.requeue <==> result.error.None?
      else !result.requeue && (result.error.None? <==> fate.Answered?)
    case TurnedAway(annotated, _, _) =>
      !result.requeue && (annotated ==> result.error.None?) && (!annotated && result.error.None? ==> fate.Answered?)
  }

  ghost predicate StepOf(step: Step, end: PassEnd) {
    step == Step(EndOutcome(end), end.text, end.time, step.fate)
  }

  /** Reports the end of a pass that started from what is persisted. */
  method ReportEnd(store: StatusStore, end: PassEnd) returns (result: ControlResult, ghost fate: Fate)
    modifies store
    ensures AnsweredFor(result, end, fate)
    ensures var news := !Shows(old(store.persisted), EndOutcome(end));
            && store.attempts == old(store.attempts) + (if news then 1 else 0)
            && store.commits == old(store.commits) + (if news && Committed(fate) then 1 else 0)
            && store.persisted == if news && Committed(fate) then Report(old(store.persisted), EndOutcome(end), end.text, end.time) else old(store.persisted)
  {
    hide Shows, Report;
    var status := new ConditionalStatus(store.persisted);
    ReportThenGet(store.persisted, EndOutcome(end), end.text, end.time, READY);
    match end {
      case Reconciled(error, text, time) =>
        result, fate := HandleReconcileResult(status, store, error, text, time);
      case TurnedAway(annotated, text, time) =>
        ghost var annotation;
        result, fate, annotation := RejectInstance(status, store, annotated, text, time);
    }
  }

  /** Runs of reconciles are the runs above: each pass starts from what is persisted. */
  method RunOutcomes(store: StatusStore, passes: seq<PassEnd>) returns (results: seq<ControlResult>, ghost steps: seq<Step>)
    modifies store
    ensures |steps| == |results| == |passes|
    ensures forall i :: 0 <= i < |steps| ==> StepOf(steps[i], passes[i]) && AnsweredFor(results[i], passes[i], steps[i].fate)
    ensures store.persisted == Final(old(store.persisted), steps)
    ensures store.attempts == old(store.attempts) + Writes(old(store.persisted), steps, ALL_FATES)
    ensures store.commits == old(store.commits) + Writes(old(store.persisted), steps, COMMITTED)
  {
    hide Shows, Report, AnsweredFor, StepOf;
    results, steps := [], [];
    for i := 0 to |passes|
      invariant |steps| == |results| == i
      invariant forall j :: 0 <= j < i ==> StepOf(steps[j], passes[j]) && AnsweredFor(results[j], passes[j], steps[j].fate)
      invariant store.persisted == Final(old(store.persisted), steps)
      invariant store.attempts == old(store.attempts) + Writes(old(store.persisted), steps, ALL_FATES)
      invariant store.commits == old(store.commits) + Writes(old(store.persisted), steps, COMMITTED)
    {
      var result, fate := ReportEnd(store, passes[i]);
      ghost var step := Step(EndOutcome(passes[i]), passes[i].text, passes[i].time, fate);
      IsStepOf(step, passes[i]);
      assert (steps + [step])[..|steps + [step]| - 1] == steps;
      results, steps := results + [result], steps + [step];
    }
  }

  lemma IsStepOf(step: Step, end: PassEnd)
    requires step == Step(EndOutcome(end), end.text, end.time, step.fate)
    ensures StepOf(step, end)
  {
  }
}
