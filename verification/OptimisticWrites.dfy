/**
 Optimistic concurrency: `UpdateWithRetry` (pkg/controller/common/client.go) and the status
 update of the controllers (pkg/controller/istiocsr/utils.go), against a server that
 stamps every write with a new resource version and refuses writes with an old one, while
 other clients read, write, delete and create between any two calls.
 */
module OptimisticWrites {
  import opened Outcomes

  datatype Object<+M, +S, +T> = Object(metadata: M, spec: S, status: T)

  datatype Event<+M, +S, +T> =
    | Read(seen: Object<M, S, T>)
    | Own(written: Object<M, S, T>)
    | Foreign(present: bool)

  datatype Failure = ConflictError | OtherError

  const MAX_ATTEMPTS := 5

  ghost predicate NoOwn<M, S, T>(events: seq<Event<M, S, T>>) {
    forall i :: 0 <= i < |events| ==> !events[i].Own?
  }

  ghost predicate AllForeign<M, S, T>(events: seq<Event<M, S, T>>) {
    forall i :: 0 <= i < |events| ==> events[i].Foreign?
  }

  /** Nobody else left the object deleted. */
  ghost predicate KeptPresent<M, S, T>(events: seq<Event<M, S, T>>) {
    forall i :: 0 <= i < |events| && events[i].Foreign? ==> events[i].present
  }

  /** How often somebody else wrote. */
  ghost function ForeignWrites<M, S, T>(events: seq<Event<M, S, T>>): nat {
    if events == [] then 0 else ForeignWrites(events[..|events| - 1]) + if events[|events| - 1].Foreign? then 1 else 0
  }

  /** How often the object was read, which is once per attempt. */
  ghost function Reads<M, S, T>(events: seq<Event<M, S, T>>): nat {
    if events == [] then 0 else Reads(events[..|events| - 1]) + if events[|events| - 1].Read? then 1 else 0
  }

  lemma {:induction false} ReadsConcat<M, S, T>(a: seq<Event<M, S, T>>, b: seq<Event<M, S, T>>)
    ensures Reads(a + b) == Reads(a) + Reads(b)
  {
    if b == [] {
      assert a + b == a;
    } else {
      ReadsConcat(a, b[..|b| - 1]);
      assert (a + b)[..|a + b| - 1] == a + b[..|b| - 1];
    }
  }

  lemma {:induction false} NoReads<M, S, T>(events: seq<Event<M, S, T>>)
    requires forall i :: 0 <= i < |events| ==> !events[i].Read?
    ensures Reads(events) == 0
  {
    if events != [] {
      NoReads(events[..|events| - 1]);
    }
  }

  /** Others wrote fewer than five times, and never left the object deleted. */
  ghost predicate FewForeign<M, S, T>(events: seq<Event<M, S, T>>) {
    ForeignWrites(events) < 5 && KeptPresent(events)
  }

  lemma KeptBetween<M, S, T>(start: seq<Event<M, S, T>>, a: seq<Event<M, S, T>>, b: seq<Event<M, S, T>>, end: seq<Event<M, S, T>>)
    requires start <= a <= b <= end
    ensures KeptPresent(end[|start|..]) ==> KeptPresent(a[|start|..]) && KeptPresent(b[|a|..])
  {
    if KeptPresent(end[|start|..]) {
      assert forall i :: |start| <= i < |end| ==> end[i] == end[|start|..][i - |start|];
      assert forall i :: |start| <= i < |end| && end[i].Foreign? ==> end[i].present;
    }
  }

  lemma {:induction false} ForeignConcat<M, S, T>(a: seq<Event<M, S, T>>, b: seq<Event<M, S, T>>)
    ensures ForeignWrites(a + b) == ForeignWrites(a) + ForeignWrites(b)
  {
    if b == [] {
      assert a + b == a;
    } else {
      ForeignConcat(a, b[..|b| - 1]);
      assert (a + b)[..|a + b| - 1] == a + b[..|b| - 1];
    }
  }

  lemma {:induction false} AllForeignCount<M, S, T>(events: seq<Event<M, S, T>>)
    requires AllForeign(events)
    ensures ForeignWrites(events) == |events|
  {
    if events != [] {
      AllForeignCount(events[..|events| - 1]);
    }
  }

  /** Exactly one own write, the last event, committed right after the read it is based on. */
  ghost predicate CommitsAtomically<M, S, T>(events: seq<Event<M, S, T>>, seen: Object<M, S, T>, written: Object<M, S, T>) {
    var n := |events|;
    n >= 2 && events[n - 1] == Own(written) && events[n - 2] == Read(seen) && NoOwn(events[..n - 1])
  }

  /** At most one own write, and it is the last event. */
  ghost predicate OwnOnlyLast<M, S, T>(events: seq<Event<M, S, T>>) {
    NoOwn(events) || (|events| > 0 && NoOwn(events[..|events| - 1]))
  }

  class Store<M(0,!new), S(0,!new), T(0,!new)> {
    /** The live object, which carries the latest resource version. */
    var live: Option<Object<M, S, T>>
    var version: nat
    /** No call fails while this is set. */
    var healthy: bool
    ghost var log: seq<Event<M, S, T>>

    constructor (live: Option<Object<M, S, T>>)
      ensures this.live == live && log == []
    {
      this.live, version, log := live, 0, [];
      healthy := false;
    }

    /** Other clients: any number of writes, deletions and creations. */
    method OthersAct()
      modifies this`live, this`version, this`log
      ensures |old(log)| <= |log| && log[..|old(log)|] == old(log) && AllForeign(log[|old(log)|..])
      ensures version == old(version) + |log| - |old(log)|
      ensures version == old(version) ==> live == old(live)
      ensures old(live).Some? && KeptPresent(log[|old(log)|..]) ==> live.Some?
    {
      var steps: nat := *;
      ghost var before := log;
      while steps > 0
        invariant |old(log)| <= |log| && log[..|old(log)|] == old(log) && AllForeign(log[|old(log)|..])
        invariant version == old(version) + |log| - |old(log)|
        invariant version == old(version) ==> live == old(live)
        invariant if log == old(log) then live == old(live) else log[|log| - 1] == Foreign(live.Some?)
      {
        var next: Option<Object<M, S, T>> := *;
        live, version, log := next, version + 1, log + [Foreign(next.Some?)];
        steps := steps - 1;
      }
      assert log != before ==> log[|before|..][|log| - |before| - 1] == Foreign(live.Some?);
    }

    method Get() returns (r: Result<(Object<M, S, T>, nat), Failure>)
      modifies this`log
      ensures r.Ok? ==> live == Some(r.value.0) && r.value.1 == version && log == old(log) + [Read(r.value.0)]
      ensures r.Err? ==> log == old(log) && r.error == OtherError
      ensures healthy && live.Some? ==> r.Ok?
    {
      var failed := Fault(healthy);
      if failed || live.None? {
        return Err(OtherError);
      }
      log := log + [Read(live.value)];
      return Ok((live.value, version));
    }

    /** Commits only against the current version; the response of a committed write may get lost. */
    method Commit(candidate: Object<M, S, T>, basedOn: nat) returns (r: Result<(), Failure>)
      modifies this`live, this`version, this`log
      ensures r.Ok? || log != old(log) ==>
                && old(live).Some? && basedOn == old(version)
                && live == Some(candidate) && version == old(version) + 1 && log == old(log) + [Own(candidate)]
      ensures r == Err(ConflictError) ==> log == old(log) && basedOn != old(version)
      ensures healthy && old(live).Some? ==> live.Some? && r == if basedOn == old(version) then Ok(()) else Err(ConflictError)
      ensures log == old(log) ==> version == old(version) && live == old(live)
    {
      var unreachable := Fault(healthy);
      if unreachable || live.None? {
        return Err(OtherError);
      }
      if basedOn != version {
        return Err(ConflictError);
      }
      live, version, log := Some(candidate), version + 1, log + [Own(candidate)];
      var unanswered := Fault(healthy);
      if unanswered {
        return Err(OtherError);
      }
      return Ok(());
    }

    /** The first half of an attempt: others act, and the object is read. */
    method ReadPhase(ghost start: seq<Event<M, S, T>>) returns (r: Result<(Object<M, S, T>, nat), Failure>)
      requires start <= log && NoOwn(log[|start|..])
      modifies this`live, this`version, this`log
      ensures old(log) <= log && NoOwn(log[|start|..])
      ensures r.Ok? ==> live == Some(r.value.0) && version == r.value.1 && |log| > |start| && log[|log| - 1] == Read(r.value.0)
      ensures r.Err? ==> r.error == OtherError
      ensures Reads(log[|start|..]) == Reads(old(log)[|start|..]) + if r.Ok? then 1 else 0
      ensures ForeignWrites(log[|start|..]) >= ForeignWrites(old(log)[|start|..])
      ensures healthy && old(live).Some? && KeptPresent(log[|start|..]) ==> r.Ok?
    {
      OthersAct();
      assert NoOwn(log[|start|..]);
      ghost var before := log;
      r := Get();
      KeptBetween(start, old(log), before, log);
      Counts(start, old(log), before, log);
    }

    /** The second half: others act, and the write is attempted against what was read. */
    method CommitPhase(candidate: Object<M, S, T>, basedOn: nat, ghost seen: Object<M, S, T>, ghost start: seq<Event<M, S, T>>) returns (r: Result<(), Failure>)
      requires start <= log && NoOwn(log[|start|..]) && |log| > |start| && log[|log| - 1] == Read(seen)
      requires live == Some(seen) && version == basedOn
      modifies this`live, this`version, this`log
      ensures old(log) <= log && OwnOnlyLast(log[|start|..])
      ensures r.Ok? ==> CommitsAtomically(log[|start|..], seen, candidate) && live == Some(candidate)
      ensures r == Err(ConflictError) ==> NoOwn(log[|start|..]) && ForeignWrites(log[|start|..]) > ForeignWrites(old(log)[|start|..])
      ensures Reads(log[|start|..]) == Reads(old(log)[|start|..])
      ensures healthy && KeptPresent(log[|start|..]) ==> live.Some? && (r.Ok? || r == Err(ConflictError))
    {
      OthersAct();
      ghost var atCommit := log;
      assert NoOwn(atCommit[|start|..]) by {
        assert forall i :: |start| <= i < |atCommit| ==> !atCommit[i].Own?;
      }
      r := Commit(candidate, basedOn);
      KeptBetween(start, old(log), atCommit, log);
      Counts(start, old(log), atCommit, log);
      if log != atCommit {
        assert log == old(log) + [Own(candidate)];
        assert log[|start|..] == old(log)[|start|..] + [Own(candidate)];
        assert log[|start|..][..|log| - |start| - 1] == old(log)[|start|..];
      }
    }

    /** One attempt: read, let others act, and commit what `change` makes of the object read. */
    method Attempt(change: Object<M, S, T> -> Object<M, S, T>, ghost start: seq<Event<M, S, T>>) returns (r: Result<(), Failure>)
      requires start <= log && NoOwn(log[|start|..])
      modifies this`live, this`version, this`log
      ensures old(log) <= log && OwnOnlyLast(log[|start|..])
      ensures r.Ok? ==> exists seen: Object<M, S, T> :: CommitsAtomically(log[|start|..], seen, change(seen)) && live == Some(change(seen))
      ensures r == Err(ConflictError) ==> NoOwn(log[|start|..]) && ForeignWrites(log[|start|..]) > ForeignWrites(old(log)[|start|..])
      ensures healthy && old(live).Some? && KeptPresent(log[|start|..]) ==> live.Some? && (r.Ok? || r == Err(ConflictError))
      ensures var before, after := Reads(old(log)[|start|..]), Reads(log[|start|..]);
              after <= before + 1 && (r.Ok? || r == Err(ConflictError) ==> after == before + 1)
    {
      hide NoOwn, CommitsAtomically, Reads, ForeignWrites, KeptPresent;
      var got := ReadPhase(start);
      if got.Err? {
        return Err(got.error);
      }
      ghost var atRead := log;
      r := CommitPhase(change(got.value.0), got.value.1, got.value.0, start);
      KeptBetween(start, atRead, log, log);
    }

    /** How the counts of a log grow: by what was added, others first and then at most one event. */
    lemma Counts(start: seq<Event<M, S, T>>, first: seq<Event<M, S, T>>, middle: seq<Event<M, S, T>>, end: seq<Event<M, S, T>>)
      requires start <= first <= middle <= end && |end| <= |middle| + 1 && AllForeign(middle[|first|..])
      requires end != middle ==> !end[|middle|].Foreign?
      ensures ForeignWrites(end[|start|..]) == ForeignWrites(first[|start|..]) + |middle| - |first|
      ensures Reads(end[|start|..]) == Reads(first[|start|..]) + if end != middle && end[|middle|].Read? then 1 else 0
    {
      var a, b, c := first[|start|..], middle[|first|..], end[|middle|..];
      assert end[|start|..] == a + b + c;
      ForeignConcat(a, b);
      ForeignConcat(a + b, c);
      AllForeignCount(b);
      ReadsConcat(a, b);
      ReadsConcat(a + b, c);
      NoReads(b);
      if end != middle {
        assert c == [end[|middle|]] && c[..0] == [];
      }
    }

    /**
     `RetryOnConflict` around `Attempt`. Success means one own write, based on the state it
     overwrote, with no foreign write in between; giving up on conflicts means no own write,
     and that somebody else wrote at least as often as it tried.
     */
    method RetryOnConflict(change: Object<M, S, T> -> Object<M, S, T>) returns (r: Result<(), Failure>)
      modifies this`live, this`version, this`log
      ensures old(log) <= log && OwnOnlyLast(log[|old(log)|..])
      ensures r.Ok? ==> exists seen: Object<M, S, T> :: CommitsAtomically(log[|old(log)|..], seen, change(seen)) && live == Some(change(seen))
      ensures r == Err(ConflictError) ==> NoOwn(log[|old(log)|..]) && ForeignWrites(log[|old(log)|..]) >= 5
      ensures healthy && old(live).Some? && FewForeign(log[|old(log)|..]) ==> r.Ok?
      ensures Reads(log[|old(log)|..]) <= 5 && (r == Err(ConflictError) ==> Reads(log[|old(log)|..]) == 5)
    {
      ghost var start := log;
      r := Err(ConflictError);
      var attempts := 0;
      while attempts < MAX_ATTEMPTS
        invariant start <= log && NoOwn(log[|start|..]) && r == Err(ConflictError)
        invariant attempts <= MAX_ATTEMPTS && ForeignWrites(log[|start|..]) >= attempts
        invariant healthy && old(live).Some? && KeptPresent(log[|start|..]) ==> live.Some?
        invariant Reads(log[|start|..]) == attempts
      {
        ghost var t := log;
        r := Attempt(change, start);
        KeptBetween(start, t, log, log);
        if r != Err(ConflictError) {
          return;
        }
        attempts := attempts + 1;
      }
    }
  }

  /** Overwrites metadata and spec with the caller's object; the status subresource is left alone. */
  method UpdateWithRetry<M(0,!new), S(0,!new), T(0,!new)>(store: Store<M, S, T>, metadata: M, spec: S) returns (r: Result<(), Failure>)
    modifies store`live, store`version, store`log
    ensures old(store.log) <= store.log && OwnOnlyLast(store.log[|old(store.log)|..])
    ensures r.Ok? ==> exists seen: Object<M, S, T> ::
                && CommitsAtomically(store.log[|old(store.log)|..], seen, Object(metadata, spec, seen.status))
                && store.live == Some(Object(metadata, spec, seen.status))
    ensures r == Err(ConflictError) ==> NoOwn(store.log[|old(store.log)|..]) && ForeignWrites(store.log[|old(store.log)|..]) >= 5
    ensures store.healthy && old(store.live).Some? && FewForeign(store.log[|old(store.log)|..]) ==> r.Ok?
  {
    r := store.RetryOnConflict((seen: Object<M, S, T>) => Object(metadata, spec, seen.status));
  }

  /** Writes the status into the object it read, keeping that object's metadata and spec. */
  method UpdateStatus<M(0,!new), S(0,!new), T(0,!new)>(store: Store<M, S, T>, status: T) returns (r: Result<(), Failure>)
    modifies store`live, store`version, store`log
    ensures old(store.log) <= store.log && OwnOnlyLast(store.log[|old(store.log)|..])
    ensures r.Ok? ==> exists seen: Object<M, S, T> ::
                && CommitsAtomically(store.log[|old(store.log)|..], seen, Object(seen.metadata, seen.spec, status))
                && store.live == Some(Object(seen.metadata, seen.spec, status))
    ensures r == Err(ConflictError) ==> NoOwn(store.log[|old(store.log)|..]) && ForeignWrites(store.log[|old(store.log)|..]) >= 5
    ensures store.healthy && old(store.live).Some? && FewForeign(store.log[|old(store.log)|..]) ==> r.Ok?
  {
    r := store.RetryOnConflict((seen: Object<M, S, T>) => Object(seen.metadata, seen.spec, status));
  }
}
