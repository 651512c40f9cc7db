/** The retry loop of a command that keeps a durable snapshot of its state. */
module CachedExecute {
  import opened Streams
  import opened Writes
  import opened Replay
  import opened Pipeline
  import opened Snapshots
  import opened MemoryStore
  import opened Execute
  import opened Reconstruct

  ghost predicate StoredFaithful(l: Logic, s: Store, snapshots: map<SnapshotId, Snapshot>, id: SnapshotId) {
    id in snapshots ==> FaithfulSnapshot(l, s, snapshots[id])
  }

  /** Stored vectors only ever grow, and only the command's own entry is touched. */
  ghost predicate Refreshed(before: map<SnapshotId, Snapshot>, after: map<SnapshotId, Snapshot>, id: SnapshotId) {
    && (forall k :: k in before ==> k in after && Covers(after[k].versions, before[k].versions))
    && (forall k :: k in after && k != id ==> k in before && after[k] == before[k])
  }

  /** The version map of a full replay is current by construction. */
  lemma {:induction false} ReplayIsCurrent(l: Logic, s: Store, p: Progress, versions: map<StreamId, nat>)
    requires WellFormed(l) && Sound(l, p.pending) && VersionsMatch(s, versions)
    ensures VersionsMatch(s, ReplayFrom(l, s, p, versions).versions)
    decreases l.universe - Visited(p)
  {
    if p.pending.queue != [] {
      var id := p.pending.queue[0];
      VisitSound(l, p, Stream(s, id));
      assert id in Elements(p.pending.queue);
      ReplayIsCurrent(l, s, Visit(l, p, Stream(s, id)), versions[id := |Stream(s, id)|]);
    }
  }

  lemma FullReplayIsCurrent(l: Logic, s: Store)
    requires WellFormed(l)
    ensures VersionsMatch(s, FullReplay(l, s).versions)
  {
    StartSound(l);
    ReplayIsCurrent(l, s, Start(l), map[]);
  }

  /** Other executors of the same command load, reconstruct and save while this one awaits. */
  method RivalSaves(store: InMemoryEventStore, l: Logic, id: SnapshotId, rivals: seq<World>)
    requires store.Valid() && WellFormed(l) && StoredFaithful(l, store.Contents(), store.snapshots, id)
    modifies store
    ensures store.Valid() && Extends(old(store.Contents()), store.Contents())
    ensures StoredFaithful(l, store.Contents(), store.snapshots, id)
    ensures Refreshed(old(store.snapshots), store.snapshots, id)
    ensures rivals == [] ==> store.Contents() == old(store.Contents()) && store.snapshots == old(store.snapshots)
  {
    hide Extends, WellFormed, FaithfulSnapshot, OrderIsValid, Refreshed, Reconstructed;
    ExtendsItself(store.Contents());
    RefreshedItself(store.snapshots, id);
    var i := 0;
    while i < |rivals|
      invariant store.Valid() && Extends(old(store.Contents()), store.Contents())
      invariant StoredFaithful(l, store.Contents(), store.snapshots, id)
      invariant Refreshed(old(store.snapshots), store.snapshots, id)
      invariant rivals == [] ==> store.Contents() == old(store.Contents()) && store.snapshots == old(store.snapshots)
    {
      ghost var s, snapshots := store.Contents(), store.snapshots;
      RivalSave(store, l, id, rivals[i]);
      ExtendsTransitive(old(store.Contents()), s, store.Contents());
      RefreshedTransitive(old(store.snapshots), snapshots, store.snapshots, id);
      i := i + 1;
    }
  }

  method RivalSave(store: InMemoryEventStore, l: Logic, id: SnapshotId, w: World)
    requires store.Valid() && WellFormed(l) && StoredFaithful(l, store.Contents(), store.snapshots, id)
    modifies store
    ensures store.Valid() && Extends(old(store.Contents()), store.Contents())
    ensures StoredFaithful(l, store.Contents(), store.snapshots, id)
    ensures Refreshed(old(store.snapshots), store.snapshots, id)
  {
    hide Extends, WellFormed, OrderIsValid, FaithfulSnapshot, Saved, Refreshed, Reconstructed;
    ghost var s0, before := store.Contents(), store.snapshots;
    RefreshedItself(before, id);
    var stored := if id in store.snapshots then Some(store.snapshots[id]) else None;
    var r, trace := ReconstructCommandSnapshot(store, l, stored, w, 0);
    if id in store.snapshots { FaithfulSnapshotMonotone(l, s0, store.Contents(), store.snapshots[id]); }
    if r.Ok? && r.value.replacement.Some? {
      store.SaveSnapshot(id, r.value.replacement.value);
      SavedIsFaithful(l, store.Contents(), before, id, r.value, trace);
    }
  }

  /** Persists a replacement, unless the store refuses; rivals may have saved theirs before. */
  method SaveReplacement(store: InMemoryEventStore, l: Logic, id: SnapshotId, r: Reconstruction, w: World,
                         rivals: seq<World>, ghost trace: Trace)
    returns (error: Option<StoreError>, ghost found: map<SnapshotId, Snapshot>)
    requires store.Valid() && WellFormed(l) && Reconstructed(l, store.Contents(), r, trace)
    requires StoredFaithful(l, store.Contents(), store.snapshots, id)
    modifies store
    ensures store.Valid() && Extends(old(store.Contents()), store.Contents())
    ensures Reconstructed(l, store.Contents(), r, trace) && StoredFaithful(l, store.Contents(), store.snapshots, id)
    ensures Refreshed(old(store.snapshots), found, id) && Refreshed(found, store.snapshots, id)
    ensures rivals == [] ==> found == old(store.snapshots)
    ensures store.snapshots ==
            if error.None? && r.replacement.Some? then Saved(found, id, r.replacement.value) else found
    ensures error.None? && r.replacement.Some? ==> id in store.snapshots
    ensures error.Some? ==> error.value == StoreFailure && Fails(w)
    ensures Quiet(w) && rivals == [] ==> error.None? && store.Contents() == old(store.Contents())
  {
    hide Extends, WellFormed, FaithfulSnapshot, Refreshed, Saved, Covers, Complete;
    ghost var s0 := store.Contents();
    found := store.snapshots;
    ExtendsItself(s0);
    RefreshedItself(found, id);
    if r.replacement.None? { return None, found; }
    RivalSaves(store, l, id, rivals);
    ghost var s1 := store.Contents();
    found := store.snapshots;
    RefreshedItself(found, id);
    Interleave(store, w.others(1));
    ghost var s2 := store.Contents();
    ExtendsTransitive(s0, s1, s2);
    ReconstructionMonotone(l, s0, s2, r, trace);
    if id in store.snapshots { FaithfulSnapshotMonotone(l, s1, s2, store.snapshots[id]); }
    if w.fails(1) { return Some(StoreFailure), found; }
    store.SaveSnapshot(id, r.replacement.value);
    SavedIsFaithful(l, s2, found, id, r, trace);
    return None, found;
  }

  lemma SavedIsFaithful(l: Logic, s: Store, found: map<SnapshotId, Snapshot>, id: SnapshotId, r: Reconstruction,
                        trace: Trace)
    requires Reconstructed(l, s, r, trace) && r.replacement.Some? && StoredFaithful(l, s, found, id)
    ensures StoredFaithful(l, s, Saved(found, id, r.replacement.value), id)
    ensures Refreshed(found, Saved(found, id, r.replacement.value), id)
    ensures id in Saved(found, id, r.replacement.value)
  {
    assert IsSnapshotOf(l, s, r.replacement.value, trace);
  }

  lemma ReconstructionMonotone(l: Logic, s: Store, u: Store, r: Reconstruction, trace: Trace)
    requires Reconstructed(l, s, r, trace) && Extends(s, u)
    ensures Reconstructed(l, u, r, trace)
  {
    FaithfulMonotone(l, s, u, trace);
    CheckpointsMonotone(l, s, u, trace);
  }

  /** What an attempt reports: success, a conflict of its append, or whatever else stopped it. */
  predicate Reports(ending: Ending, result: Result<(), CommandError>, appended: bool) {
    match ending
    case Committed => result.Ok? && appended
    case Conflicted(e) => result == Err(EventStoreError(e)) && appended && e.VersionConflict?
    case GaveUp(e) => result == Err(e) && (appended ==> e == EventStoreError(StoreFailure))
  }

  /** Decides on the reconstructed state and appends under the version check. */
  method HandleAndAppend(store: InMemoryEventStore, c: Command, r: Reconstruction, w: World, ghost trace: Trace)
    returns (result: Result<(), CommandError>, appended: bool, ghost t: Try)
    requires store.Valid() && WellFormed(c.logic) && Reconstructed(c.logic, store.Contents(), r, trace)
    modifies store`streams, store`globalLog
    ensures store.Valid() && Extends(old(store.Contents()), t.found) && Extends(t.found, store.Contents())
    ensures Reports(t.ending, result, appended) && EndedSo(c, t, Fails(w))
    ensures if t.ending.Committed? then RunAlone(c, t.found) == Some(store.Contents()) else t.found == store.Contents()
    ensures Quiet(w) ==> t.found == old(store.Contents())
    ensures Quiet(w) && Outcome(r.state, r.versions) == FullReplay(c.logic, old(store.Contents())) ==> EndedAlone(c, t)
  {
    hide Extends, WellFormed, AppendAll, VersionsMatch, Complete, FullReplay, IsConflict;
    ghost var before := store.Contents();
    ExtendsItself(before);
    if Outcome(r.state, r.versions) == FullReplay(c.logic, before) {
      FullReplayIsCurrent(c.logic, before);
    }
    var handled := c.handle(r.state);
    if handled.Err? {
      assert RefusedBy(c, before, handled.error, trace);
      return Err(handled.error), false, Try(before, GaveUp(handled.error));
    }
    var built := BuildStreamWrites(handled.value, r.versions);
    if built.Err? {
      assert RefusedBy(c, before, EventStoreError(built.error), trace);
      return Err(EventStoreError(built.error)), false, Try(before, GaveUp(EventStoreError(built.error)));
    }
    assert JustifiedBy(c, before, built.value, trace);
    Interleave(store, w.others(2));
    JustifiedMonotone(c, before, store.Contents(), built.value);
    before := store.Contents();
    ExtendsItself(before);
    if w.fails(2) {
      return Err(EventStoreError(StoreFailure)), true, Try(before, GaveUp(EventStoreError(StoreFailure)));
    }
    var stored := store.AppendEvents(built.value);
    if stored.Ok? {
      CheckedWritesRunAlone(c, before, built.value);
      AppendAllExtends(before, built.value.entries);
      return Ok(()), true, Try(before, Committed);
    }
    ConflictFacts(before, built.value.expected, stored.error);
    return Err(EventStoreError(stored.error)), true, Try(before, Conflicted(stored.error));
  }

  /** After an undisturbed attempt on `s` the command's entry is up to date: a first one is kept
      once enough was replayed, an older one is replaced unless the new one does not cover it. */
  ghost predicate Recached(l: Logic, s: Store, before: map<SnapshotId, Snapshot>, after: map<SnapshotId, Snapshot>,
                           id: SnapshotId)
    requires WellFormed(l)
  {
    var full := FullReplay(l, s);
    if id !in before then
      && (id in after <==> Total(full.versions) >= REFRESH_THRESHOLD)
      && (id in after ==> Outcome(after[id].state, after[id].versions) == full)
    else
      && id in after
      && (Covers(full.versions, before[id].versions) ==> Outcome(after[id].state, after[id].versions) == full)
  }

  /** Load, reconstruct, save, decide, append: one attempt. */
  method Attempt(store: InMemoryEventStore, c: Command, id: SnapshotId, around: Surroundings)
    returns (result: Result<(), CommandError>, appended: bool, ghost t: Try)
    requires store.Valid() && WellFormed(c.logic) && StoredFaithful(c.logic, store.Contents(), store.snapshots, id)
    modifies store
    ensures store.Valid() && Extends(old(store.Contents()), t.found) && Extends(t.found, store.Contents())
    ensures StoredFaithful(c.logic, store.Contents(), store.snapshots, id)
    ensures Refreshed(old(store.snapshots), store.snapshots, id)
    ensures Reports(t.ending, result, appended) && Fair(c, t, FailsAround(around), Undisturbed(around))
    ensures if t.ending.Committed? then RunAlone(c, t.found) == Some(store.Contents()) else t.found == store.Contents()
    ensures Undisturbed(around) ==>
              && t.found == old(store.Contents())
              && Recached(c.logic, t.found, old(store.snapshots), store.snapshots, id)
  {
    hide Extends, WellFormed, FaithfulSnapshot, Refreshed, Saved, OrderIsValid, RunAlone, Complete, Refuses, EndedAlone,
      Recached, Covers, FullReplay, Reconstructed;
    var w := around.own;
    ghost var s0, snapshots := store.Contents(), store.snapshots;
    ExtendsItself(s0);
    RefreshedItself(store.snapshots, id);
    if w.fails(0) { return Unavailable(), false, Try(s0, GaveUp(EventStoreError(StoreFailure))); }
    var stored := if id in store.snapshots then Some(store.snapshots[id]) else None;
    var r, trace := ReconstructCommandSnapshot(store, c.logic, stored, around.reading, 0);
    ghost var s1 := store.Contents();
    ExtendsItself(s1);
    if id in store.snapshots { FaithfulSnapshotMonotone(c.logic, s0, s1, store.snapshots[id]); }
    if r.Err? { return Unavailable(), false, Try(s1, GaveUp(EventStoreError(StoreFailure))); }
    var refused, found := SaveReplacement(store, c.logic, id, r.value, w, around.rivals, trace);
    RefreshedTransitive(snapshots, found, store.snapshots, id);
    ghost var s2 := store.Contents();
    ExtendsTransitive(s0, s1, s2);
    ExtendsItself(s2);
    if refused.Some? { return Unavailable(), false, Try(s2, GaveUp(EventStoreError(StoreFailure))); }
    if Undisturbed(around) {
      FaithfulPasses(c.logic, s0, snapshots, id);
      ReplacementIsKept(c.logic, s0, snapshots, id, stored, r.value, trace);
    }
    result, appended, t := HandleAndAppend(store, c, r.value, w, trace);
    ExtendsTransitive(s0, s2, t.found);
    ExtendsTransitive(s2, t.found, store.Contents());
    ExtendsTransitive(s0, t.found, store.Contents());
    if id in store.snapshots { FaithfulSnapshotMonotone(c.logic, s2, store.Contents(), store.snapshots[id]); }
  }

  function Unavailable(): Result<(), CommandError> {
    Err(EventStoreError(StoreFailure))
  }

  lemma FaithfulPasses(l: Logic, s: Store, snapshots: map<SnapshotId, Snapshot>, id: SnapshotId)
    requires WellFormed(l) && StoredFaithful(l, s, snapshots, id)
    ensures id in snapshots ==> OrderIsValid(l, snapshots[id])
  {
    hide WellFormed, Complete, OrderIsValid;
    if id in snapshots {
      var t :| IsSnapshotOf(l, s, snapshots[id], t);
      FaithfulSnapshotIsValid(l, s, t);
    }
  }

  lemma ReplacementIsKept(l: Logic, s: Store, before: map<SnapshotId, Snapshot>, id: SnapshotId,
                          stored: Option<Snapshot>, r: Reconstruction, trace: Trace)
    requires WellFormed(l) && Reconstructed(l, s, r, trace) && Outcome(r.state, r.versions) == FullReplay(l, s)
    requires stored == (if id in before then Some(before[id]) else None)
    requires stored.Some? ==> OrderIsValid(l, stored.value)
    requires stored.None? ==> (r.replacement.Some? <==> Total(r.versions) >= REFRESH_THRESHOLD)
    requires stored.Some? && r.replacement.None? ==>
               r.versions == stored.value.versions && r.state == stored.value.state
    ensures Recached(l, s, before, if r.replacement.Some? then Saved(before, id, r.replacement.value) else before, id)
  {
    hide WellFormed, Complete, OrderIsValid, FullReplay, After, Covers;
  }

  /** The environment of one attempt: of its own accesses, of its reconstruction's reads, and
      the rivals that save a snapshot for the same command before it does. */
  datatype Surroundings = Surroundings(own: World, reading: World, rivals: seq<World>)

  ghost predicate FailsAround(s: Surroundings) {
    Fails(s.own) || Fails(s.reading)
  }

  ghost predicate Undisturbed(s: Surroundings) {
    Quiet(s.own) && Quiet(s.reading) && s.rivals == []
  }

  /** What is done about the end of attempt number `n`: another one follows, or the run is over. */
  ghost predicate EndsRun(t: Try, n: u32, maxRetries: u32, again: bool, r: Option<PipelineOutcome>) {
    match t.ending
    case Committed => !again && r == if n == U32_MAX then None else Some(Success(n + 1))
    case Conflicted(_) =>
      if n < maxRetries then again else !again && r == Some(Failure(ConcurrencyError(maxRetries)))
    case GaveUp(e) => !again && r == Some(Failure(e))
  }

  lemma ReportedAtLast(log: seq<Try>, t: Try, n: u32, maxRetries: u32, again: bool, r: Option<PipelineOutcome>)
    requires |log| == n <= maxRetries && EndsRun(t, n, maxRetries, again, r)
    requires forall i :: 0 <= i < |log| ==> log[i].ending.Conflicted?
    ensures again ==> t.ending.Conflicted? && n < maxRetries
    ensures !again ==> Reported(log + [t], r, maxRetries)
  {
  }

  /** Attempt number `n` and the decision whether another one follows. */
  method AttemptNumber(store: InMemoryEventStore, c: Command, id: SnapshotId, n: u32, maxRetries: u32,
                       around: Surroundings)
    returns (r: Option<PipelineOutcome>, again: bool, ghost t: Try)
    requires store.Valid() && WellFormed(c.logic) && StoredFaithful(c.logic, store.Contents(), store.snapshots, id)
    modifies store
    ensures store.Valid() && Extends(old(store.Contents()), t.found) && Extends(t.found, store.Contents())
    ensures StoredFaithful(c.logic, store.Contents(), store.snapshots, id)
    ensures Refreshed(old(store.snapshots), store.snapshots, id)
    ensures EndsRun(t, n, maxRetries, again, r) && Fair(c, t, FailsAround(around), Undisturbed(around))
    ensures if t.ending.Committed? then RunAlone(c, t.found) == Some(store.Contents()) else t.found == store.Contents()
    ensures Undisturbed(around) ==>
              && !again && t.found == old(store.Contents())
              && Recached(c.logic, t.found, old(store.snapshots), store.snapshots, id)
  {
    hide Extends, WellFormed, StoredFaithful, Refreshed, RunAlone, Undisturbed, Fair, Recached, FailsAround;
    var result, appended;
    result, appended, t := Attempt(store, c, id, around);
    if Undisturbed(around) { LeftAloneIsDecided(c, t, FailsAround(around)); }
    r, again := None, false;
    if result.Ok? {
      r := if n == U32_MAX then None else Some(Success(n + 1));
    } else if !appended || !IsVersionConflict(result.error) {
      r := Some(Failure(result.error));
    } else if n >= maxRetries {
      r := Some(Failure(ConcurrencyError(maxRetries)));
    } else {
      again := true;
    }
  }

  /** The cached executor.  Attempt by attempt it ends as the plain one does, and the snapshot
      it leaves behind is faithful and covers the one it found. */
  method ExecuteWithSnapshot(store: InMemoryEventStore, c: Command, id: SnapshotId, maxRetries: u32,
                             around: nat -> Surroundings)
    returns (r: Option<PipelineOutcome>, ghost log: seq<Try>)
    requires store.Valid() && WellFormed(c.logic)
    requires StoredFaithful(c.logic, store.Contents(), store.snapshots, id)
    modifies store
    ensures store.Valid() && Reported(log, r, maxRetries) && AllFairAround(c, log, around)
    ensures LeftBehind(c, log, store.Contents())
    ensures FoundSince(old(store.Contents()), log, Undisturbed(around(0)))
    ensures StoredFaithful(c.logic, store.Contents(), store.snapshots, id)
    ensures Refreshed(old(store.snapshots), store.snapshots, id)
    ensures Undisturbed(around(0)) ==>
              Recached(c.logic, old(store.Contents()), old(store.snapshots), store.snapshots, id)
  {
    hide Extends, WellFormed, StoredFaithful, Refreshed, RunAlone, Undisturbed, Fair, Recached, FailsAround,
      AllFairAround,
      FoundSince, EndsRun, Reported;
    var attempt: u32 := 0;
    log := [];
    ExtendsItself(store.Contents());
    RefreshedItself(store.snapshots, id);
    NothingTriedYet(c, store.Contents(), around);
    while true
      invariant store.Valid() && Extends(old(store.Contents()), store.Contents())
      invariant StoredFaithful(c.logic, store.Contents(), store.snapshots, id)
      invariant Refreshed(old(store.snapshots), store.snapshots, id)
      invariant |log| == attempt <= maxRetries && forall i :: 0 <= i < |log| ==> log[i].ending.Conflicted?
      invariant AllFairAround(c, log, around) && FoundSince(old(store.Contents()), log, Undisturbed(around(0)))
      invariant attempt == 0 ==>
                  store.Contents() == old(store.Contents()) && store.snapshots == old(store.snapshots)
      invariant Undisturbed(around(0)) ==> attempt == 0
      decreases maxRetries - attempt
    {
      ghost var s0, snapshots, earlier := store.Contents(), store.snapshots, log;
      ghost var t;
      var again;
      r, again, t := AttemptNumber(store, c, id, attempt, maxRetries, around(attempt));
      ExtendsTransitive(old(store.Contents()), s0, t.found);
      ExtendsTransitive(old(store.Contents()), t.found, store.Contents());
      RefreshedTransitive(old(store.snapshots), snapshots, store.snapshots, id);
      ReportedAtLast(log, t, attempt, maxRetries, again, r);
      log := log + [t];
      OneMoreFair(c, old(store.Contents()), earlier, around, t);
      if !again { return; }
      attempt := attempt + 1;
      ghost var s1 := store.Contents();
      Sleep(store, c.logic, id, around(attempt).own);
      ExtendsTransitive(old(store.Contents()), s1, store.Contents());
    }
  }

  predicate IsVersionConflict(e: CommandError) {
    e.EventStoreError? && e.error.VersionConflict?
  }

  ghost predicate AllFairAround(c: Command, log: seq<Try>, around: nat -> Surroundings)
    requires WellFormed(c.logic)
  {
    forall i :: 0 <= i < |log| ==> Fair(c, log[i], FailsAround(around(i)), Undisturbed(around(i)))
  }

  lemma NothingTriedYet(c: Command, s: Store, around: nat -> Surroundings)
    requires WellFormed(c.logic)
    ensures AllFairAround(c, [], around) && FoundSince(s, [], Undisturbed(around(0)))
  {
  }

  lemma OneMoreFair(c: Command, s0: Store, log: seq<Try>, around: nat -> Surroundings, t: Try)
    requires WellFormed(c.logic) && AllFairAround(c, log, around) && FoundSince(s0, log, Undisturbed(around(0)))
    requires Fair(c, t, FailsAround(around(|log|)), Undisturbed(around(|log|)))
    requires Extends(s0, t.found) && (Undisturbed(around(0)) && log == [] ==> t.found == s0)
    ensures AllFairAround(c, log + [t], around) && FoundSince(s0, log + [t], Undisturbed(around(0)))
  {
    hide Fair, FailsAround, Undisturbed, Extends;
    forall i | 0 <= i < |log + [t]|
      ensures Fair(c, (log + [t])[i], FailsAround(around(i)), Undisturbed(around(i))) {
      if i < |log| { assert Fair(c, log[i], FailsAround(around(i)), Undisturbed(around(i))); }
    }
  }

  lemma LeftAloneIsDecided(c: Command, t: Try, fails: bool)
    requires WellFormed(c.logic) && Fair(c, t, fails, true)
    ensures !t.ending.Conflicted?
  {
  }

  method Sleep(store: InMemoryEventStore, l: Logic, id: SnapshotId, w: World)
    requires store.Valid() && StoredFaithful(l, store.Contents(), store.snapshots, id)
    modifies store`streams, store`globalLog
    ensures store.Valid() && Extends(old(store.Contents()), store.Contents())
    ensures StoredFaithful(l, store.Contents(), store.snapshots, id)
  {
    ghost var s := store.Contents();
    Interleave(store, w.others(0));
    if id in store.snapshots { FaithfulSnapshotMonotone(l, s, store.Contents(), store.snapshots[id]); }
  }

  lemma RefreshedItself(a: map<SnapshotId, Snapshot>, id: SnapshotId)
    ensures Refreshed(a, a, id)
  {
  }

  lemma RefreshedTransitive(a: map<SnapshotId, Snapshot>, b: map<SnapshotId, Snapshot>, c: map<SnapshotId, Snapshot>,
                            id: SnapshotId)
    requires Refreshed(a, b, id) && Refreshed(b, c, id)
    ensures Refreshed(a, c, id)
  {
    forall k | k in a ensures k in c && Covers(c[k].versions, a[k].versions) {
      assert Covers(b[k].versions, a[k].versions) && Covers(c[k].versions, b[k].versions);
    }
  }
}
