/** State reconstruction from a durable snapshot: the cached form of `FullReplay`. */
module Reconstruct {
  import opened Streams
  import opened Writes
  import opened Replay
  import opened Snapshots
  import opened MemoryStore
  import opened Execute

  const REFRESH_THRESHOLD: nat := 100

  /** The replay in progress: one field per component of the source's record. */
  datatype ReplayProgress = ReplayProgress(
    state: State,
    queue: seq<StreamId>,
    visited: set<StreamId>,
    scheduled: set<StreamId>,
    versions: map<StreamId, nat>,
    checkpoints: seq<Checkpoint>)

  datatype Reconstruction = Reconstruction(state: State, versions: map<StreamId, nat>, replacement: Option<Snapshot>)

  /** `p` is exactly what reading `trace` leaves in memory. */
  ghost predicate Represents(l: Logic, s: Store, p: ReplayProgress, trace: Trace) {
    && Faithful(l, s, trace)
    && After(l, s, trace) == Progress(p.state, Discovery(p.queue, p.scheduled))
    && p.visited == StreamsOf(trace)
    && p.versions == VersionsOf(trace)
    && p.checkpoints == CheckpointsOf(l, s, trace)
  }

  /** The result stands for a complete read of `trace`. */
  ghost predicate Reconstructed(l: Logic, s: Store, r: Reconstruction, trace: Trace) {
    && Complete(l, s, trace)
    && r.state == After(l, s, trace).state
    && r.versions == VersionsOf(trace)
    && (r.replacement.Some? ==> r.replacement.value == SnapshotOf(l, s, trace))
  }

  lemma RepresentsMonotone(l: Logic, s: Store, t: Store, p: ReplayProgress, trace: Trace)
    requires Represents(l, s, p, trace) && Extends(s, t)
    ensures Represents(l, t, p, trace)
  {
    FaithfulMonotone(l, s, t, trace);
    CheckpointsMonotone(l, s, t, trace);
  }

  // ------------------------------------------------------------- replay order

  /** The discovery state after following the first `n` recorded checkpoints, if their order
      is legal. */
  function FollowOrder(l: Logic, cs: seq<Checkpoint>, n: nat): Option<Discovery>
    requires n <= |cs|
  {
    if n == 0 then Some(Discovery(l.declared, Elements(l.declared)))
    else
      match FollowOrder(l, cs, n - 1)
      case None => None
      case Some(d) => FollowOne(l, d, CheckpointStreams(cs, n - 1), cs[n - 1])
  }

  function FollowOne(l: Logic, d: Discovery, visited: set<StreamId>, c: Checkpoint): Option<Discovery> {
    if d.queue == [] || d.queue[0] != c.stream || c.stream in visited || c.stream !in c.versions then None
    else Some(Schedule(Discovery(d.queue[1..], d.scheduled), l.discover(c.state)))
  }

  function CheckpointStreams(cs: seq<Checkpoint>, n: nat): set<StreamId>
    requires n <= |cs|
  {
    if n == 0 then {} else CheckpointStreams(cs, n - 1) + {cs[n - 1].stream}
  }

  /** The recorded order is a complete legal discovery, and the last checkpoint carries the
      snapshot's versions. */
  predicate OrderIsValid(l: Logic, snap: Snapshot) {
    && |snap.versions| == |snap.checkpoints|
    && FollowOrder(l, snap.checkpoints, |snap.checkpoints|).Some?
    && FollowOrder(l, snap.checkpoints, |snap.checkpoints|).value.queue == []
    && VersionsInLast(snap)
  }

  predicate VersionsInLast(snap: Snapshot) {
    forall id :: id in snap.versions ==>
      && snap.checkpoints != []
      && id in snap.checkpoints[|snap.checkpoints| - 1].versions
      && snap.checkpoints[|snap.checkpoints| - 1].versions[id] == snap.versions[id]
  }

  lemma {:induction false} FollowOrderPrefix(l: Logic, cs: seq<Checkpoint>, n: nat, m: nat)
    requires n <= m <= |cs| && FollowOrder(l, cs, m).Some?
    ensures FollowOrder(l, cs, n).Some?
  {
    if n < m { FollowOrderPrefix(l, cs, n, m - 1); }
  }

  lemma {:induction false} FollowOrderAgree(l: Logic, a: seq<Checkpoint>, b: seq<Checkpoint>, n: nat)
    requires n <= |a| && n <= |b| && forall i :: 0 <= i < n ==> a[i] == b[i]
    ensures FollowOrder(l, a, n) == FollowOrder(l, b, n)
    ensures CheckpointStreams(a, n) == CheckpointStreams(b, n)
  {
    if n > 0 { FollowOrderAgree(l, a, b, n - 1); }
  }

  lemma {:induction false} FollowOrderSound(l: Logic, cs: seq<Checkpoint>, n: nat)
    requires n <= |cs| && WellFormed(l) && FollowOrder(l, cs, n).Some?
    ensures Sound(l, FollowOrder(l, cs, n).value)
  {
    if n > 0 {
      FollowOrderSound(l, cs, n - 1);
      DequeueSound(l, FollowOrder(l, cs, n - 1).value, cs[n - 1].state);
    }
  }

  lemma DequeueSound(l: Logic, d: Discovery, state: State)
    requires WellFormed(l) && Sound(l, d) && d.queue != []
    ensures Sound(l, Schedule(Discovery(d.queue[1..], d.scheduled), l.discover(state)))
  {
    assert d.queue == [d.queue[0]] + d.queue[1..];
    ScheduleSound(l, Discovery(d.queue[1..], d.scheduled), l.discover(state));
  }

  lemma StartPending(l: Logic)
    requires WellFormed(l)
    ensures Start(l).pending == Discovery(l.declared, Elements(l.declared))
  {
    StartQueue(l, |l.declared|);
    assert l.declared[..|l.declared|] == l.declared;
  }

  lemma {:induction false} CheckpointStreamsOf(l: Logic, s: Store, trace: Trace)
    requires Faithful(l, s, trace)
    ensures |CheckpointsOf(l, s, trace)| == Length(trace)
    ensures CheckpointStreams(CheckpointsOf(l, s, trace), Length(trace)) == StreamsOf(trace)
  {
    hide FollowOrder, After;
    if trace.Then? {
      var cs := CheckpointsOf(l, s, trace.before);
      CheckpointStreamsOf(l, s, trace.before);
      FollowOrderAgree(l, cs, CheckpointsOf(l, s, trace), |cs|);
    }
  }

  /** The checkpoints of a faithful trace retrace exactly its discovery. */
  lemma {:induction false} FaithfulOrder(l: Logic, s: Store, trace: Trace)
    requires WellFormed(l) && Faithful(l, s, trace)
    ensures |CheckpointsOf(l, s, trace)| == Length(trace)
    ensures FollowOrder(l, CheckpointsOf(l, s, trace), Length(trace)) == Some(After(l, s, trace).pending)
  {
    if trace == Unread {
      StartPending(l);
    } else {
      hide FollowOne, After, WellFormed, CheckpointStreams;
      var cs, all := CheckpointsOf(l, s, trace.before), CheckpointsOf(l, s, trace);
      FaithfulOrder(l, s, trace.before);
      CheckpointStreamsOf(l, s, trace.before);
      FollowOrderAgree(l, cs, all, |cs|);
      FollowsNext(l, s, trace);
    }
  }

  lemma FollowsNext(l: Logic, s: Store, trace: Trace)
    requires WellFormed(l) && Faithful(l, s, trace) && trace.Then?
    ensures FollowOne(l, After(l, s, trace.before).pending, StreamsOf(trace.before),
                      Checkpoint(trace.stream, After(l, s, trace).state, VersionsOf(trace)))
         == Some(After(l, s, trace).pending)
  {
    hide WellFormed;
    NextStreamIsNew(l, s, trace);
    VersionsKeys(trace.before);
  }

  lemma {:induction false} VersionsCount(l: Logic, s: Store, trace: Trace)
    requires WellFormed(l) && Faithful(l, s, trace)
    ensures |VersionsOf(trace).Keys| == Length(trace)
  {
    if trace.Then? {
      VersionsCount(l, s, trace.before);
      NextStreamIsNew(l, s, trace);
      assert VersionsOf(trace).Keys == VersionsOf(trace.before).Keys + {trace.stream};
    }
  }

  lemma NextStreamIsNew(l: Logic, s: Store, trace: Trace)
    requires WellFormed(l) && Faithful(l, s, trace) && trace.Then?
    ensures Faithful(l, s, trace.before) && trace.stream !in VersionsOf(trace.before).Keys
  {
    hide WellFormed, After;
    FaithfulShape(l, s, trace);
    VersionsKeys(trace.before);
  }

  /** A faithful snapshot always passes the replay-order check. */
  lemma FaithfulSnapshotIsValid(l: Logic, s: Store, trace: Trace)
    requires WellFormed(l) && Complete(l, s, trace)
    ensures OrderIsValid(l, SnapshotOf(l, s, trace))
  {
    FaithfulOrder(l, s, trace);
    VersionsCount(l, s, trace);
    assert |VersionsOf(trace)| == |VersionsOf(trace).Keys|;
  }

  // ------------------------------------------------------------- methods

  method DiscoverRelated(l: Logic, state: State, queue: seq<StreamId>, scheduled: set<StreamId>)
    returns (queue': seq<StreamId>, scheduled': set<StreamId>)
    ensures Discovery(queue', scheduled') == Schedule(Discovery(queue, scheduled), l.discover(state))
  {
    queue', scheduled' := queue, scheduled;
    var found := l.discover(state);
    var i := 0;
    while i < |found|
      invariant 0 <= i <= |found|
      invariant Discovery(queue', scheduled') == Schedule(Discovery(queue, scheduled), found[..i])
    {
      assert found[..i + 1][..i] == found[..i];
      if found[i] !in scheduled' {
        queue', scheduled' := queue' + [found[i]], scheduled' + {found[i]};
      }
      i := i + 1;
    }
    assert found[..i] == found;
  }

  method SnapshotReplayOrderIsValid(l: Logic, snap: Snapshot) returns (valid: bool)
    ensures valid == OrderIsValid(l, snap)
  {
    hide Schedule, WellFormed, VersionsInLast;
    if |snap.versions| != |snap.checkpoints| {
      return false;
    }
    var queue, scheduled := l.declared, Elements(l.declared);
    var visited: set<StreamId> := {};
    var cs := snap.checkpoints;
    var i := 0;
    while i < |cs|
      invariant 0 <= i <= |cs|
      invariant FollowOrder(l, cs, i) == Some(Discovery(queue, scheduled))
      invariant visited == CheckpointStreams(cs, i)
    {
      if queue == [] || queue[0] != cs[i].stream || queue[0] in visited || queue[0] !in cs[i].versions {
        if FollowOrder(l, cs, |cs|).Some? { FollowOrderPrefix(l, cs, i + 1, |cs|); }
        return false;
      }
      visited := visited + {queue[0]};
      queue, scheduled := DiscoverRelated(l, cs[i].state, queue[1..], scheduled);
      i := i + 1;
    }
    valid := queue == [] && VersionsInLast(snap);
  }

  /** Rebuilds the discovery state up to checkpoint `n` of a validated order; the pop never
      finds an empty queue. */
  method DiscoveryBeforeCheckpoint(l: Logic, cs: seq<Checkpoint>, n: nat)
    returns (state: State, queue: seq<StreamId>, visited: set<StreamId>, scheduled: set<StreamId>)
    requires n <= |cs| && FollowOrder(l, cs, n).Some?
    ensures FollowOrder(l, cs, n) == Some(Discovery(queue, scheduled))
    ensures visited == CheckpointStreams(cs, n)
    ensures state == if n == 0 then l.initial else cs[n - 1].state
  {
    hide Schedule;
    queue, scheduled, visited := l.declared, Elements(l.declared), {};
    state := l.initial;
    var i := 0;
    while i < n
      invariant 0 <= i <= n
      invariant FollowOrder(l, cs, i) == Some(Discovery(queue, scheduled))
      invariant visited == CheckpointStreams(cs, i)
      invariant state == if i == 0 then l.initial else cs[i - 1].state
    {
      FollowOrderPrefix(l, cs, i + 1, n);
      visited := visited + {queue[0]};
      state := cs[i].state;
      queue, scheduled := DiscoverRelated(l, state, queue[1..], scheduled);
      i := i + 1;
    }
  }

  /** Consumes an opened stream one event at a time; others may commit before each. */
  method FoldEvents(store: InMemoryEventStore, l: Logic, start: State, events: seq<Event>, w: World, tick: nat)
    returns (r: Result<State, StoreError>, tick': nat)
    requires store.Valid()
    modifies store`streams, store`globalLog
    ensures store.Valid() && Extends(old(store.Contents()), store.Contents())
    ensures r.Ok? ==> r.value == Fold(l, start, events)
    ensures r.Err? ==> r.error == StoreFailure && Fails(w)
    ensures Quiet(w) ==> r.Ok? && store.Contents() == old(store.Contents())
  {
    var state, count := start, 0;
    tick' := tick;
    while count < |events|
      invariant 0 <= count <= |events|
      invariant store.Valid() && Extends(old(store.Contents()), store.Contents())
      invariant state == Fold(l, start, events[..count])
      invariant Quiet(w) ==> store.Contents() == old(store.Contents())
    {
      label before:
      Interleave(store, w.others(tick'));
      ExtendsTransitive(old(store.Contents()), old@before(store.Contents()), store.Contents());
      if w.fails(tick') {
        return Err(StoreFailure), tick';
      }
      tick' := tick' + 1;
      assert events[..count + 1][..count] == events[..count];
      state := l.apply(state, events[count]);
      count := count + 1;
    }
    assert events[..count] == events;
    r := Ok(state);
  }

  /** `n` events of stream `id` after the first `from`, folded onto `start`, give `state`. */
  ghost predicate FoldedSlice(l: Logic, s: Store, id: StreamId, from: nat, n: nat, start: State, state: State) {
    && from + n <= |Stream(s, id)|
    && state == Fold(l, start, Stream(s, id)[from..from + n])
  }

  /** Folds a stream, or the part of it after `base`.  What was folded is a slice of the
      stream as it stands at the end, provided `base` was within it at the start. */
  method ApplyCommandStream(store: InMemoryEventStore, l: Logic, start: State, id: StreamId, base: Option<nat>,
                            w: World, tick: nat)
    returns (r: Result<(State, nat), StoreError>, tick': nat)
    requires store.Valid()
    modifies store`streams, store`globalLog
    ensures store.Valid() && Extends(old(store.Contents()), store.Contents())
    ensures r.Ok? && base.None? ==>
              FoldedSlice(l, store.Contents(), id, 0, r.value.1, start, r.value.0)
    ensures r.Ok? && base.Some? && base.value <= |Stream(old(store.Contents()), id)| ==>
              FoldedSlice(l, store.Contents(), id, base.value, r.value.1, start, r.value.0)
    ensures r.Err? ==> r.error == StoreFailure && Fails(w)
    ensures Quiet(w) ==> r.Ok? && store.Contents() == old(store.Contents())
    ensures Quiet(w) && base.None? ==> r.value.1 == |Stream(store.Contents(), id)|
    ensures Quiet(w) && base.Some? && base.value <= |Stream(old(store.Contents()), id)| ==>
              base.value + r.value.1 == |Stream(store.Contents(), id)|
  {
    ghost var s0 := store.Contents();
    Interleave(store, w.others(tick));
    ghost var s1 := store.Contents();
    if w.fails(tick) {
      return Err(StoreFailure), tick + 1;
    }
    var events := OpenStream(store, id, base);
    var folded;
    folded, tick' := FoldEvents(store, l, start, events, w, tick + 1);
    ghost var s2 := store.Contents();
    ExtendsTransitive(s0, s1, s2);
    ghost var from := if base.Some? then base.value else 0;
    if folded.Err? {
      return Err(folded.error), tick';
    }
    assert Stream(s0, id) <= Stream(s1, id);
    if from <= |Stream(s1, id)| {
      SliceFolded(l, s1, s2, id, from, events, start, folded.value);
    }
    r := Ok((folded.value, |events|));
  }

  lemma SliceFolded(l: Logic, s: Store, u: Store, id: StreamId, from: nat, events: seq<Event>, start: State,
                    state: State)
    requires Extends(s, u) && from <= |Stream(s, id)| && events == Stream(s, id)[from..]
    requires state == Fold(l, start, events)
    ensures FoldedSlice(l, u, id, from, |events|, start, state)
  {
    assert Stream(s, id) <= Stream(u, id);
    assert Stream(u, id)[from..from + |events|] == events;
  }

  method OpenStream(store: InMemoryEventStore, id: StreamId, base: Option<nat>) returns (events: seq<Event>)
    ensures var from := if base.Some? then base.value else 0;
            from <= |Stream(store.Contents(), id)| ==> events == Stream(store.Contents(), id)[from..]
  {
    if base.Some? {
      events := store.ReadStreamAfter(id, base.value);
    } else {
      events := store.ReadStreamEvents(id);
    }
  }

  /** Reads the stream at the head of the queue in full and records its checkpoint. */
  method ReplayNextStream(store: InMemoryEventStore, l: Logic, p: ReplayProgress, w: World, tick: nat,
                          ghost seen: Trace)
    returns (r: Result<ReplayProgress, StoreError>, tick': nat, ghost trace: Trace)
    requires store.Valid() && WellFormed(l) && Sound(l, Discovery(p.queue, p.scheduled)) && p.queue != []
    modifies store`streams, store`globalLog
    ensures store.Valid() && Extends(old(store.Contents()), store.Contents())
    ensures r.Ok? ==> Sound(l, Discovery(r.value.queue, r.value.scheduled))
    ensures r.Ok? ==> r.value.scheduled - Elements(r.value.queue) == p.scheduled - Elements(p.queue) + {p.queue[0]}
    ensures r.Ok? && Represents(l, old(store.Contents()), p, seen) ==>
              Represents(l, store.Contents(), r.value, trace)
    ensures r.Err? ==> r.error == StoreFailure && Fails(w)
    ensures Quiet(w) ==> r.Ok? && store.Contents() == old(store.Contents())
    ensures Quiet(w) && Current(store.Contents(), seen) ==> Current(store.Contents(), trace)
  {
    trace := seen;
    ghost var s0 := store.Contents();
    var applied;
    applied, tick' := ApplyCommandStream(store, l, p.state, p.queue[0], None, w, tick);
    if applied.Err? {
      return Err(applied.error), tick', trace;
    }
    var (state, count) := applied.value;
    var queue, scheduled := DiscoverRelated(l, state, p.queue[1..], p.scheduled);
    var id := p.queue[0];
    var versions := p.versions[id := count];
    r := Ok(ReplayProgress(state, queue, p.visited + {id}, scheduled, versions,
                           p.checkpoints + [Checkpoint(id, state, versions)]));
    assert r.value == Advance(l, p, state, count);
    AdvanceSound(l, p, state, count);
    if Represents(l, s0, p, seen) {
      RepresentsMonotone(l, s0, store.Contents(), p, seen);
      ReadNext(l, store.Contents(), p, seen, state, count);
      trace := Then(seen, id, count);
    }
  }

  /** Reads every stream still queued.  The loop ends because each turn takes a stream out
      of the finite universe for good. */
  method ReplayRemainingStreams(store: InMemoryEventStore, l: Logic, start: ReplayProgress, w: World, tick: nat,
                                ghost seen: Trace)
    returns (r: Result<ReplayProgress, StoreError>, tick': nat, ghost trace: Trace)
    requires store.Valid() && WellFormed(l) && Sound(l, Discovery(start.queue, start.scheduled))
    modifies store`streams, store`globalLog
    ensures store.Valid() && Extends(old(store.Contents()), store.Contents())
    ensures r.Ok? ==> r.value.queue == []
    ensures r.Ok? && Represents(l, old(store.Contents()), start, seen) ==>
              Represents(l, store.Contents(), r.value, trace)
    ensures r.Err? ==> r.error == StoreFailure && Fails(w)
    ensures Quiet(w) ==> r.Ok? && store.Contents() == old(store.Contents())
    ensures Quiet(w) && Current(store.Contents(), seen) ==> Current(store.Contents(), trace)
  {
    var p := start;
    trace, tick' := seen, tick;
    ghost var s0 := store.Contents();
    while p.queue != []
      invariant store.Valid() && Extends(s0, store.Contents())
      invariant Sound(l, Discovery(p.queue, p.scheduled))
      invariant Represents(l, s0, start, seen) ==> Represents(l, store.Contents(), p, trace)
      invariant Quiet(w) ==> store.Contents() == s0 && (Current(s0, seen) ==> Current(s0, trace))
      decreases l.universe - (p.scheduled - Elements(p.queue))
    {
      ghost var s1 := store.Contents();
      if p.queue[0] in p.visited {
        SkippedNeverWhenFaithful(l, s1, p, trace);
        SkipShrinks(l, p.queue, p.scheduled);
        p := p.(queue := p.queue[1..]);
      } else {
        var next;
        next, tick', trace := ReplayNextStream(store, l, p, w, tick', trace);
        ExtendsTransitive(s0, s1, store.Contents());
        if next.Err? {
          return next, tick', trace;
        }
        HeadUnvisited(l, p.queue, p.scheduled);
        p := next.value;
      }
    }
    r := Ok(p);
  }

  lemma HeadUnvisited(l: Logic, queue: seq<StreamId>, scheduled: set<StreamId>)
    requires Sound(l, Discovery(queue, scheduled)) && queue != []
    ensures queue[0] in l.universe - (scheduled - Elements(queue))
  {
    assert queue[0] in Elements(queue);
  }

  lemma SkipShrinks(l: Logic, queue: seq<StreamId>, scheduled: set<StreamId>)
    requires Sound(l, Discovery(queue, scheduled)) && queue != []
    ensures Sound(l, Discovery(queue[1..], scheduled))
    ensures l.universe - (scheduled - Elements(queue[1..])) < l.universe - (scheduled - Elements(queue))
  {
    HeadUnvisited(l, queue, scheduled);
    assert queue == [queue[0]] + queue[1..];
    assert Elements(queue) == {queue[0]} + Elements(queue[1..]);
    assert queue[0] !in Elements(queue[1..]);
  }

  lemma SkippedNeverWhenFaithful(l: Logic, s: Store, p: ReplayProgress, trace: Trace)
    requires WellFormed(l) && p.queue != [] && p.queue[0] in p.visited
    ensures !Represents(l, s, p, trace)
  {
    assert p.queue[0] in Elements(p.queue);
    if Represents(l, s, p, trace) {
      FaithfulShape(l, s, trace);
    }
  }

  function Advance(l: Logic, p: ReplayProgress, state: State, n: nat): ReplayProgress
    requires p.queue != []
  {
    var id := p.queue[0];
    var d := Schedule(Discovery(p.queue[1..], p.scheduled), l.discover(state));
    var versions := p.versions[id := n];
    ReplayProgress(state, d.queue, p.visited + {id}, d.scheduled, versions,
                   p.checkpoints + [Checkpoint(id, state, versions)])
  }

  lemma AdvanceSound(l: Logic, p: ReplayProgress, state: State, n: nat)
    requires WellFormed(l) && Sound(l, Discovery(p.queue, p.scheduled)) && p.queue != []
    ensures var q := Advance(l, p, state, n);
            && Sound(l, Discovery(q.queue, q.scheduled))
            && q.scheduled - Elements(q.queue) == p.scheduled - Elements(p.queue) + {p.queue[0]}
  {
    assert p.queue == [p.queue[0]] + p.queue[1..];
    assert Elements(p.queue) == {p.queue[0]} + Elements(p.queue[1..]);
    ScheduleSound(l, Discovery(p.queue[1..], p.scheduled), l.discover(state));
  }

  /** One more stream read to version `n` extends the trace and its checkpoints by one. */
  lemma ReadNext(l: Logic, s: Store, p: ReplayProgress, trace: Trace, state: State, n: nat)
    requires WellFormed(l) && Represents(l, s, p, trace) && p.queue != []
    requires FoldedSlice(l, s, p.queue[0], 0, n, p.state, state)
    ensures Represents(l, s, Advance(l, p, state, n), Then(trace, p.queue[0], n))
  {
  }

  // ------------------------------------------------------------- the cached reconstruction

  /** Reading `n` more events of the stream read last turns a faithful trace into an equally
      faithful trace at the newer version. */
  lemma TailExtendsTrace(l: Logic, s: Store, t: Trace, n: nat, state: State)
    requires t.Then? && Faithful(l, s, t)
    requires FoldedSlice(l, s, t.stream, t.version, n, After(l, s, t).state, state)
    ensures var newer := t.(version := t.version + n);
            && Faithful(l, s, newer)
            && After(l, s, newer).state == state
            && VersionsOf(newer) == VersionsOf(t)[t.stream := t.version + n]
  {
    hide Fold, Schedule, WellFormed;
    FoldTail(l, After(l, s, t.before).state, Stream(s, t.stream), t.version, n);
  }

  lemma FoldTail(l: Logic, st: State, events: seq<Event>, from: nat, n: nat)
    requires from + n <= |events|
    ensures Fold(l, st, events[..from + n]) == Fold(l, Fold(l, st, events[..from]), events[from..from + n])
  {
    assert events[..from + n] == events[..from] + events[from..from + n];
    FoldConcat(l, st, events[..from], events[from..from + n]);
  }

  ghost function Total(versions: map<StreamId, nat>): nat {
    if versions == map[] then 0
    else
      var id :| id in versions;
      versions[id] + Total(versions - {id})
  }

  lemma {:induction false} TotalRemove(versions: map<StreamId, nat>, id: StreamId)
    requires id in versions
    ensures Total(versions) == versions[id] + Total(versions - {id})
    decreases versions
  {
    var k :| k in versions && Total(versions) == versions[k] + Total(versions - {k});
    if k != id {
      TotalRemove(versions - {k}, id);
      TotalRemove(versions - {id}, k);
      assert versions - {k} - {id} == versions - {id} - {k};
    }
  }

  function TailProgress(l: Logic, before: Discovery, visited: set<StreamId>, earlier: seq<Checkpoint>, id: StreamId,
                        state: State, versions: map<StreamId, nat>): ReplayProgress
    requires before.queue != []
  {
    var d := Schedule(Discovery(before.queue[1..], before.scheduled), l.discover(state));
    ReplayProgress(state, d.queue, visited + {id}, d.scheduled, versions, earlier + [Checkpoint(id, state, versions)])
  }

  /** Checkpoint `i` can be advanced: the order up to it is legal and leads to its stream. */
  predicate Resumable(l: Logic, snap: Snapshot, i: nat) {
    && i < |snap.checkpoints|
    && snap.checkpoints[i].stream in snap.checkpoints[i].versions
    && FollowOrder(l, snap.checkpoints, i).Some?
    && FollowOrder(l, snap.checkpoints, i).value.queue != []
  }

  /** Checkpoint `i` advanced by `count` events, on top of the discovery state before it. */
  function Advanced(l: Logic, snap: Snapshot, i: nat, state: State, count: nat): ReplayProgress
    requires Resumable(l, snap, i)
  {
    var c := snap.checkpoints[i];
    TailProgress(l, FollowOrder(l, snap.checkpoints, i).value, CheckpointStreams(snap.checkpoints, i),
                 snap.checkpoints[..i], c.stream, state, c.versions[c.stream := c.versions[c.stream] + count])
  }

  method PrepareTail(l: Logic, snap: Snapshot, i: nat, state: State, count: nat) returns (p: ReplayProgress)
    requires WellFormed(l) && OrderIsValid(l, snap) && i < |snap.checkpoints|
    ensures Resumable(l, snap, i) && p == Advanced(l, snap, i, state, count)
    ensures Sound(l, Discovery(p.queue, p.scheduled))
  {
    var cs := snap.checkpoints;
    FollowOrderPrefix(l, cs, i + 1, |cs|);
    var id := cs[i].stream;
    var versions := cs[i].versions[id := cs[i].versions[id] + count];
    var _, queue, visited, scheduled := DiscoveryBeforeCheckpoint(l, cs, i);
    FollowOrderSound(l, cs, i);
    DequeueSound(l, Discovery(queue, scheduled), state);
    queue, scheduled := DiscoverRelated(l, state, queue[1..], scheduled);
    p := ReplayProgress(state, queue, visited + {id}, scheduled, versions,
                        cs[..i] + [Checkpoint(id, state, versions)]);
  }

  /** `count` events beyond checkpoint `i`, which was recorded after `t`, folded give `state`. */
  ghost predicate TailFound(l: Logic, s: Store, snap: Snapshot, i: nat, t: Trace, state: State, count: nat) {
    && CheckpointAfter(l, s, snap.checkpoints, i, t)
    && FoldedSlice(l, s, t.stream, t.version, count, After(l, s, t).state, state)
  }

  /** The progress installed for a tail is a faithful partial replay of the present store. */
  lemma AdvancedRepresents(l: Logic, s: Store, snap: Snapshot, i: nat, t: Trace, state: State, count: nat)
    requires WellFormed(l) && TailFound(l, s, snap, i, t, state, count)
    ensures Resumable(l, snap, i)
    ensures Represents(l, s, Advanced(l, snap, i, state, count), t.(version := t.version + count))
  {
    hide WellFormed, FollowOrder, CheckpointStreams, Schedule;
    var cs := CheckpointsOf(l, s, t.before);
    FaithfulOrder(l, s, t.before);
    CheckpointStreamsOf(l, s, t.before);
    assert forall j :: 0 <= j < i ==> snap.checkpoints[j] == snap.checkpoints[..i][j];
    FollowOrderAgree(l, cs, snap.checkpoints, i);
    TailExtendsTrace(l, s, t, count, state);
  }

  /** After finding that checkpoint `i` has a tail of `count` events: rebuild the queue up to
      that point, install the advanced checkpoint, and read everything after it in full. */
  method ReplayFromTail(store: InMemoryEventStore, l: Logic, snap: Snapshot, i: nat, state: State, count: nat, w: World,
                        tick: nat, ghost t: Trace)
    returns (r: Result<Reconstruction, StoreError>, ghost trace: Trace)
    requires store.Valid() && WellFormed(l) && OrderIsValid(l, snap) && i < |snap.checkpoints|
    modifies store`streams, store`globalLog
    ensures store.Valid() && Extends(old(store.Contents()), store.Contents())
    ensures r.Ok? ==> r.value.replacement.Some?
    ensures r.Ok? && TailFound(l, old(store.Contents()), snap, i, t, state, count) ==>
              Reconstructed(l, store.Contents(), r.value, trace)
    ensures r.Err? ==> r.error == StoreFailure && Fails(w)
    ensures Quiet(w) ==> r.Ok? && store.Contents() == old(store.Contents())
    ensures Quiet(w) && TailFound(l, old(store.Contents()), snap, i, t, state, count)
              && Current(store.Contents(), t.before) && t.version + count == |Stream(store.Contents(), t.stream)| ==>
              Current(store.Contents(), trace)
  {
    var p := PrepareTail(l, snap, i, state, count);
    ghost var seen := t;
    if TailFound(l, store.Contents(), snap, i, t, state, count) {
      AdvancedRepresents(l, store.Contents(), snap, i, t, state, count);
      seen := t.(version := t.version + count);
    }
    var replayed, tick';
    replayed, tick', trace := ReplayRemainingStreams(store, l, p, w, tick, seen);
    if replayed.Err? {
      return Err(replayed.error), trace;
    }
    var q := replayed.value;
    r := Ok(Reconstruction(q.state, q.versions, Some(Snapshot(q.state, q.versions, q.checkpoints))));
  }

  /** Replay of everything from the default state, with a snapshot once the threshold is met. */
  method ReplayFromScratch(store: InMemoryEventStore, l: Logic, w: World, tick: nat)
    returns (r: Result<Reconstruction, StoreError>, ghost trace: Trace)
    requires store.Valid() && WellFormed(l)
    modifies store`streams, store`globalLog
    ensures store.Valid() && Extends(old(store.Contents()), store.Contents())
    ensures r.Ok? ==> Reconstructed(l, store.Contents(), r.value, trace)
    ensures r.Ok? ==> (r.value.replacement.Some? <==> Total(r.value.versions) >= REFRESH_THRESHOLD)
    ensures r.Err? ==> r.error == StoreFailure && Fails(w)
    ensures Quiet(w) ==> r.Ok? && store.Contents() == old(store.Contents()) && Current(store.Contents(), trace)
  {
    var state, queue, visited, scheduled := DiscoveryBeforeCheckpoint(l, [], 0);
    StartPending(l);
    StartSound(l);
    var replayed, tick';
    var p := ReplayProgress(state, queue, visited, scheduled, map[], []);
    replayed, tick', trace := ReplayRemainingStreams(store, l, p, w, tick, Unread);
    if replayed.Err? {
      return Err(replayed.error), trace;
    }
    var q := replayed.value;
    var total := SumVersions(q.versions);
    var replacement := if total >= REFRESH_THRESHOLD then Some(Snapshot(q.state, q.versions, q.checkpoints)) else None;
    r := Ok(Reconstruction(q.state, q.versions, replacement));
  }

  method SumVersions(versions: map<StreamId, nat>) returns (sum: nat)
    ensures sum == Total(versions)
  {
    sum := 0;
    var rest := versions;
    while rest != map[]
      invariant sum + Total(rest) == Total(versions)
      decreases rest.Keys
    {
      var id :| id in rest;
      TotalRemove(rest, id);
      sum := sum + rest[id];
      rest := rest - {id};
    }
  }

  /** Reconstructs command state from a stored snapshot, or from scratch when there is none or
      its recorded order is not legal.  Every read may be separated from the next by other
      executors' commits.  With a faithful snapshot the result stands for a complete read
      of the store, exactly as a replay from scratch would give it, even when new events
      change which later streams are discovered; a replacement, when there is one, is
      faithful too.  A snapshot that is not faithful still cannot make an expected pop fail. */
  method ReconstructCommandSnapshot(store: InMemoryEventStore, l: Logic, stored: Option<Snapshot>, w: World, tick: nat)
    returns (r: Result<Reconstruction, StoreError>, ghost trace: Trace)
    requires store.Valid() && WellFormed(l)
    modifies store`streams, store`globalLog
    ensures store.Valid() && Extends(old(store.Contents()), store.Contents())
    ensures r.Ok? && (stored.Some? ==> FaithfulSnapshot(l, old(store.Contents()), stored.value)) ==>
              Reconstructed(l, store.Contents(), r.value, trace)
    ensures r.Ok? && (stored.None? || !OrderIsValid(l, stored.value)) ==>
              (r.value.replacement.Some? <==> Total(r.value.versions) >= REFRESH_THRESHOLD)
    ensures r.Ok? && stored.Some? && OrderIsValid(l, stored.value) && r.value.replacement.None? ==>
              r.value.versions == stored.value.versions && r.value.state == stored.value.state
    ensures r.Err? ==> r.error == StoreFailure && Fails(w)
    ensures Quiet(w) ==> r.Ok? && store.Contents() == old(store.Contents())
    ensures Quiet(w) && (stored.Some? ==> FaithfulSnapshot(l, old(store.Contents()), stored.value)) ==>
              Outcome(r.value.state, r.value.versions) == FullReplay(l, store.Contents())
    ensures Quiet(w) && stored.Some? && FaithfulSnapshot(l, old(store.Contents()), stored.value) ==>
              (r.value.replacement.None? <==> VersionsMatch(store.Contents(), stored.value.versions))
  {
    ghost var s0 := store.Contents();
    var valid := false;
    if stored.Some? {
      valid := SnapshotReplayOrderIsValid(l, stored.value);
    }
    ghost var recorded := Unread;
    if stored.Some? && FaithfulSnapshot(l, s0, stored.value) {
      recorded :| IsSnapshotOf(l, s0, stored.value, recorded);
      FaithfulSnapshotIsValid(l, s0, recorded);
      SnapshotIsCurrentIff(l, s0, stored.value, recorded);
    }
    if !valid {
      r, trace := ReplayFromScratch(store, l, w, tick);
    } else {
      r, trace := CatchUp(store, l, stored.value, w, tick, recorded);
    }
    if Quiet(w) && (stored.Some? ==> FaithfulSnapshot(l, s0, stored.value)) {
      CurrentTraceIsFullReplay(l, store.Contents(), trace);
    }
  }

  /** Every checkpoint before `i` was found without a tail, and none has gained one if the
      store stood still. */
  ghost predicate CaughtUp(l: Logic, s: Store, snap: Snapshot, trace: Trace, done: Trace, quiet: bool) {
    && IsSnapshotOf(l, s, snap, trace)
    && (quiet ==> Current(s, done))
  }

  lemma CaughtUpStart(l: Logic, s: Store, snap: Snapshot, trace: Trace, quiet: bool)
    requires IsSnapshotOf(l, s, snap, trace)
    ensures CaughtUp(l, s, snap, trace, Upto(trace, 0), quiet)
  {
    UptoNone(trace);
  }

  lemma CaughtUpDone(l: Logic, s: Store, snap: Snapshot, trace: Trace, quiet: bool)
    requires CaughtUp(l, s, snap, trace, Upto(trace, |snap.checkpoints|), quiet)
    ensures Reconstructed(l, s, Reconstruction(snap.state, snap.versions, None), trace)
    ensures quiet ==> Current(s, trace)
  {
    CheckpointAt(l, s, trace, 0);
    UptoAll(trace, |snap.checkpoints|);
  }

  lemma SnapshotIsCurrentIff(l: Logic, s: Store, snap: Snapshot, t: Trace)
    requires WellFormed(l) && IsSnapshotOf(l, s, snap, t)
    ensures Current(s, t) <==> VersionsMatch(s, snap.versions)
  {
    hide WellFormed, Faithful, Current;
    CurrentIffVersionsMatch(l, s, t);
  }

  /** Looks for the first checkpoint whose stream has grown. */
  method CatchUp(store: InMemoryEventStore, l: Logic, snap: Snapshot, w: World, tick: nat, ghost recorded: Trace)
    returns (r: Result<Reconstruction, StoreError>, ghost trace: Trace)
    requires store.Valid() && WellFormed(l) && OrderIsValid(l, snap)
    modifies store`streams, store`globalLog
    ensures store.Valid() && Extends(old(store.Contents()), store.Contents())
    ensures r.Ok? && IsSnapshotOf(l, old(store.Contents()), snap, recorded) ==>
              Reconstructed(l, store.Contents(), r.value, trace)
    ensures r.Ok? && r.value.replacement.None? ==> r.value.versions == snap.versions && r.value.state == snap.state
    ensures r.Err? ==> r.error == StoreFailure && Fails(w)
    ensures Quiet(w) ==> r.Ok? && store.Contents() == old(store.Contents())
    ensures Quiet(w) && IsSnapshotOf(l, old(store.Contents()), snap, recorded) ==>
              && Current(store.Contents(), trace)
              && (r.value.replacement.None? <==> Current(store.Contents(), recorded))
  {
    hide WellFormed, Extends, OrderIsValid, IsSnapshotOf, Reconstructed, Upto, Current;
    ghost var s0 := store.Contents();
    ghost var good := IsSnapshotOf(l, s0, snap, recorded);
    ExtendsItself(s0);
    if good { CaughtUpStart(l, s0, snap, recorded, Quiet(w)); }
    var i, tick' := 0, tick;
    while i < |snap.checkpoints|
      invariant 0 <= i <= |snap.checkpoints|
      invariant store.Valid() && Extends(s0, store.Contents())
      invariant Quiet(w) ==> store.Contents() == s0
      invariant good ==> CaughtUp(l, store.Contents(), snap, recorded, Upto(recorded, i), Quiet(w))
    {
      ghost var s1 := store.Contents();
      var found;
      found, tick', trace := TryCheckpoint(store, l, snap, i, w, tick', recorded);
      ExtendsTransitive(s0, s1, store.Contents());
      if found.Some? {
        return found.value, trace;
      }
      i := i + 1;
    }
    if good { CaughtUpDone(l, store.Contents(), snap, recorded, Quiet(w)); }
    trace := recorded;
    r := Ok(Reconstruction(snap.state, snap.versions, None));
  }

  /** Reads the tail of checkpoint `i`; a non-empty one ends the search. */
  method TryCheckpoint(store: InMemoryEventStore, l: Logic, snap: Snapshot, i: nat, w: World, tick: nat,
                       ghost trace: Trace)
    returns (found: Option<Result<Reconstruction, StoreError>>, tick': nat, ghost newer: Trace)
    requires store.Valid() && WellFormed(l) && OrderIsValid(l, snap) && i < |snap.checkpoints|
    modifies store`streams, store`globalLog
    ensures store.Valid() && Extends(old(store.Contents()), store.Contents())
    ensures Quiet(w) ==> store.Contents() == old(store.Contents()) && (found.Some? ==> found.value.Ok?)
    ensures found.Some? && found.value.Err? ==> found.value.error == StoreFailure && Fails(w)
    ensures found.Some? && found.value.Ok? ==> found.value.value.replacement.Some?
    ensures found.Some? && found.value.Ok? && IsSnapshotOf(l, old(store.Contents()), snap, trace) ==>
              Reconstructed(l, store.Contents(), found.value.value, newer)
    ensures found.None? && CaughtUp(l, old(store.Contents()), snap, trace, Upto(trace, i), Quiet(w)) ==>
              CaughtUp(l, store.Contents(), snap, trace, Upto(trace, i + 1), Quiet(w))
    ensures found.Some? && Quiet(w) && CaughtUp(l, old(store.Contents()), snap, trace, Upto(trace, i), true) ==>
              Current(store.Contents(), newer) && !Current(old(store.Contents()), trace)
  {
    hide WellFormed, Extends, OrderIsValid, IsSnapshotOf, Reconstructed, Upto, Current, TailFound, Quiet, Fails;
    ghost var s1 := store.Contents();
    newer := trace;
    var applied;
    ghost var t;
    applied, tick', t := ReadTail(store, l, snap, i, w, tick, trace);
    ghost var s2 := store.Contents();
    if IsSnapshotOf(l, s1, snap, trace) { IsSnapshotMonotone(l, s1, s2, snap, trace); }
    if applied.Err? {
      return Some(Err(applied.error)), tick', newer;
    }
    if applied.value.1 == 0 {
      if Quiet(w) && CaughtUp(l, s1, snap, trace, Upto(trace, i), true) {
        CurrentExtends(s2, Upto(trace, i), t);
      }
      return None, tick', newer;
    }
    if Quiet(w) && IsSnapshotOf(l, s1, snap, trace) { TailMeansGrown(s2, trace, t, i, applied.value.1); }
    var r;
    r, newer := ReplayFromTail(store, l, snap, i, applied.value.0, applied.value.1, w, tick', t);
    ExtendsTransitive(s1, s2, store.Contents());
    found := Some(r);
  }

  lemma TailMeansGrown(s: Store, trace: Trace, t: Trace, i: nat, count: nat)
    requires t == Upto(trace, i + 1) && t.Then? && t.version + count == |Stream(s, t.stream)| && count > 0
    ensures !Current(s, trace)
  {
    if Current(s, trace) { CurrentUpto(s, trace, i + 1); }
  }

  lemma CurrentExtends(s: Store, before: Trace, t: Trace)
    requires t.Then? && t.before == before && Current(s, before)
    requires t.version == |Stream(s, t.stream)|
    ensures Current(s, t)
  {
  }

  /** Folds whatever checkpoint `i`'s stream has gained since it was recorded. */
  method ReadTail(store: InMemoryEventStore, l: Logic, snap: Snapshot, i: nat, w: World, tick: nat, ghost trace: Trace)
    returns (r: Result<(State, nat), StoreError>, tick': nat, ghost t: Trace)
    requires store.Valid() && WellFormed(l) && OrderIsValid(l, snap) && i < |snap.checkpoints|
    modifies store`streams, store`globalLog
    ensures store.Valid() && Extends(old(store.Contents()), store.Contents())
    ensures r.Ok? && IsSnapshotOf(l, old(store.Contents()), snap, trace) ==>
              TailFound(l, store.Contents(), snap, i, t, r.value.0, r.value.1)
    ensures t == Upto(trace, i + 1)
    ensures r.Err? ==> r.error == StoreFailure && Fails(w)
    ensures Quiet(w) ==> r.Ok? && store.Contents() == old(store.Contents())
    ensures Quiet(w) && IsSnapshotOf(l, old(store.Contents()), snap, trace) ==>
              t.Then? && t.before == Upto(trace, i) && t.version + r.value.1 == |Stream(store.Contents(), t.stream)|
  {
    t := Upto(trace, i + 1);
    var c := snap.checkpoints[i];
    FollowOrderPrefix(l, snap.checkpoints, i + 1, |snap.checkpoints|);
    ghost var s1 := store.Contents();
    ghost var good := IsSnapshotOf(l, s1, snap, trace);
    if good {
      CheckpointAt(l, s1, trace, i);
      UptoBefore(trace, i);
    }
    r, tick' := ApplyCommandStream(store, l, c.state, c.stream, Some(c.versions[c.stream]), w, tick);
    if good { CheckpointAfterMonotone(l, s1, store.Contents(), snap.checkpoints, i, t); }
  }
}
