/** Durable command-state snapshots: the cached state, its version vector and one checkpoint
    per replayed stream. */
module Snapshots {
  import opened Streams
  import opened Replay

  type SnapshotId = string

  datatype Checkpoint = Checkpoint(stream: StreamId, state: State, versions: map<StreamId, nat>)

  datatype Snapshot = Snapshot(state: State, versions: map<StreamId, nat>, checkpoints: seq<Checkpoint>)

  /** `a` includes every stream version represented by `b`. */
  predicate Covers(a: map<StreamId, nat>, b: map<StreamId, nat>) {
    forall id :: id in b ==> id in a && b[id] <= a[id]
  }

  /** One checkpoint per finished stream: its id, the state after it, the versions so far. */
  ghost function CheckpointsOf(l: Logic, s: Store, t: Trace): seq<Checkpoint> {
    match t
    case Unread => []
    case Then(before, id, _) =>
      CheckpointsOf(l, s, before) + [Checkpoint(id, After(l, s, t).state, VersionsOf(t))]
  }

  /** The snapshot that a reconstruction which read exactly `t` stands for. */
  ghost function SnapshotOf(l: Logic, s: Store, t: Trace): Snapshot {
    Snapshot(After(l, s, t).state, VersionsOf(t), CheckpointsOf(l, s, t))
  }

  ghost predicate IsSnapshotOf(l: Logic, s: Store, snap: Snapshot, t: Trace) {
    Complete(l, s, t) && snap == SnapshotOf(l, s, t)
  }

  /** The snapshot records a complete replay of some earlier state of the store: checkpoint i
      is the state after the first i+1 streams at their recorded versions, the checkpoints
      follow discovery order, and no recorded version exceeds its stream. */
  ghost predicate FaithfulSnapshot(l: Logic, s: Store, snap: Snapshot) {
    exists t :: IsSnapshotOf(l, s, snap, t)
  }

  lemma {:induction false} CheckpointsMonotone(l: Logic, s: Store, u: Store, t: Trace)
    requires Faithful(l, s, t) && Extends(s, u)
    ensures CheckpointsOf(l, u, t) == CheckpointsOf(l, s, t)
  {
    if t.Then? {
      FaithfulMonotone(l, s, u, t);
      CheckpointsMonotone(l, s, u, t.before);
    }
  }

  lemma IsSnapshotMonotone(l: Logic, s: Store, u: Store, snap: Snapshot, t: Trace)
    requires IsSnapshotOf(l, s, snap, t) && Extends(s, u)
    ensures IsSnapshotOf(l, u, snap, t)
  {
    FaithfulMonotone(l, s, u, t);
    CheckpointsMonotone(l, s, u, t);
  }

  /** A stored snapshot never goes bad: it stays faithful as the store grows. */
  lemma FaithfulSnapshotMonotone(l: Logic, s: Store, u: Store, snap: Snapshot)
    requires FaithfulSnapshot(l, s, snap) && Extends(s, u)
    ensures FaithfulSnapshot(l, u, snap)
  {
    var t :| IsSnapshotOf(l, s, snap, t);
    IsSnapshotMonotone(l, s, u, snap, t);
  }

  /** The first `n` reads of a trace. */
  function Upto(t: Trace, n: nat): Trace {
    if t.Then? && Length(t) > n then Upto(t.before, n) else t
  }

  function Length(t: Trace): nat {
    match t
    case Unread => 0
    case Then(before, _, _) => Length(before) + 1
  }

  lemma UptoNone(t: Trace)
    ensures Upto(t, 0) == Unread
  {
    if t.Then? { UptoNone(t.before); }
  }

  lemma UptoAll(t: Trace, n: nat)
    ensures Length(t) <= n ==> Upto(t, n) == t
  {
  }

  lemma {:induction false} UptoBefore(t: Trace, n: nat)
    requires n < Length(t)
    ensures Upto(t, n + 1).Then? && Upto(t, n + 1).before == Upto(t, n)
    ensures Length(t) == n + 1 ==> Upto(t, n + 1) == t
  {
    if Length(t) > n + 1 { UptoBefore(t.before, n); }
  }

  lemma {:induction false} CurrentUpto(s: Store, t: Trace, n: nat)
    requires Current(s, t)
    ensures Current(s, Upto(t, n))
  {
    if t.Then? && Length(t) > n { CurrentUpto(s, t.before, n); }
  }

  /** Checkpoint `i` was recorded after finishing the trace `t`, earlier ones before that. */
  ghost predicate CheckpointAfter(l: Logic, s: Store, cs: seq<Checkpoint>, i: nat, t: Trace) {
    && i < |cs|
    && t.Then?
    && Faithful(l, s, t)
    && cs[i] == Checkpoint(t.stream, After(l, s, t).state, VersionsOf(t))
    && cs[..i] == CheckpointsOf(l, s, t.before)
  }

  lemma {:induction false} CheckpointAt(l: Logic, s: Store, t: Trace, i: nat)
    requires Faithful(l, s, t)
    ensures |CheckpointsOf(l, s, t)| == Length(t)
    ensures i < Length(t) ==> CheckpointAfter(l, s, CheckpointsOf(l, s, t), i, Upto(t, i + 1))
  {
    if t.Then? {
      CheckpointAt(l, s, t.before, i);
      var cs := CheckpointsOf(l, s, t.before);
      if i < Length(t.before) {
        assert CheckpointsOf(l, s, t)[..i] == cs[..i];
      } else if i == Length(t.before) {
        assert CheckpointsOf(l, s, t)[..i] == cs;
      }
    }
  }

  lemma CheckpointAfterMonotone(l: Logic, s: Store, u: Store, cs: seq<Checkpoint>, i: nat, t: Trace)
    requires CheckpointAfter(l, s, cs, i, t) && Extends(s, u)
    ensures CheckpointAfter(l, u, cs, i, t) && After(l, u, t) == After(l, s, t)
  {
    FaithfulMonotone(l, s, u, t);
    CheckpointsMonotone(l, s, u, t.before);
  }
}
