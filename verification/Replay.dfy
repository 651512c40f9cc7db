/** Breadth-first state reconstruction.

    `FullReplay` is the reference: read every reachable stream of one store, in discovery
    order, from the default state.  A *read trace* is what a running executor has really
    seen: one (stream, version) pair per stream, read at different moments while the store
    grew.  `Faithful` says that a trace is a legitimate partial replay of a store. */
module Replay {
  import opened Streams

  /** Command-local state; `apply` and `discover` are left uninterpreted. */
  type State(!new)

  /** The part of a command that decides how state is reconstructed.
      `universe` is the finite set of ids the command can name, which bounds discovery. */
  datatype Logic = Logic(
    declared: seq<StreamId>,
    universe: set<StreamId>,
    initial: State,
    apply: (State, Event) -> State,
    discover: State -> seq<StreamId>)

  /** Declarations are duplicate-free by construction of the declaration type. */
  ghost predicate WellFormed(l: Logic) {
    && NoDuplicates(l.declared)
    && (forall id :: id in l.declared ==> id in l.universe)
    && (forall st: State, id :: id in l.discover(st) ==> id in l.universe)
  }

  function Fold(l: Logic, st: State, events: seq<Event>): State {
    if events == [] then st
    else l.apply(Fold(l, st, events[..|events| - 1]), events[|events| - 1])
  }

  lemma {:induction false} FoldConcat(l: Logic, st: State, a: seq<Event>, b: seq<Event>)
    ensures Fold(l, st, a + b) == Fold(l, Fold(l, st, a), b)
  {
    if b == [] {
      assert a + b == a;
    } else {
      var n := |a + b| - 1;
      assert (a + b)[..n] == a + b[..|b| - 1];
      FoldConcat(l, st, a, b[..|b| - 1]);
    }
  }

  /** Each event in turn is applied to the state before it. */
  ghost predicate AppliedInTurn(l: Logic, events: seq<Event>, states: seq<State>) {
    |states| == |events| + 1 && forall i :: 0 <= i < |events| ==> states[i + 1] == l.apply(states[i], events[i])
  }

  lemma {:induction false} FoldAppliesInTurn(l: Logic, st: State, events: seq<Event>) returns (states: seq<State>)
    ensures AppliedInTurn(l, events, states) && states[0] == st && states[|events|] == Fold(l, st, events)
  {
    if events == [] {
      states := [st];
    } else {
      states := FoldAppliesInTurn(l, st, events[..|events| - 1]);
      states := states + [Fold(l, st, events)];
    }
  }

  /** The discovery queue together with every id that was ever put on it. */
  datatype Discovery = Discovery(queue: seq<StreamId>, scheduled: set<StreamId>)

  function Enqueue(d: Discovery, id: StreamId): Discovery {
    if id in d.scheduled then d else Discovery(d.queue + [id], d.scheduled + {id})
  }

  function Schedule(d: Discovery, found: seq<StreamId>): Discovery {
    if found == [] then d
    else Enqueue(Schedule(d, found[..|found| - 1]), found[|found| - 1])
  }

  datatype Progress = Progress(state: State, pending: Discovery)

  function Start(l: Logic): Progress {
    Progress(l.initial, Schedule(Discovery([], {}), l.declared))
  }

  /** Finish the stream at the head of the queue: fold its events, then discover. */
  function Visit(l: Logic, p: Progress, events: seq<Event>): Progress {
    var st := Fold(l, p.state, events);
    var rest := if p.pending.queue == [] then [] else p.pending.queue[1..];
    Progress(st, Schedule(Discovery(rest, p.pending.scheduled), l.discover(st)))
  }

  function Visited(p: Progress): set<StreamId> {
    p.pending.scheduled - Elements(p.pending.queue)
  }

  /** Each scheduled id is queued once or already visited. */
  ghost predicate Sound(l: Logic, d: Discovery) {
    && NoDuplicates(d.queue)
    && Elements(d.queue) <= d.scheduled <= l.universe
  }

  lemma {:induction false} ScheduleSound(l: Logic, d: Discovery, found: seq<StreamId>)
    requires Sound(l, d)
    requires forall id :: id in found ==> id in l.universe
    ensures Sound(l, Schedule(d, found))
    ensures d.scheduled <= Schedule(d, found).scheduled
    ensures d.queue <= Schedule(d, found).queue
    ensures Schedule(d, found).scheduled - Elements(Schedule(d, found).queue)
         == d.scheduled - Elements(d.queue)
  {
    if found != [] {
      ScheduleSound(l, d, found[..|found| - 1]);
      var e := Schedule(d, found[..|found| - 1]);
      var id := found[|found| - 1];
      if id !in e.scheduled {
        assert Elements(e.queue + [id]) == Elements(e.queue) + {id};
      }
    }
  }

  lemma StartSound(l: Logic)
    requires WellFormed(l)
    ensures Sound(l, Start(l).pending) && Visited(Start(l)) == {}
  {
    ScheduleSound(l, Discovery([], {}), l.declared);
  }

  lemma VisitSound(l: Logic, p: Progress, events: seq<Event>)
    requires WellFormed(l) && Sound(l, p.pending) && p.pending.queue != []
    ensures Sound(l, Visit(l, p, events).pending)
    ensures Visited(Visit(l, p, events)) == Visited(p) + {p.pending.queue[0]}
    ensures p.pending.queue[0] !in Visited(p)
  {
    var q := p.pending.queue;
    assert q == [q[0]] + q[1..];
    assert Elements(q) == {q[0]} + Elements(q[1..]);
    ScheduleSound(l, Discovery(q[1..], p.pending.scheduled), l.discover(Fold(l, p.state, events)));
  }

  /** Duplicate-free declarations are queued exactly as declared. */
  lemma {:induction false} StartQueue(l: Logic, n: nat)
    requires NoDuplicates(l.declared) && n <= |l.declared|
    ensures Schedule(Discovery([], {}), l.declared[..n])
         == Discovery(l.declared[..n], Elements(l.declared[..n]))
  {
    if n > 0 {
      StartQueue(l, n - 1);
      assert l.declared[..n][..n - 1] == l.declared[..n - 1];
      assert l.declared[..n] == l.declared[..n - 1] + [l.declared[n - 1]];
      assert Elements(l.declared[..n]) == Elements(l.declared[..n - 1]) + {l.declared[n - 1]};
    } else {
      assert l.declared[..n] == [];
    }
  }

  // ---------------------------------------------------------------- the reference

  datatype Outcome = Outcome(state: State, versions: map<StreamId, nat>)

  ghost function ReplayFrom(l: Logic, s: Store, p: Progress, versions: map<StreamId, nat>): Outcome
    requires WellFormed(l) && Sound(l, p.pending)
    decreases l.universe - Visited(p)
  {
    if p.pending.queue == [] then Outcome(p.state, versions)
    else
      var id := p.pending.queue[0];
      VisitSound(l, p, Stream(s, id));
      assert id in l.universe - Visited(p);
      ReplayFrom(l, s, Visit(l, p, Stream(s, id)), versions[id := |Stream(s, id)|])
  }

  /** Replay the whole store from the default state. */
  ghost function FullReplay(l: Logic, s: Store): Outcome
    requires WellFormed(l)
  {
    StartSound(l);
    ReplayFrom(l, s, Start(l), map[])
  }

  // ---------------------------------------------------------------- read traces

  /** The streams an executor has finished, in order, each with the number of events folded. */
  datatype Trace = Unread | Then(before: Trace, stream: StreamId, version: nat)

  function Prefix(events: seq<Event>, n: nat): seq<Event> {
    if n <= |events| then events[..n] else events
  }

  function After(l: Logic, s: Store, t: Trace): Progress {
    match t
    case Unread => Start(l)
    case Then(before, id, n) => Visit(l, After(l, s, before), Prefix(Stream(s, id), n))
  }

  /** The trace follows discovery order and never claims more than the store holds. */
  ghost predicate Faithful(l: Logic, s: Store, t: Trace) {
    match t
    case Unread => true
    case Then(before, id, n) =>
      && Faithful(l, s, before)
      && After(l, s, before).pending.queue != []
      && After(l, s, before).pending.queue[0] == id
      && n <= |Stream(s, id)|
  }

  ghost predicate Complete(l: Logic, s: Store, t: Trace) {
    Faithful(l, s, t) && After(l, s, t).pending.queue == []
  }

  /** Every recorded version is the stream's present length. */
  ghost predicate Current(s: Store, t: Trace) {
    t.Then? ==> t.version == |Stream(s, t.stream)| && Current(s, t.before)
  }

  function VersionsOf(t: Trace): map<StreamId, nat> {
    match t
    case Unread => map[]
    case Then(before, id, n) => VersionsOf(before)[id := n]
  }

  function StreamsOf(t: Trace): set<StreamId> {
    match t
    case Unread => {}
    case Then(before, id, _) => StreamsOf(before) + {id}
  }

  lemma {:induction false} VersionsKeys(t: Trace)
    ensures VersionsOf(t).Keys == StreamsOf(t)
  {
    if t.Then? { VersionsKeys(t.before); }
  }

  /** A faithful trace visits each stream once and accounts for everything scheduled. */
  lemma {:induction false} FaithfulShape(l: Logic, s: Store, t: Trace)
    requires WellFormed(l) && Faithful(l, s, t)
    ensures Sound(l, After(l, s, t).pending)
    ensures Visited(After(l, s, t)) == StreamsOf(t)
    ensures t.Then? ==> t.stream !in StreamsOf(t.before)
  {
    if t == Unread {
      StartSound(l);
    } else {
      FaithfulShape(l, s, t.before);
      VisitSound(l, After(l, s, t.before), Prefix(Stream(s, t.stream), t.version));
    }
  }

  /** Appends never invalidate what has been read: a trace faithful to a store is faithful
      to every store that extends it, and it reconstructs the same state. */
  lemma {:induction false} FaithfulMonotone(l: Logic, s: Store, u: Store, t: Trace)
    requires Faithful(l, s, t) && Extends(s, u)
    ensures Faithful(l, u, t) && After(l, u, t) == After(l, s, t)
  {
    if t.Then? {
      FaithfulMonotone(l, s, u, t.before);
      assert Stream(s, t.stream) <= Stream(u, t.stream);
      assert Stream(s, t.stream)[..t.version] == Stream(u, t.stream)[..t.version];
    }
  }

  /** The full replay passes through every faithful trace whose versions are current. */
  lemma {:induction false} FullReplayPasses(l: Logic, s: Store, t: Trace)
    requires WellFormed(l) && Faithful(l, s, t) && Current(s, t)
    ensures Sound(l, After(l, s, t).pending)
    ensures FullReplay(l, s) == ReplayFrom(l, s, After(l, s, t), VersionsOf(t))
  {
    FaithfulShape(l, s, t);
    if t.Then? {
      FullReplayPasses(l, s, t.before);
      assert Prefix(Stream(s, t.stream), t.version) == Stream(s, t.stream);
    }
  }

  /** What a passed version check buys: a complete trace whose versions are still current
      reconstructed exactly the full replay of the present store, however far apart in time
      the individual reads were. */
  lemma CurrentTraceIsFullReplay(l: Logic, s: Store, t: Trace)
    requires WellFormed(l) && Complete(l, s, t) && Current(s, t)
    ensures FullReplay(l, s) == Outcome(After(l, s, t).state, VersionsOf(t))
  {
    FullReplayPasses(l, s, t);
  }

  /** The versions a faithful trace records are current exactly when its version map is. */
  lemma {:induction false} CurrentIffVersionsMatch(l: Logic, s: Store, t: Trace)
    requires WellFormed(l) && Faithful(l, s, t)
    ensures Current(s, t) <==> forall id :: id in VersionsOf(t) ==> |Stream(s, id)| == VersionsOf(t)[id]
  {
    if t.Then? {
      CurrentIffVersionsMatch(l, s, t.before);
      FaithfulShape(l, s, t);
      VersionsKeys(t.before);
      var v := VersionsOf(t.before);
      assert forall id :: id in v ==> id in VersionsOf(t) && VersionsOf(t)[id] == v[id];
      assert t.stream in VersionsOf(t) && VersionsOf(t)[t.stream] == t.version;
    }
  }

  // ---------------------------------------------------------------- what gets read

  /** The state after folding what the trace read, stream by stream. */
  function StateAfter(l: Logic, s: Store, t: Trace): State {
    match t
    case Unread => l.initial
    case Then(before, id, n) => Fold(l, StateAfter(l, s, before), Prefix(Stream(s, id), n))
  }

  /** Every id that was declared, and what each stream in turn gave rise to when it was finished. */
  function Names(l: Logic, s: Store, t: Trace): seq<StreamId> {
    match t
    case Unread => l.declared
    case Then(before, _, _) => Names(l, s, before) + l.discover(StateAfter(l, s, t))
  }

  function OrderOf(t: Trace): seq<StreamId> {
    match t
    case Unread => []
    case Then(before, id, _) => OrderOf(before) + [id]
  }

  /** Each name once, in the order in which the names first turn up. */
  ghost predicate InNamingOrder(order: seq<StreamId>, names: seq<StreamId>) {
    && NoDuplicates(order) && Elements(order) == Elements(names)
    && forall i, j :: 0 <= i < j < |order| ==> NamedBefore(names, order[i], order[j])
  }

  ghost predicate NamedBefore(names: seq<StreamId>, a: StreamId, b: StreamId) {
    exists p :: 0 <= p < |names| && names[p] == a && b !in names[..p]
  }

  lemma NamedBeforeOn(names: seq<StreamId>, a: StreamId, b: StreamId, id: StreamId)
    requires NamedBefore(names, a, b)
    ensures NamedBefore(names + [id], a, b)
  {
    var p :| 0 <= p < |names| && names[p] == a && b !in names[..p];
    assert (names + [id])[p] == a && (names + [id])[..p] == names[..p];
  }

  lemma NamingOrderSnoc(order: seq<StreamId>, names: seq<StreamId>, id: StreamId)
    requires InNamingOrder(order, names)
    ensures InNamingOrder(if id in names then order else order + [id], names + [id])
  {
    hide NamedBefore;
    var order' := if id in names then order else order + [id];
    assert forall x :: x in order <==> x in Elements(order);
    assert Elements(names + [id]) == Elements(names) + {id};
    assert Elements(order + [id]) == Elements(order) + {id};
    assert id in names <==> id in Elements(names);
    forall i, j | 0 <= i < j < |order'| ensures NamedBefore(names + [id], order'[i], order'[j]) {
      if j < |order| {
        NamedBeforeOn(names, order[i], order[j], id);
      } else {
        assert order[i] in Elements(order);
        NewIsNamedLast(names, order[i], id);
      }
    }
  }

  lemma NewIsNamedLast(names: seq<StreamId>, a: StreamId, id: StreamId)
    requires a in names && id !in names
    ensures NamedBefore(names + [id], a, id)
  {
    var p :| 0 <= p < |names| && names[p] == a;
    assert (names + [id])[p] == a && (names + [id])[..p] == names[..p];
  }

  /** Scheduling puts on the queue exactly what is named for the first time, in that order. */
  lemma {:induction false} ScheduleFollowsNames(d: Discovery, done: seq<StreamId>, names: seq<StreamId>,
                                                found: seq<StreamId>)
    requires InNamingOrder(done + d.queue, names) && d.scheduled == Elements(names)
    ensures var e := Schedule(d, found);
            InNamingOrder(done + e.queue, names + found) && e.scheduled == d.scheduled + Elements(found)
    decreases |found|
  {
    hide InNamingOrder;
    if found == [] {
      assert names + found == names;
    } else {
      var before, id := found[..|found| - 1], found[|found| - 1];
      var e := Schedule(d, before);
      ScheduleFollowsNames(d, done, names, before);
      assert Elements(names + before) == Elements(names) + Elements(before);
      NamingOrderSnoc(done + e.queue, names + before, id);
      assert found == before + [id] && names + found == names + before + [id];
      assert done + e.queue + [id] == done + (e.queue + [id]);
    }
  }

  /** What a faithful trace has read, followed by what waits, are the names in the order in
      which they first turned up. */
  lemma {:induction false} FaithfulFollowsNames(l: Logic, s: Store, t: Trace)
    requires Faithful(l, s, t)
    ensures InNamingOrder(OrderOf(t) + After(l, s, t).pending.queue, Names(l, s, t))
    ensures After(l, s, t).pending.scheduled == Elements(Names(l, s, t))
    ensures After(l, s, t).state == StateAfter(l, s, t)
  {
    hide InNamingOrder, Schedule;
    if t == Unread {
      DeclaredAreNamed(l.declared);
    } else {
      FaithfulFollowsNames(l, s, t.before);
      var p, found := After(l, s, t.before).pending, l.discover(StateAfter(l, s, t));
      assert p.queue == [t.stream] + p.queue[1..];
      assert OrderOf(t.before) + p.queue == OrderOf(t) + p.queue[1..];
      ScheduleFollowsNames(Discovery(p.queue[1..], p.scheduled), OrderOf(t), Names(l, s, t.before), found);
      assert Elements(Names(l, s, t)) == Elements(Names(l, s, t.before)) + Elements(found);
    }
  }

  lemma DeclaredAreNamed(declared: seq<StreamId>)
    ensures var d := Schedule(Discovery([], {}), declared);
            InNamingOrder([] + d.queue, declared) && d.scheduled == Elements(declared)
  {
    var none: seq<StreamId> := [];
    assert none + none == none && none + declared == declared && Elements(none) == {};
    ScheduleFollowsNames(Discovery(none, {}), none, none, declared);
  }

  ghost predicate PartOf(u: Trace, t: Trace) {
    u == t || (t.Then? && PartOf(u, t.before))
  }

  /** `id` was declared, or some stream that the trace read gave rise to it. */
  ghost predicate CalledFor(l: Logic, s: Store, t: Trace, id: StreamId) {
    id in l.declared || exists u :: PartOf(u, t) && u.Then? && id in l.discover(StateAfter(l, s, u))
  }

  lemma {:induction false} NamesAreCalledFor(l: Logic, s: Store, t: Trace, id: StreamId)
    ensures id in Names(l, s, t) <==> CalledFor(l, s, t, id)
  {
    if t.Then? {
      NamesAreCalledFor(l, s, t.before, id);
      if id in l.discover(StateAfter(l, s, t)) { assert PartOf(t, t); }
      if CalledFor(l, s, t.before, id) && id !in l.declared {
        var u :| PartOf(u, t.before) && u.Then? && id in l.discover(StateAfter(l, s, u));
        assert PartOf(u, t);
      }
    }
  }

  lemma {:induction false} OrderHoldsStreams(t: Trace)
    ensures Elements(OrderOf(t)) == StreamsOf(t)
  {
    if t.Then? { OrderHoldsStreams(t.before); }
  }

  /** A complete trace read exactly what was declared and what the streams that it read called
      for, each once, in the order in which they were first named. */
  lemma CompleteIsClosure(l: Logic, s: Store, t: Trace)
    requires Complete(l, s, t)
    ensures forall id :: id in StreamsOf(t) <==> CalledFor(l, s, t, id)
    ensures InNamingOrder(OrderOf(t), Names(l, s, t)) && After(l, s, t).state == StateAfter(l, s, t)
  {
    hide CalledFor;
    FaithfulFollowsNames(l, s, t);
    OrderHoldsStreams(t);
    assert OrderOf(t) + [] == OrderOf(t);
    forall id ensures id in StreamsOf(t) <==> CalledFor(l, s, t, id) {
      NamesAreCalledFor(l, s, t, id);
      assert id in Elements(OrderOf(t)) <==> id in Elements(Names(l, s, t));
    }
  }

  /** The reference is such a trace, with every stream read to its present end. */
  lemma FullReplayIsClosure(l: Logic, s: Store) returns (t: Trace)
    requires WellFormed(l)
    ensures Complete(l, s, t) && Current(s, t)
    ensures FullReplay(l, s) == Outcome(StateAfter(l, s, t), VersionsOf(t))
    ensures forall id :: id in FullReplay(l, s).versions <==> CalledFor(l, s, t, id)
    ensures forall id :: id in FullReplay(l, s).versions ==> FullReplay(l, s).versions[id] == |Stream(s, id)|
  {
    hide CalledFor;
    t := ReadToTheEnd(l, s, Unread);
    CurrentTraceIsFullReplay(l, s, t);
    CompleteIsClosure(l, s, t);
    VersionsKeys(t);
    CurrentIffVersionsMatch(l, s, t);
  }

  lemma {:induction false} ReadToTheEnd(l: Logic, s: Store, t: Trace) returns (u: Trace)
    requires WellFormed(l) && Faithful(l, s, t) && Current(s, t)
    ensures Complete(l, s, u) && Current(s, u)
    decreases l.universe - Visited(After(l, s, t))
  {
    var p := After(l, s, t);
    FaithfulShape(l, s, t);
    if p.pending.queue == [] {
      u := t;
    } else {
      var id := p.pending.queue[0];
      VisitSound(l, p, Stream(s, id));
      assert id in l.universe - Visited(p) by { assert id in Elements(p.pending.queue); }
      assert Prefix(Stream(s, id), |Stream(s, id)|) == Stream(s, id);
      u := ReadToTheEnd(l, s, Then(t, id, |Stream(s, id)|));
    }
  }
}
