/** Streams, events and the append-only store that every executor shares. */
module Streams {

  datatype Option<+T> = None | Some(value: T)

  datatype Result<+T, +E> = Ok(value: T) | Err(error: E)

  const U32_MAX: nat := 0xFFFF_FFFF

  type u32 = n: nat | n <= U32_MAX

  type StreamId = string

  /** The serialised content of an event; nothing in the model looks inside it. */
  type Payload(==, !new)

  datatype Event = Event(stream: StreamId, payload: Payload)

  /** The committed history.  A stream without an entry is empty. */
  type Store = map<StreamId, seq<Event>>

  function Stream(s: Store, id: StreamId): seq<Event> {
    if id in s then s[id] else []
  }

  /** Append-only growth: every stream of `s` is a prefix of the same stream of `t`. */
  ghost predicate Extends(s: Store, t: Store) {
    forall id :: Stream(s, id) <= Stream(t, id)
  }

  function AppendEvent(s: Store, e: Event): Store {
    s[e.stream := Stream(s, e.stream) + [e]]
  }

  function AppendAll(s: Store, events: seq<Event>): Store {
    if events == [] then s
    else AppendEvent(AppendAll(s, events[..|events| - 1]), events[|events| - 1])
  }

  /** The events of `events` that belong to stream `id`, in order. */
  function OnStream(events: seq<Event>, id: StreamId): seq<Event> {
    if events == [] then []
    else
      var last := events[|events| - 1];
      OnStream(events[..|events| - 1], id) + (if last.stream == id then [last] else [])
  }

  /** A batch lands on each stream as exactly its own events, in order, at the end. */
  lemma {:induction false} AppendAllPerStream(s: Store, events: seq<Event>, id: StreamId)
    ensures Stream(AppendAll(s, events), id) == Stream(s, id) + OnStream(events, id)
  {
    if events != [] {
      var before, last := events[..|events| - 1], events[|events| - 1];
      AppendAllPerStream(s, before, id);
      var more := if last.stream == id then [last] else [];
      assert Stream(AppendAll(s, events), id) == Stream(AppendAll(s, before), id) + more;
      assert (Stream(s, id) + OnStream(before, id)) + more == Stream(s, id) + (OnStream(before, id) + more);
    }
  }

  lemma {:induction false} OnStreamIsFiltered(events: seq<Event>, id: StreamId)
    ensures IsFiltered(OnStream(events, id), events, (e: Event) => e.stream == id)
  {
    hide IsFiltered;
    var keep := (e: Event) => e.stream == id;
    if events == [] {
      FilteredNone(keep);
    } else {
      var before, last := events[..|events| - 1], events[|events| - 1];
      OnStreamIsFiltered(before, id);
      FilteredSnoc(OnStream(before, id), before, keep, last);
      assert before + [last] == events;
    }
  }

  lemma AppendAllExtends(s: Store, events: seq<Event>)
    ensures Extends(s, AppendAll(s, events))
  {
    forall id ensures Stream(s, id) <= Stream(AppendAll(s, events), id) {
      AppendAllPerStream(s, events, id);
    }
  }

  lemma ExtendsTransitive(s: Store, t: Store, u: Store)
    requires Extends(s, t) && Extends(t, u)
    ensures Extends(s, u)
  {
    forall id ensures Stream(s, id) <= Stream(u, id) {
      assert Stream(s, id) <= Stream(t, id) && Stream(t, id) <= Stream(u, id);
    }
  }

  ghost predicate NoDuplicates<T>(xs: seq<T>) {
    forall i, j :: 0 <= i < j < |xs| ==> xs[i] != xs[j]
  }

  function Elements<T>(xs: seq<T>): set<T> {
    set x | x in xs
  }

  /** `part` is exactly what `keep` lets through of `all`, in order; `at` are its places. */
  ghost predicate Picked<T>(part: seq<T>, all: seq<T>, keep: T -> bool, at: seq<nat>) {
    && |at| == |part|
    && (forall k :: 0 <= k < |at| ==> at[k] < |all| && all[at[k]] == part[k])
    && (forall j, k :: 0 <= j < k < |at| ==> at[j] < at[k])
    && (forall i :: 0 <= i < |all| ==> (keep(all[i]) <==> i in at))
  }

  ghost predicate IsFiltered<T>(part: seq<T>, all: seq<T>, keep: T -> bool) {
    exists at :: Picked(part, all, keep, at)
  }

  lemma FilteredNone<T>(keep: T -> bool)
    ensures IsFiltered([], [], keep)
  {
    assert Picked([], [], keep, []);
  }

  lemma FilteredSnoc<T>(part: seq<T>, all: seq<T>, keep: T -> bool, x: T)
    requires IsFiltered(part, all, keep)
    ensures IsFiltered(part + (if keep(x) then [x] else []), all + [x], keep)
  {
    var at: seq<nat> :| Picked(part, all, keep, at);
    if keep(x) {
      PickedLast(part, all, keep, at, x);
    } else {
      assert part + [] == part;
      assert Picked(part, all + [x], keep, at);
    }
  }

  lemma PickedLast<T>(part: seq<T>, all: seq<T>, keep: T -> bool, at: seq<nat>, x: T)
    requires Picked(part, all, keep, at) && keep(x)
    ensures Picked(part + [x], all + [x], keep, at + [|all|])
  {
    var places: seq<nat> := at + [|all|];
    forall i | 0 <= i < |all + [x]| ensures keep((all + [x])[i]) <==> i in places {
      if i < |all| { assert i in at <==> i in places; }
      else { assert places[|at|] == i; }
    }
  }

  lemma SmallerSet<T>(a: set<T>, b: set<T>)
    requires a < b
    ensures |a| < |b|
  {
    var c := b - a;
    assert b == a + c && c != {};
  }
}
