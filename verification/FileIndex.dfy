/** The index over a file store's transactions: streams from a walk in canonical order, and the
    cursor view in the order in which this machine became aware of the events. */
module FileIndex {
  import opened Streams
  import opened Sorting
  import opened TransactionGraph

  // ------------------------------------------------------------- the events of a directory

  function EventsOf(files: Files): set<FileEvent> {
    set id, e | id in files && e in files[id].events :: e
  }

  function IdsOf(events: set<FileEvent>): set<Uuid> {
    set e | e in events :: e.id
  }

  /** Event ids are fresh across the whole history. */
  ghost predicate DistinctEvents(files: Files) {
    forall a, b, i, j ::
      (&& a in files && 0 <= i < |files[a].events|
       && b in files && 0 <= j < |files[b].events|
       && files[a].events[i].id == files[b].events[j].id) ==> a == b && i == j
  }

  lemma SameIdSameEvent(files: Files, d: FileEvent, e: FileEvent)
    requires DistinctEvents(files) && d in EventsOf(files) && e in EventsOf(files) && d.id == e.id
    ensures d == e
  {
    var a :| a in files && d in files[a].events;
    var b :| b in files && e in files[b].events;
    var i :| 0 <= i < |files[a].events| && files[a].events[i] == d;
    var j :| 0 <= j < |files[b].events| && files[b].events[j] == e;
  }

  /** All events of the files, transaction by transaction. */
  function Flat(files: Files, order: seq<Uuid>): seq<FileEvent> {
    if order == [] then []
    else
      var id := order[|order| - 1];
      Flat(files, order[..|order| - 1]) + (if id in files then files[id].events else [])
  }

  lemma {:induction false} FlatConcat(files: Files, a: seq<Uuid>, b: seq<Uuid>)
    ensures Flat(files, a + b) == Flat(files, a) + Flat(files, b)
  {
    if b == [] {
      assert a + b == a;
    } else {
      assert (a + b)[..|a + b| - 1] == a + b[..|b| - 1];
      FlatConcat(files, a, b[..|b| - 1]);
    }
  }

  lemma FlatSnoc(files: Files, order: seq<Uuid>, id: Uuid)
    ensures Flat(files, order + [id]) == Flat(files, order) + (if id in files then files[id].events else [])
  {
    assert (order + [id])[..|order + [id]| - 1] == order;
  }

  /** Transactions follow one another, each with its events in order. */
  lemma {:induction false} FlatIsInOrder(files: Files, order: seq<Uuid>, i: nat)
    requires i < |order| && order[i] in files
    ensures var n := |Flat(files, order[..i])|;
            && n + |files[order[i]].events| == |Flat(files, order[..i + 1])| <= |Flat(files, order)|
            && Flat(files, order)[n..n + |files[order[i]].events|] == files[order[i]].events
  {
    hide Flat;
    assert order[..i + 1] == order[..i] + [order[i]] && order == order[..i + 1] + order[i + 1..];
    FlatSnoc(files, order[..i], order[i]);
    FlatConcat(files, order[..i + 1], order[i + 1..]);
  }

  lemma {:induction false} FlatSame(f: Files, g: Files, order: seq<Uuid>)
    requires forall id :: id in order ==> id in f && id in g && f[id] == g[id]
    ensures Flat(f, order) == Flat(g, order)
  {
    if order != [] { FlatSame(f, g, order[..|order| - 1]); }
  }

  /** A new transaction adds its events at the end of any walk that takes it last. */
  lemma FlatNew(files: Files, order: seq<Uuid>, id: Uuid, t: Transaction)
    requires id !in files && forall x :: x in order ==> x in files
    ensures Flat(files[id := t], order + [id]) == Flat(files, order) + t.events
  {
    FlatSnoc(files[id := t], order, id);
    FlatSame(files, files[id := t], order);
  }

  lemma {:induction false} FlatHolds(files: Files, order: seq<Uuid>, e: FileEvent)
    ensures e in Flat(files, order) <==> exists id :: id in order && id in files && e in files[id].events
  {
    if order != [] {
      var before := order[..|order| - 1];
      FlatHolds(files, before, e);
      assert order == before + [order[|order| - 1]];
      assert forall id :: id in before ==> id in order;
    }
  }

  /** The transactions in some order, each once. */
  ghost predicate IsArrangement(files: Files, order: seq<Uuid>) {
    NoDuplicates(order) && Elements(order) == files.Keys
  }

  lemma ArrangementHolds(files: Files, order: seq<Uuid>)
    requires IsArrangement(files, order)
    ensures forall x :: x in order <==> x in files
  {
    assert forall x :: x in order <==> x in Elements(order);
  }

  lemma CanonicalIsArrangement(files: Files, rank: Uuid -> nat, order: seq<Uuid>)
    requires Ranked(files, rank) && IsCanonical(files, rank, order)
    ensures IsArrangement(files, order)
  {
    forall i, j | 0 <= i < j < |order| ensures order[i] != order[j] {
      assert KeyLess(KeyOf(files, rank, order[i]), KeyOf(files, rank, order[j]));
    }
  }

  lemma FlatIsAll(files: Files, order: seq<Uuid>)
    requires IsArrangement(files, order)
    ensures Elements(Flat(files, order)) == EventsOf(files)
  {
    ArrangementHolds(files, order);
    forall e ensures e in Elements(Flat(files, order)) <==> e in EventsOf(files) {
      FlatHolds(files, order, e);
    }
  }

  lemma ArrangementSnoc(files: Files, order: seq<Uuid>, id: Uuid, t: Transaction)
    requires IsArrangement(files, order) && id !in files
    ensures IsArrangement(files[id := t], order + [id])
  {
    ArrangementHolds(files, order);
  }

  // ------------------------------------------------------------- per-stream views

  /** The events of one stream, in order. */
  function Of(events: seq<FileEvent>, s: StreamId): seq<FileEvent> {
    if events == [] then []
    else
      var e := events[|events| - 1];
      Of(events[..|events| - 1], s) + (if e.stream == s then [e] else [])
  }

  lemma {:induction false} OfConcat(a: seq<FileEvent>, b: seq<FileEvent>, s: StreamId)
    ensures Of(a + b, s) == Of(a, s) + Of(b, s)
  {
    if b == [] {
      assert a + b == a;
    } else {
      assert (a + b)[..|a + b| - 1] == a + b[..|b| - 1];
      OfConcat(a, b[..|b| - 1], s);
    }
  }

  lemma {:induction false} OfMember(events: seq<FileEvent>, s: StreamId, e: FileEvent)
    ensures e in Of(events, s) <==> e in events && e.stream == s
  {
    if events != [] {
      OfMember(events[..|events| - 1], s, e);
      assert events == events[..|events| - 1] + [events[|events| - 1]];
    }
  }

  lemma {:induction false} OfIsFiltered(events: seq<FileEvent>, s: StreamId)
    ensures IsFiltered(Of(events, s), events, (e: FileEvent) => e.stream == s)
  {
    hide IsFiltered;
    var keep := (e: FileEvent) => e.stream == s;
    if events == [] {
      FilteredNone(keep);
    } else {
      var before, last := events[..|events| - 1], events[|events| - 1];
      OfIsFiltered(before, s);
      FilteredSnoc(Of(before, s), before, keep, last);
      assert before + [last] == events;
    }
  }

  ghost predicate Wrote(t: Transaction, s: StreamId) {
    Of(t.events, s) != []
  }

  ghost predicate StreamIs(streams: map<StreamId, seq<FileEvent>>, events: seq<FileEvent>, s: StreamId) {
    (s in streams <==> Of(events, s) != []) && (s in streams ==> streams[s] == Of(events, s))
  }

  /** The per-stream view of a sequence of events. */
  ghost predicate GroupsByStream(streams: map<StreamId, seq<FileEvent>>, events: seq<FileEvent>) {
    forall s :: StreamIs(streams, events, s)
  }

  function AddToStream(streams: map<StreamId, seq<FileEvent>>, e: FileEvent): map<StreamId, seq<FileEvent>> {
    streams[e.stream := (if e.stream in streams then streams[e.stream] else []) + [e]]
  }

  lemma GroupsOneMore(streams: map<StreamId, seq<FileEvent>>, done: seq<FileEvent>, e: FileEvent)
    requires GroupsByStream(streams, done)
    ensures GroupsByStream(AddToStream(streams, e), done + [e])
  {
    forall s ensures StreamIs(AddToStream(streams, e), done + [e], s) {
      assert (done + [e])[..|done + [e]| - 1] == done;
      assert StreamIs(streams, done, s);
    }
  }

  /** Streams taken in one order are those of another exactly where the two orders agree. */
  lemma StreamIsIff(streams: map<StreamId, seq<FileEvent>>, a: seq<FileEvent>, b: seq<FileEvent>, s: StreamId)
    requires GroupsByStream(streams, a)
    ensures StreamIs(streams, b, s) <==> Of(a, s) == Of(b, s)
  {
    assert StreamIs(streams, a, s);
  }

  // ------------------------------------------------------------- the ingestion log

  datatype Entry = Entry(event: Uuid, number: nat)

  datatype Positioned = Positioned(number: nat, event: FileEvent)

  function Number(p: Positioned): nat {
    p.number
  }

  function NumberOf(entries: seq<Entry>): map<Uuid, nat> {
    if entries == [] then map[]
    else
      var e := entries[|entries| - 1];
      NumberOf(entries[..|entries| - 1])[e.event := e.number]
  }

  function Largest(entries: seq<Entry>): nat {
    if entries == [] then 0
    else
      var rest, e := Largest(entries[..|entries| - 1]), entries[|entries| - 1];
      if e.number > rest then e.number else rest
  }

  /** Numbers are handed out in increasing order, one per event, from 1. */
  ghost predicate WellLogged(entries: seq<Entry>) {
    entries != [] ==>
      var before, e := entries[..|entries| - 1], entries[|entries| - 1];
      WellLogged(before) && e.event !in NumberOf(before) && e.number > Largest(before)
  }

  lemma {:induction false} LoggedNumbers(entries: seq<Entry>)
    requires WellLogged(entries)
    ensures forall id :: id in NumberOf(entries) ==> 1 <= NumberOf(entries)[id] <= Largest(entries)
    ensures forall a, b ::
              a in NumberOf(entries) && b in NumberOf(entries) && NumberOf(entries)[a] == NumberOf(entries)[b] ==>
                a == b
  {
    if entries != [] { LoggedNumbers(entries[..|entries| - 1]); }
  }

  lemma LogSnoc(entries: seq<Entry>, e: Entry)
    ensures NumberOf(entries + [e]) == NumberOf(entries)[e.event := e.number]
    ensures Largest(entries + [e]) == if e.number > Largest(entries) then e.number else Largest(entries)
    ensures WellLogged(entries + [e]) <==>
              WellLogged(entries) && e.event !in NumberOf(entries) && e.number > Largest(entries)
  {
    assert (entries + [e])[..|entries + [e]| - 1] == entries;
  }

  function Logged(entries: seq<Entry>): set<Uuid> {
    NumberOf(entries).Keys
  }

  /** `entries` and one new number after the other for `ids`. */
  function Extended(entries: seq<Entry>, ids: seq<Uuid>): seq<Entry> {
    entries + seq(|ids|, i requires 0 <= i < |ids| => Entry(ids[i], Largest(entries) + 1 + i))
  }

  lemma {:induction false} ExtendedLargest(entries: seq<Entry>, ids: seq<Uuid>)
    ensures Largest(Extended(entries, ids)) == Largest(entries) + |ids|
    ensures Extended(entries, []) == entries
    decreases |ids|
  {
    assert Extended(entries, []) == entries;
    if ids != [] {
      var before := ids[..|ids| - 1];
      ExtendedLargest(entries, before);
      assert Extended(entries, ids) == Extended(entries, before) + [Entry(ids[|ids| - 1], Largest(entries) + |ids|)];
      LogSnoc(Extended(entries, before), Entry(ids[|ids| - 1], Largest(entries) + |ids|));
    }
  }

  /** Extending twice is extending once. */
  lemma ExtendedTwice(entries: seq<Entry>, a: seq<Uuid>, b: seq<Uuid>)
    ensures Extended(Extended(entries, a), b) == Extended(entries, a + b)
  {
    ExtendedLargest(entries, a);
  }

  lemma ExtendedOnce(entries: seq<Entry>, a: seq<Uuid>, x: Uuid)
    ensures Extended(entries, a + [x]) == Extended(entries, a) + [Entry(x, Largest(Extended(entries, a)) + 1)]
  {
    ExtendedTwice(entries, a, [x]);
  }

  function EventIds(events: seq<FileEvent>): (ids: seq<Uuid>)
    ensures |ids| == |events| && forall i :: 0 <= i < |events| ==> ids[i] == events[i].id
  {
    seq(|events|, i requires 0 <= i < |events| => events[i].id)
  }

  /** The events that a log does not name, in their order. */
  function Unlogged(events: seq<FileEvent>, known: set<Uuid>): seq<Uuid> {
    if events == [] then []
    else
      var e := events[|events| - 1];
      Unlogged(events[..|events| - 1], known) + (if e.id in known then [] else [e.id])
  }

  /** In their order, exactly those that are not known. */
  lemma {:induction false} UnloggedIsFiltered(events: seq<FileEvent>, known: set<Uuid>)
    ensures IsFiltered(Unlogged(events, known), EventIds(events), (id: Uuid) => id !in known)
  {
    hide IsFiltered;
    var keep := (id: Uuid) => id !in known;
    if events == [] {
      FilteredNone(keep);
      assert EventIds(events) == [];
    } else {
      var before, last := events[..|events| - 1], events[|events| - 1];
      UnloggedIsFiltered(before, known);
      FilteredSnoc(Unlogged(before, known), EventIds(before), keep, last.id);
      assert EventIds(before) + [last.id] == EventIds(events);
    }
  }

  lemma UnloggedSnoc(events: seq<FileEvent>, e: FileEvent, known: set<Uuid>)
    ensures Unlogged(events + [e], known) == Unlogged(events, known) + (if e.id in known then [] else [e.id])
  {
    assert (events + [e])[..|events + [e]| - 1] == events;
  }

  lemma {:induction false} UnloggedNew(events: seq<FileEvent>, later: seq<FileEvent>, known: set<Uuid>)
    requires forall i :: 0 <= i < |later| ==> later[i].id !in known
    ensures Unlogged(events + later, known) == Unlogged(events, known) + EventIds(later)
    decreases |later|
  {
    hide Unlogged;
    if later == [] {
      assert events + later == events;
    } else {
      var before, e := later[..|later| - 1], later[|later| - 1];
      UnloggedNew(events, before, known);
      UnloggedSnoc(events + before, e, known);
      assert events + later == events + before + [e];
      assert EventIds(later) == EventIds(before) + [e.id];
    }
  }

  lemma {:induction false} NothingUnlogged(events: seq<FileEvent>, known: set<Uuid>)
    requires forall e :: e in events ==> e.id in known
    ensures Unlogged(events, known) == []
  {
    if events != [] { NothingUnlogged(events[..|events| - 1], known); }
  }

  /** In-memory form of the log. */
  class IngestionLog {
    var numbers: map<Uuid, nat>
    var next: nat

    /** Reads the persisted log back. */
    constructor (entries: seq<Entry>)
      ensures numbers == NumberOf(entries) && next == Largest(entries) + 1
    {
      var known: map<Uuid, nat>, largest := map[], 0;
      var i := 0;
      while i < |entries|
        invariant 0 <= i <= |entries|
        invariant known == NumberOf(entries[..i]) && largest == Largest(entries[..i])
      {
        assert entries[..i + 1][..i] == entries[..i];
        known := known[entries[i].event := entries[i].number];
        largest := if entries[i].number > largest then entries[i].number else largest;
        i := i + 1;
      }
      assert entries[..i] == entries;
      numbers, next := known, largest + 1;
    }

    ghost predicate Holds(entries: seq<Entry>)
      reads this
    {
      WellLogged(entries) && numbers == NumberOf(entries) && next == Largest(entries) + 1
    }

    method Allocate(event: Uuid, ghost entries: seq<Entry>) returns (number: nat)
      requires Holds(entries) && event !in numbers
      modifies this
      ensures number == old(next) == Largest(entries) + 1
      ensures Holds(entries + [Entry(event, number)])
    {
      LogSnoc(entries, Entry(event, next));
      number := next;
      next := next + 1;
      numbers := numbers[event := number];
    }
  }

  /** The cursor view: every event once, ascending by its local number. */
  ghost predicate IsView(view: seq<Positioned>, events: set<FileEvent>, numbers: map<Uuid, nat>) {
    && SortedBy(view, Number)
    && (forall p :: p in Elements(view) <==>
         p.event in events && p.event.id in numbers && numbers[p.event.id] == p.number)
  }

  lemma ViewOneMore(view: seq<Positioned>, view': seq<Positioned>, done: set<FileEvent>, e: FileEvent,
                    numbers: map<Uuid, nat>, numbers': map<Uuid, nat>)
    requires IsView(view, done, numbers) && SortedBy(view', Number)
    requires e.id in numbers' && Elements(view') == Elements(view) + {Positioned(numbers'[e.id], e)}
    requires forall d :: d in done ==> d.id in numbers && d.id in numbers' && numbers'[d.id] == numbers[d.id]
    ensures IsView(view', done + {e}, numbers')
  {
    forall p ensures p in Elements(view') <==>
        p.event in done + {e} && p.event.id in numbers' && numbers'[p.event.id] == p.number {
    }
  }

  /** Number `n` is `e`'s own, so no entry of the view has it. */
  lemma NumberIsFree(view: seq<Positioned>, done: set<FileEvent>, e: FileEvent, numbers: map<Uuid, nat>,
                     entries: seq<Entry>)
    requires IsView(view, done, numbers) && WellLogged(entries) && e.id in NumberOf(entries)
    requires forall d :: d in done ==>
               d.id in numbers && d.id in NumberOf(entries) && NumberOf(entries)[d.id] == numbers[d.id]
    requires forall d :: d in done ==> d.id != e.id
    ensures forall p :: p in view ==> p.number != NumberOf(entries)[e.id]
  {
    LoggedNumbers(entries);
    forall p | p in view ensures p.number != NumberOf(entries)[e.id] {
      assert p in Elements(view);
    }
  }

  lemma AppendedSorted(view: seq<Positioned>, done: set<FileEvent>, numbers: map<Uuid, nat>, p: Positioned)
    requires IsView(view, done, numbers) && forall id :: id in numbers ==> numbers[id] < p.number
    ensures SortedBy(view + [p], Number) && Elements(view + [p]) == Elements(view) + {p}
  {
    assert forall q :: q in view ==> q in Elements(view);
  }

  // ------------------------------------------------------------- the walk that builds the index

  /** An event of the walk: it keeps the number it was given before, or gets the next one. */
  method NumberEvent(e: FileEvent, log: IngestionLog, ghost entries: seq<Entry>)
    returns (number: nat, added: seq<Entry>)
    requires log.Holds(entries)
    modifies log
    ensures log.Holds(entries + added) && e.id in log.numbers && log.numbers[e.id] == number
    ensures log.numbers.Keys == old(log.numbers.Keys) + {e.id}
    ensures forall id :: id in old(log.numbers) ==> log.numbers[id] == old(log.numbers)[id]
    ensures added == (if e.id in old(log.numbers) then [] else [Entry(e.id, Largest(entries) + 1)])
  {
    added := [];
    if e.id in log.numbers {
      number := log.numbers[e.id];
      assert entries + added == entries;
    } else {
      number := log.Allocate(e.id, entries);
      added := [Entry(e.id, number)];
      LogSnoc(entries, added[0]);
    }
  }

  method IndexOne(e: FileEvent, ghost done: seq<FileEvent>, streams: map<StreamId, seq<FileEvent>>,
                  view: seq<Positioned>, log: IngestionLog, ghost entries: seq<Entry>)
    returns (streams': map<StreamId, seq<FileEvent>>, view': seq<Positioned>, added: seq<Entry>)
    requires log.Holds(entries) && GroupsByStream(streams, done) && IsView(view, Elements(done), log.numbers)
    requires forall d :: d in Elements(done) ==> d.id in log.numbers && d.id != e.id
    modifies log
    ensures log.Holds(entries + added) && GroupsByStream(streams', done + [e])
              && IsView(view', Elements(done + [e]), log.numbers)
    ensures forall d :: d in Elements(done + [e]) ==> d.id in log.numbers
    ensures log.numbers.Keys == old(log.numbers.Keys) + {e.id}
    ensures added == (if e.id in old(log.numbers) then [] else [Entry(e.id, Largest(entries) + 1)])
  {
    hide GroupsByStream, AddToStream, IsView, WellLogged, NumberOf, Largest;
    streams' := AddToStream(streams, e);
    GroupsOneMore(streams, done, e);
    ghost var before := log.numbers;
    var number;
    number, added := NumberEvent(e, log, entries);
    NumberIsFree(view, Elements(done), e, before, entries + added);
    ViewIsSorted(view, Elements(done), before);
    view' := InsertBy(view, Positioned(number, e), Number);
    ViewOneMore(view, view', Elements(done), e, before, log.numbers);
    assert Elements(done + [e]) == Elements(done) + {e};
  }

  lemma ViewIsSorted(view: seq<Positioned>, events: set<FileEvent>, numbers: map<Uuid, nat>)
    requires IsView(view, events, numbers)
    ensures SortedBy(view, Number)
  {
  }

  /** Walks every event in canonical order. */
  method IndexEvents(files: Files, order: seq<Uuid>, log: IngestionLog, entries: seq<Entry>)
    returns (streams: map<StreamId, seq<FileEvent>>, view: seq<Positioned>, entries': seq<Entry>)
    requires log.Holds(entries) && DistinctEvents(files) && IsArrangement(files, order)
    modifies log
    ensures log.Holds(entries') && entries <= entries'
    ensures GroupsByStream(streams, Flat(files, order)) && IsView(view, EventsOf(files), log.numbers)
    ensures log.numbers.Keys == old(log.numbers.Keys) + IdsOf(EventsOf(files))
    ensures entries' == Extended(entries, Unlogged(Flat(files, order), Logged(entries)))
  {
    hide GroupsByStream, IsView, WellLogged, NumberOf, Largest, DistinctEvents, IsArrangement, Flat, IdsOf, EventsOf,
      Extended;
    streams, view, entries' := map[], [], entries;
    ghost var done: seq<FileEvent> := [];
    NothingIndexed(files, log.numbers);
    ExtendedLargest(entries, []);
    ArrangementHolds(files, order);
    var i := 0;
    assert order[..0] == [];
    while i < |order|
      invariant 0 <= i <= |order| && done == Flat(files, order[..i])
      invariant log.Holds(entries') && entries <= entries'
      invariant GroupsByStream(streams, done) && IsView(view, Elements(done), log.numbers)
      invariant forall d :: d in Elements(done) ==> d.id in log.numbers
      invariant log.numbers.Keys == Logged(entries) + IdsOf(Elements(done))
      invariant entries' == Extended(entries, Unlogged(done, Logged(entries)))
    {
      assert order[..i + 1] == order[..i] + [order[i]];
      FlatSnoc(files, order[..i], order[i]);
      EventsApart(files, order, i);
      ghost var earlier := done;
      streams, view, entries' := IndexTransaction(files[order[i]].events, done, streams, view, log, entries', entries);
      done := done + files[order[i]].events;
      IdsConcat(earlier, files[order[i]].events);
      i := i + 1;
    }
    assert order[..i] == order;
    FlatIsAll(files, order);
  }

  lemma NothingIndexed(files: Files, numbers: map<Uuid, nat>)
    ensures Flat(files, []) == [] && GroupsByStream(map[], []) && IsView([], Elements([]), numbers)
    ensures IdsOf(Elements([])) == {}
  {
  }

  lemma IdsConcat(a: seq<FileEvent>, b: seq<FileEvent>)
    ensures IdsOf(Elements(a + b)) == IdsOf(Elements(a)) + IdsOf(Elements(b))
  {
    assert Elements(a + b) == Elements(a) + Elements(b);
  }

  /** A transaction's events have ids of their own, apart from those of every earlier one. */
  ghost predicate Apart(events: seq<FileEvent>, done: set<FileEvent>) {
    && (forall i, j :: 0 <= i < j < |events| ==> events[i].id != events[j].id)
    && (forall i, d :: 0 <= i < |events| && d in done ==> events[i].id != d.id)
  }

  lemma EventsApart(files: Files, order: seq<Uuid>, i: nat)
    requires DistinctEvents(files) && IsArrangement(files, order) && i < |order| && order[i] in files
    ensures Apart(files[order[i]].events, Elements(Flat(files, order[..i])))
  {
    var events := files[order[i]].events;
    forall k, d | 0 <= k < |events| && d in Elements(Flat(files, order[..i])) ensures events[k].id != d.id {
      FlatHolds(files, order[..i], d);
      var a :| a in order[..i] && a in files && d in files[a].events;
      var n :| 0 <= n < |files[a].events| && files[a].events[n] == d;
      assert a != order[i];
    }
  }

  method IndexTransaction(events: seq<FileEvent>, ghost done: seq<FileEvent>, streams: map<StreamId, seq<FileEvent>>,
                          view: seq<Positioned>, log: IngestionLog, entries: seq<Entry>, ghost start: seq<Entry>)
    returns (streams': map<StreamId, seq<FileEvent>>, view': seq<Positioned>, entries': seq<Entry>)
    requires log.Holds(entries) && GroupsByStream(streams, done) && IsView(view, Elements(done), log.numbers)
    requires Apart(events, Elements(done)) && forall d :: d in Elements(done) ==> d.id in log.numbers
    requires log.numbers.Keys == Logged(start) + IdsOf(Elements(done))
    requires entries == Extended(start, Unlogged(done, Logged(start)))
    modifies log
    ensures log.Holds(entries') && entries <= entries'
    ensures GroupsByStream(streams', done + events) && IsView(view', Elements(done + events), log.numbers)
    ensures forall d :: d in Elements(done + events) ==> d.id in log.numbers
    ensures log.numbers.Keys == Logged(start) + IdsOf(Elements(done + events))
    ensures entries' == Extended(start, Unlogged(done + events, Logged(start)))
  {
    hide GroupsByStream, IsView, WellLogged, NumberOf, Largest, IdsOf, Apart, Extended, Unlogged, Logged;
    streams', view', entries' := streams, view, entries;
    var k := 0;
    assert done + events[..0] == done && events[..0] == [];
    NothingIndexed(map[], log.numbers);
    while k < |events|
      invariant 0 <= k <= |events| && log.Holds(entries') && entries <= entries'
      invariant GroupsByStream(streams', done + events[..k]) && IsView(view', Elements(done + events[..k]), log.numbers)
      invariant forall d :: d in Elements(done + events[..k]) ==> d.id in log.numbers
      invariant log.numbers.Keys == Logged(start) + IdsOf(Elements(done + events[..k]))
      invariant entries' == Extended(start, Unlogged(done + events[..k], Logged(start)))
    {
      ApartNext(events, done, k);
      UnloggedNext(done + events[..k], events[k], start, log.numbers.Keys);
      var added;
      streams', view', added := IndexOne(events[k], done + events[..k], streams', view', log, entries');
      entries' := entries' + added;
      k := k + 1;
    }
    assert events[..k] == events;
  }

  lemma ApartNext(events: seq<FileEvent>, done: seq<FileEvent>, k: nat)
    requires Apart(events, Elements(done)) && k < |events|
    ensures forall d :: d in Elements(done + events[..k]) ==> d.id != events[k].id
    ensures done + events[..k] + [events[k]] == done + events[..k + 1]
    ensures IdsOf(Elements(done + events[..k + 1])) == IdsOf(Elements(done + events[..k])) + {events[k].id}
  {
    assert events[..k + 1] == events[..k] + [events[k]];
    assert done + events[..k + 1] == done + events[..k] + [events[k]];
    IdsConcat(done + events[..k], [events[k]]);
    assert IdsOf(Elements([events[k]])) == {events[k].id};
  }

  /** The next event of the walk extends the log exactly if the log that was read does not name it. */
  lemma UnloggedNext(done: seq<FileEvent>, e: FileEvent, start: seq<Entry>, known: set<Uuid>)
    requires known == Logged(start) + IdsOf(Elements(done)) && forall d :: d in Elements(done) ==> d.id != e.id
    ensures var entries := Extended(start, Unlogged(done, Logged(start)));
            Extended(start, Unlogged(done + [e], Logged(start)))
                == entries + (if e.id in known then [] else [Entry(e.id, Largest(entries) + 1)])
  {
    hide Largest, Extended;
    UnloggedSnoc(done, e, Logged(start));
    ExtendedOnce(start, Unlogged(done, Logged(start)), e.id);
    assert Unlogged(done, Logged(start)) + [] == Unlogged(done, Logged(start));
    var entries := Extended(start, Unlogged(done, Logged(start)));
    assert entries + [] == entries;
  }

  // ------------------------------------------------------------- what readers see

  /** Every event of the view under its number. */
  function Shown(view: seq<Positioned>): (entries: seq<Entry>)
    ensures |entries| == |view| && forall i :: 0 <= i < |view| ==> entries[i] == Entry(view[i].event.id, view[i].number)
  {
    seq(|view|, i requires 0 <= i < |view| => Entry(view[i].event.id, view[i].number))
  }

  function NumberIn(e: Entry): nat {
    e.number
  }

  /** The numbers, in the order in which they were handed out. */
  lemma {:induction false} LogIsSorted(entries: seq<Entry>)
    requires WellLogged(entries)
    ensures SortedBy(entries, NumberIn) && forall e :: e in entries ==> e.number <= Largest(entries)
    ensures Largest(entries) == if entries == [] then 0 else entries[|entries| - 1].number
  {
    if entries != [] {
      var before, last := entries[..|entries| - 1], entries[|entries| - 1];
      LogSnoc(before, last);
      assert entries == before + [last];
      LogIsSorted(before);
      LastIsLargest(before, last);
    }
  }

  lemma LastIsLargest(before: seq<Entry>, last: Entry)
    requires SortedBy(before, NumberIn) && forall e :: e in before ==> e.number < last.number
    ensures SortedBy(before + [last], NumberIn) && forall e :: e in before + [last] ==> e.number <= last.number
  {
    forall i | 0 <= i < |before| ensures NumberIn(before[i]) < NumberIn(last) { assert before[i] in before; }
  }

  lemma {:induction false} LogIsItsNumbers(entries: seq<Entry>)
    requires WellLogged(entries)
    ensures forall e :: e in entries <==> e.event in NumberOf(entries) && NumberOf(entries)[e.event] == e.number
  {
    if entries != [] {
      var before, last := entries[..|entries| - 1], entries[|entries| - 1];
      LogIsItsNumbers(before);
      assert entries == before + [last];
    }
  }

  /** The view shows the log: its events in the order of their numbers. */
  lemma ViewIsLog(view: seq<Positioned>, events: set<FileEvent>, entries: seq<Entry>)
    requires IsView(view, events, NumberOf(entries)) && WellLogged(entries) && Logged(entries) == IdsOf(events)
    requires forall d, e :: d in events && e in events && d.id == e.id ==> d == e
    ensures Shown(view) == entries
  {
    hide WellLogged, NumberOf, Largest;
    LogIsSorted(entries);
    LogIsItsNumbers(entries);
    var shown := Shown(view);
    forall x ensures x in Elements(shown) <==> x in Elements(entries) {
      if x in shown {
        var i :| 0 <= i < |shown| && shown[i] == x;
        assert view[i] in Elements(view);
      }
      if x in entries {
        assert x.event in IdsOf(events);
        var e :| e in events && e.id == x.event;
        assert Positioned(x.number, e) in Elements(view);
        var i :| 0 <= i < |view| && view[i] == Positioned(x.number, e);
        assert shown[i] == x;
      }
    }
    SortedIsUnique(shown, entries, NumberIn);
  }

  // ------------------------------------------------------------- the index

  datatype Index = Index(
    headers: Files,
    streams: map<StreamId, seq<FileEvent>>,
    byIngestion: seq<Positioned>,
    tips: seq<Uuid>,
    numbers: map<Uuid, nat>,
    next: nat)

  /** What opening a store with these files and this log computes, the streams aside. */
  ghost predicate IsIndexButStreams(files: Files, entries: seq<Entry>, rank: Uuid -> nat, x: Index) {
    && Ranked(files, rank) && DistinctEvents(files) && WellLogged(entries)
    && x.headers == files
    && SortedBy(x.tips, Itself) && Elements(x.tips) == Tips(files)
    && x.numbers == NumberOf(entries) && x.next == Largest(entries) + 1
    && x.numbers.Keys == IdsOf(EventsOf(files))
    && IsView(x.byIngestion, EventsOf(files), x.numbers)
  }

  ghost predicate IsIndexOf(files: Files, entries: seq<Entry>, order: seq<Uuid>, rank: Uuid -> nat, x: Index) {
    IsIndexButStreams(files, entries, rank, x) && IsCanonical(files, rank, order)
      && GroupsByStream(x.streams, Flat(files, order))
  }

  /** Files and log determine the whole index, so an index kept up to date by appends is equal
      to the one a rebuild would produce. */
  lemma IndexIsDetermined(files: Files, entries: seq<Entry>, o1: seq<Uuid>, o2: seq<Uuid>, rank: Uuid -> nat, x: Index,
                          y: Index)
    requires IsIndexOf(files, entries, o1, rank, x) && IsIndexOf(files, entries, o2, rank, y)
    ensures x == y
  {
    CanonicalIsUnique(files, rank, o1, o2);
    SortedIsUnique(x.tips, y.tips, Itself);
    ViewIsDetermined(x.byIngestion, y.byIngestion, EventsOf(files), x.numbers);
    StreamsAreDetermined(x.streams, y.streams, Flat(files, o1));
  }

  lemma StreamsAreDetermined(a: map<StreamId, seq<FileEvent>>, b: map<StreamId, seq<FileEvent>>, events: seq<FileEvent>)
    requires GroupsByStream(a, events) && GroupsByStream(b, events)
    ensures a == b
  {
    forall s ensures (s in a <==> s in b) && (s in a ==> a[s] == b[s]) {
      assert StreamIs(a, events, s) && StreamIs(b, events, s);
    }
  }

  lemma ViewIsDetermined(v: seq<Positioned>, w: seq<Positioned>, events: set<FileEvent>, numbers: map<Uuid, nat>)
    requires IsView(v, events, numbers) && IsView(w, events, numbers)
    ensures v == w
  {
    assert forall p :: p in Elements(v) <==> p in Elements(w);
    SortedIsUnique(v, w, Number);
  }

  /** The ingestion view of a larger directory extends the one of the smaller at its end,
      whatever a merge brought in and whatever order the streams are in, exactly if the log does. */
  lemma ViewGrowsIffLogDoes(f: Files, g: Files, entries: seq<Entry>, entries': seq<Entry>, rank: Uuid -> nat, x: Index,
                            y: Index)
    requires IsIndexButStreams(f, entries, rank, x) && IsIndexButStreams(g, entries', rank, y) && Includes(g, f)
    ensures x.byIngestion <= y.byIngestion <==> entries <= entries'
  {
    hide WellLogged, NumberOf, Largest, Tips, SortedBy, EventsOf, Ranked;
    var v, w := x.byIngestion, y.byIngestion;
    IndexIsLog(f, entries, rank, x);
    IndexIsLog(g, entries', rank, y);
    EventsGrow(f, g);
    if entries <= entries' {
      forall i | 0 <= i < |v| ensures v[i] == w[i] {
        assert Shown(v)[i] == Shown(w)[i];
        assert v[i] in Elements(v) && w[i] in Elements(w);
        SameIdSameEvent(g, v[i].event, w[i].event);
      }
    }
    if v <= w {
      forall i | 0 <= i < |entries| ensures entries[i] == entries'[i] {
        assert Shown(v)[i] == Shown(w)[i];
      }
    }
  }

  lemma IndexIsLog(files: Files, entries: seq<Entry>, rank: Uuid -> nat, x: Index)
    requires IsIndexButStreams(files, entries, rank, x)
    ensures Shown(x.byIngestion) == entries
  {
    hide WellLogged, NumberOf, Largest, Tips, SortedBy, Ranked, IsView, Shown;
    forall d, e | d in EventsOf(files) && e in EventsOf(files) && d.id == e.id ensures d == e {
      SameIdSameEvent(files, d, e);
    }
    ViewIsLog(x.byIngestion, EventsOf(files), entries);
  }

  lemma EventsGrow(f: Files, g: Files)
    requires Includes(g, f)
    ensures EventsOf(f) <= EventsOf(g)
  {
    forall e | e in EventsOf(f) ensures e in EventsOf(g) {
      var id :| id in f && e in f[id].events;
      assert id in g && e in g[id].events;
    }
  }

  /** An id that the history does not know and that is created now. */
  ghost predicate IsNewId(files: Files, rank: Uuid -> nat, id: Uuid) {
    id !in files && forall c :: c in files ==> id !in files[c].parents && rank(c) < rank(id)
  }

  lemma EventsOfNew(files: Files, id: Uuid, t: Transaction)
    requires id !in files
    ensures EventsOf(files[id := t]) == EventsOf(files) + Elements(t.events)
  {
    var g := files[id := t];
    forall e | e in EventsOf(files) ensures e in EventsOf(g) {
      var x :| x in files && e in files[x].events;
      assert x in g && e in g[x].events;
    }
    assert forall e :: e in t.events ==> id in g && e in g[id].events;
  }

  lemma EventIsThere(files: Files, id: Uuid, i: nat)
    requires id in files && i < |files[id].events|
    ensures files[id].events[i] in EventsOf(files)
  {
    assert files[id].events[i] in files[id].events;
  }

  lemma DistinctNew(files: Files, id: Uuid, t: Transaction)
    requires DistinctEvents(files) && id !in files && Apart(t.events, EventsOf(files))
    ensures DistinctEvents(files[id := t])
  {
    var g := files[id := t];
    forall a, b, i, j | a in g && b in g && 0 <= i < |g[a].events| && 0 <= j < |g[b].events|
                        && g[a].events[i].id == g[b].events[j].id
      ensures a == b && i == j
    {
      if a == id && b != id {
        EventIsThere(files, b, j);
      } else if b == id && a != id {
        EventIsThere(files, a, i);
      }
    }
  }

  /** Stream order aside, the index extended in place is that of the extended directory. */
  lemma IndexExtends(files: Files, entries: seq<Entry>, rank: Uuid -> nat, x: Index, id: Uuid, t: Transaction,
                     entries': seq<Entry>, y: Index)
    requires IsIndexButStreams(files, entries, rank, x) && IsNewId(files, rank, id) && Apart(t.events, EventsOf(files))
    requires forall p :: p in t.parents ==> p in files
    requires WellLogged(entries') && y.numbers == NumberOf(entries') && y.next == Largest(entries') + 1
    requires y.headers == files[id := t] && SortedBy(y.tips, Itself) && Elements(y.tips) == Tips(files[id := t])
    requires IsView(y.byIngestion, EventsOf(files) + Elements(t.events), y.numbers)
    requires y.numbers.Keys == IdsOf(EventsOf(files) + Elements(t.events))
    ensures IsIndexButStreams(files[id := t], entries', rank, y)
  {
    hide IsView, Tips, WellLogged, NumberOf, Largest, SortedBy, IdsOf, EventsOf;
    EventsOfNew(files, id, t);
    DistinctNew(files, id, t);
  }

  // ------------------------------------------------------------- merge transactions

  /** A transaction that nothing refers to yet takes its place somewhere in the canonical order. */
  lemma InsertedInOrder(files: Files, rank: Uuid -> nat, order: seq<Uuid>, id: Uuid, t: Transaction) returns (k: nat)
    requires Ranked(files, rank) && Ranked(files[id := t], rank) && IsCanonical(files, rank, order)
    requires id !in files && forall c :: c in files ==> id !in files[c].parents
    ensures k <= |order| && IsCanonical(files[id := t], rank, order[..k] + [id] + order[k..])
  {
    var g := files[id := t];
    forall x | x in files ensures KeyOf(g, rank, x) == KeyOf(files, rank, x) {
      DepthUnchanged(files, g, rank, x);
    }
    var key := KeyOf(g, rank, id);
    k := 0;
    while k < |order| && KeyLess(KeyOf(files, rank, order[k]), key)
      invariant 0 <= k <= |order|
      invariant forall i :: 0 <= i < k ==> KeyLess(KeyOf(files, rank, order[i]), key)
    {
      k := k + 1;
    }
    assert InOrder(g, rank, order);
    InsertedKeepsOrder(g, rank, order, id, k);
  }

  lemma InsertedKeepsOrder(files: Files, rank: Uuid -> nat, order: seq<Uuid>, id: Uuid, k: nat)
    requires Ranked(files, rank) && InOrder(files, rank, order) && id in files && k <= |order|
    requires Elements(order) + {id} == files.Keys
    requires forall i :: 0 <= i < k ==> KeyLess(KeyOf(files, rank, order[i]), KeyOf(files, rank, id))
    requires k < |order| ==> !KeyLess(KeyOf(files, rank, order[k]), KeyOf(files, rank, id)) && order[k] != id
    ensures IsCanonical(files, rank, order[..k] + [id] + order[k..])
  {
    hide InOrder, SortedKeys, IsCanonical;
    var keyed := KeysOf(files, rank, order);
    var key := KeyOf(files, rank, id);
    var r := keyed[..k] + [key] + keyed[k..];
    KeysAreSorted(files, rank, order);
    KeysAreTotal(keyed, k, key);
    InsertedSorted(files, rank, keyed, k, key, r);
    KeyIds(keyed, r, id);
    InsertedIds(order, keyed, k, id, key);
    SortedIsCanonical(files, rank, r, order[..k] + [id] + order[k..]);
  }

  lemma InsertedIds(order: seq<Uuid>, keyed: seq<Key>, k: nat, id: Uuid, key: Key)
    requires |order| == |keyed| && k <= |order| && key.id == id
    requires forall i :: 0 <= i < |order| ==> keyed[i].id == order[i]
    ensures var r, ids := keyed[..k] + [key] + keyed[k..], order[..k] + [id] + order[k..];
            |r| == |ids| && forall i :: 0 <= i < |r| ==> ids[i] == r[i].id
  {
  }

  ghost function KeysOf(files: Files, rank: Uuid -> nat, order: seq<Uuid>): seq<Key>
    requires Ranked(files, rank) && InOrder(files, rank, order)
  {
    seq(|order|, i requires 0 <= i < |order| => KeyOf(files, rank, order[i]))
  }

  lemma KeysAreSorted(files: Files, rank: Uuid -> nat, order: seq<Uuid>)
    requires Ranked(files, rank) && InOrder(files, rank, order)
    ensures SortedKeys(files, rank, KeysOf(files, rank, order))
    ensures (set k | k in KeysOf(files, rank, order) :: k.id) == Elements(order)
  {
    var keyed := KeysOf(files, rank, order);
    forall x | x in order ensures exists k :: k in keyed && k.id == x {
      var i :| 0 <= i < |order| && order[i] == x;
      assert keyed[i] in keyed && keyed[i].id == x;
    }
  }

  lemma KeysAreTotal(keyed: seq<Key>, k: nat, key: Key)
    requires k < |keyed| ==> !KeyLess(keyed[k], key) && keyed[k].id != key.id
    ensures k < |keyed| ==> KeyLess(key, keyed[k])
  {
  }

  lemma InsertedFlat(files: Files, order: seq<Uuid>, k: nat, id: Uuid, t: Transaction)
    requires k <= |order| && id !in order && forall x :: x in order ==> x in files
    ensures Flat(files[id := t], order[..k] + [id] + order[k..])
         == Flat(files, order[..k]) + t.events + Flat(files, order[k..])
    ensures Flat(files, order) == Flat(files, order[..k]) + Flat(files, order[k..])
  {
    hide Flat;
    var g, a, b := files[id := t], order[..k], order[k..];
    FlatConcat(g, a + [id], b);
    FlatSnoc(g, a, id);
    FlatSame(files, g, a);
    FlatSame(files, g, b);
    FlatConcat(files, a, b);
    assert order == a + b;
  }

  /** Some transaction that sorts after `id` wrote the stream. */
  ghost predicate LaterWriter(files: Files, order: seq<Uuid>, id: Uuid, s: StreamId) {
    exists i, j :: 0 <= i < j < |order| && order[i] == id && order[j] in files && Wrote(files[order[j]], s)
  }

  lemma {:induction false} SilentIff(files: Files, order: seq<Uuid>, s: StreamId)
    ensures Of(Flat(files, order), s) == [] <==> forall x :: x in order && x in files ==> !Wrote(files[x], s)
  {
    if order != [] {
      var before, last := order[..|order| - 1], order[|order| - 1];
      SilentIff(files, before, s);
      assert order == before + [last];
      OfConcat(Flat(files, before), if last in files then files[last].events else [], s);
      assert last in order && forall x :: x in before ==> x in order;
    }
  }

  lemma LaterWriterIff(files: Files, order: seq<Uuid>, k: nat, id: Uuid, t: Transaction, s: StreamId)
    requires k <= |order| && id !in order && forall x :: x in order ==> x in files
    ensures LaterWriter(files[id := t], order[..k] + [id] + order[k..], id, s) <==> Of(Flat(files, order[k..]), s) != []
  {
    hide Of, Flat, Wrote;
    var g, merged := files[id := t], order[..k] + [id] + order[k..];
    SilentIff(files, order[k..], s);
    if Of(Flat(files, order[k..]), s) != [] {
      var x :| x in order[k..] && x in files && Wrote(files[x], s);
      var n :| 0 <= n < |order[k..]| && order[k..][n] == x;
      assert merged[k] == id && merged[k + 1 + n] == x && g[x] == files[x];
    }
    if LaterWriter(g, merged, id, s) {
      var i, j :| 0 <= i < j < |merged| && merged[i] == id && merged[j] in g && Wrote(g[merged[j]], s);
      AfterInserted(order, k, id, i, j);
    }
  }

  lemma AfterInserted(order: seq<Uuid>, k: nat, id: Uuid, i: nat, j: nat)
    requires k <= |order| && id !in order && i < j <= |order| && (order[..k] + [id] + order[k..])[i] == id
    ensures (order[..k] + [id] + order[k..])[j] in order[k..] && (order[..k] + [id] + order[k..])[j] in order
  {
    assert i == k && (order[..k] + [id] + order[k..])[j] == order[k..][j - k - 1];
  }

  /** Two ways of placing a stream's new events agree exactly when the old ones agree and
      nothing stands behind the new. */
  lemma PlacedEqual<T>(a: seq<T>, x: seq<T>, y: seq<T>, e: seq<T>)
    requires y != [] && e != [] ==> y[|y| - 1] != e[|e| - 1]
    ensures a + e == x + e + y <==> a == x + y && (e == [] || y == [])
  {
    if y == [] {
      assert x + e + y == x + e && x + y == x;
      if a + e == x + e {
        assert a == (a + e)[..|a + e| - |e|] == (x + e)[..|x + e| - |e|] == x;
      }
    } else if e == [] {
      assert a + e == a && x + e + y == x + y;
    } else {
      assert (a + e)[|a + e| - 1] == e[|e| - 1] && (x + e + y)[|x + e + y| - 1] == y[|y| - 1];
    }
  }

  lemma LastsDiffer(files: Files, order: seq<Uuid>, events: seq<FileEvent>, s: StreamId)
    requires Apart(events, EventsOf(files))
    ensures var y, e := Of(Flat(files, order), s), Of(events, s);
            y != [] && e != [] ==> y[|y| - 1] != e[|e| - 1]
  {
    hide Of, Flat, Apart;
    var y, e := Of(Flat(files, order), s), Of(events, s);
    if y != [] && e != [] {
      var u, v := y[|y| - 1], e[|e| - 1];
      assert u in y && v in e;
      OfMember(Flat(files, order), s, u);
      OfMember(events, s, v);
      FlatHolds(files, order, u);
      ApartMember(events, EventsOf(files), v);
    }
  }

  lemma ApartMember(events: seq<FileEvent>, done: set<FileEvent>, e: FileEvent)
    requires Apart(events, done) && e in events
    ensures e !in done
  {
    var i :| 0 <= i < |events| && events[i] == e;
  }

  /** A transaction is taken into the index in memory after those in `arrived`; a rebuild takes
      it at its canonical place.  The two agree on a stream exactly when they agreed before and,
      if the transaction wrote the stream, none that sorts after it did. */
  lemma MergedStreamMatchesIff(files: Files, rank: Uuid -> nat, order: seq<Uuid>, order': seq<Uuid>, arrived: seq<Uuid>,
                               id: Uuid, t: Transaction, s: StreamId)
    requires Ranked(files, rank) && Ranked(files[id := t], rank) && IsNewId(files, rank, id)
    requires IsCanonical(files, rank, order) && IsCanonical(files[id := t], rank, order')
    requires IsArrangement(files, arrived) && Apart(t.events, EventsOf(files))
    ensures Of(Flat(files[id := t], arrived + [id]), s) == Of(Flat(files[id := t], order'), s) <==>
            && Of(Flat(files, arrived), s) == Of(Flat(files, order), s)
            && (Wrote(t, s) ==> !LaterWriter(files[id := t], order', id, s))
  {
    hide Flat, InOrder, Depth, LaterWriter, Apart;
    var k := InsertedInOrder(files, rank, order, id, t);
    CanonicalIsUnique(files[id := t], rank, order', order[..k] + [id] + order[k..]);
    CanonicalIsArrangement(files, rank, order);
    ArrangementHolds(files, order);
    ArrangementHolds(files, arrived);
    InsertedFlat(files, order, k, id, t);
    FlatNew(files, arrived, id, t);
    LaterWriterIff(files, order, k, id, t, s);
    LastsDiffer(files, order[k..], t.events, s);
    PlacedStream(Flat(files, arrived), Flat(files, order[..k]), Flat(files, order[k..]), t.events, s);
  }

  lemma PlacedStream(a: seq<FileEvent>, x: seq<FileEvent>, y: seq<FileEvent>, e: seq<FileEvent>, s: StreamId)
    requires Of(y, s) != [] && Of(e, s) != [] ==> Of(y, s)[|Of(y, s)| - 1] != Of(e, s)[|Of(e, s)| - 1]
    ensures Of(a + e, s) == Of(x + e + y, s) <==> Of(a, s) == Of(x + y, s) && (Of(e, s) == [] || Of(y, s) == [])
  {
    OfConcat(a, e, s);
    OfConcat(x + e, y, s);
    OfConcat(x, e, s);
    OfConcat(x, y, s);
    PlacedEqual(Of(a, s), Of(x, s), Of(y, s), Of(e, s));
  }

  /** A transaction below all tips sorts last, so taking it in changes no agreement. */
  lemma AppendedStreamMatchesIff(files: Files, order: seq<Uuid>, arrived: seq<Uuid>, id: Uuid, t: Transaction,
                                 s: StreamId)
    requires id !in files && IsArrangement(files, arrived) && IsArrangement(files, order)
    ensures Of(Flat(files[id := t], arrived + [id]), s) == Of(Flat(files[id := t], order + [id]), s) <==>
            Of(Flat(files, arrived), s) == Of(Flat(files, order), s)
  {
    hide Flat;
    ArrangementHolds(files, order);
    ArrangementHolds(files, arrived);
    FlatNew(files, arrived, id, t);
    FlatNew(files, order, id, t);
    OfConcat(Flat(files, arrived), t.events, s);
    OfConcat(Flat(files, order), t.events, s);
    PlacedEqual(Of(Flat(files, arrived), s), Of(Flat(files, order), s), [], Of(t.events, s));
    assert Of(Flat(files, order), s) + Of(t.events, s) + [] == Of(Flat(files, order), s) + Of(t.events, s);
    assert Of(Flat(files, order), s) + [] == Of(Flat(files, order), s);
  }
}
