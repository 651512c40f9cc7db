/** The file store: an index in memory over the transaction files of a directory, rebuilt on
    open and extended in place by every append and every merge transaction. */
module FileStore {
  import opened Streams
  import opened Writes
  import opened Sorting
  import opened TransactionGraph
  import opened FileIndex

  /** The directory on disk: immutable transaction files and the machine-local log. */
  class Directory {
    var files: Files
    var entries: seq<Entry>

    constructor ()
      ensures files == map[] && entries == []
    {
      files, entries := map[], [];
    }

    /** A merge of another replica's history is a plain union of files. */
    method Union(others: Files)
      modifies this`files
      ensures files == others + old(files) && Includes(files, old(files))
    {
      files := others + files;
    }
  }

  /** What opening asks of a directory: ids were created in some order, events have ids of
      their own, and the log names only events that are present. */
  ghost predicate GoodHistory(files: Files, entries: seq<Entry>, rank: Uuid -> nat) {
    && Ranked(files, rank) && WellLogged(entries) && DistinctEvents(files)
    && NumberOf(entries).Keys <= IdsOf(EventsOf(files))
  }

  /** A working copy at one moment. */
  datatype Stage = Stage(files: Files, entries: seq<Entry>, index: Index)

  ghost predicate IsStage(s: Stage, rank: Uuid -> nat) {
    IsIndexButStreams(s.files, s.entries, rank, s.index)
  }

  /** A later moment of the same working copy: no file and no number was lost. */
  ghost predicate Follows(a: Stage, b: Stage) {
    Includes(b.files, a.files) && a.entries <= b.entries
  }

  /** The numbers beyond `kept` belong to the events that it does not name, consecutively and in
      canonical order. */
  ghost predicate NumberedFrom(kept: seq<Entry>, files: Files, order: seq<Uuid>, entries: seq<Entry>) {
    entries == Extended(kept, Unlogged(Flat(files, order), Logged(kept)))
  }

  // ------------------------------------------------------------- the events of a transaction

  function Head(streams: map<StreamId, seq<FileEvent>>, s: StreamId): nat {
    if s in streams then |streams[s]| else 0
  }

  /** How many of the first `n` entries are for stream `s`. */
  function Offset(entries: seq<Event>, n: nat, s: StreamId): nat
    requires n <= |entries|
  {
    if n == 0 then 0 else Offset(entries, n - 1, s) + (if entries[n - 1].stream == s then 1 else 0)
  }

  function Envelope(streams: map<StreamId, seq<FileEvent>>, entries: seq<Event>, ids: seq<Uuid>, i: nat): FileEvent
    requires i < |entries| == |ids|
  {
    var s := entries[i].stream;
    FileEvent(ids[i], s, Head(streams, s) + Offset(entries, i + 1, s), entries[i].payload)
  }

  ghost predicate IsBuiltTo(streams: map<StreamId, seq<FileEvent>>, entries: seq<Event>, ids: seq<Uuid>,
                            events: seq<FileEvent>, n: nat) {
    && |events| == n <= |entries| == |ids|
    && forall i :: 0 <= i < n ==> events[i] == Envelope(streams, entries, ids, i)
  }

  /** The events of a transaction: fresh ids, and versions contiguous above each stream's head. */
  ghost predicate IsBuilt(streams: map<StreamId, seq<FileEvent>>, entries: seq<Event>, ids: seq<Uuid>,
                          events: seq<FileEvent>) {
    IsBuiltTo(streams, entries, ids, events, |entries|)
  }

  function CountOf(added: map<StreamId, nat>, s: StreamId): nat {
    if s in added then added[s] else 0
  }

  method BuildEnvelopes(streams: map<StreamId, seq<FileEvent>>, entries: seq<Event>, ids: seq<Uuid>)
    returns (events: seq<FileEvent>)
    requires |ids| == |entries|
    ensures IsBuilt(streams, entries, ids, events)
  {
    hide Offset;
    events := [];
    var added: map<StreamId, nat> := map[];
    OffsetOf(entries, 0);
    var i := 0;
    while i < |entries|
      invariant 0 <= i <= |entries| && IsBuiltTo(streams, entries, ids, events, i)
      invariant forall s :: CountOf(added, s) == Offset(entries, i, s)
    {
      var key := entries[i].stream;
      OffsetOf(entries, i + 1);
      added := added[key := CountOf(added, key) + 1];
      events := events + [FileEvent(ids[i], key, Head(streams, key) + added[key], entries[i].payload)];
      i := i + 1;
    }
  }

  lemma OffsetOf(entries: seq<Event>, n: nat)
    requires n <= |entries|
    ensures n == 0 ==> forall s :: Offset(entries, n, s) == 0
    ensures n > 0 ==> forall s ::
              Offset(entries, n, s) == Offset(entries, n - 1, s) + (if entries[n - 1].stream == s then 1 else 0)
  {
  }

  /** The versions written into the files are the events' places in their streams. */
  lemma {:induction false} BuiltVersions(streams: map<StreamId, seq<FileEvent>>, entries: seq<Event>, ids: seq<Uuid>,
                                         events: seq<FileEvent>, n: nat, s: StreamId)
    requires IsBuilt(streams, entries, ids, events) && n <= |events|
    ensures |Of(events[..n], s)| == Offset(entries, n, s)
    ensures forall k :: 0 <= k < |Of(events[..n], s)| ==> Of(events[..n], s)[k].version == Head(streams, s) + k + 1
    decreases n
  {
    if n > 0 {
      BuiltVersions(streams, entries, ids, events, n - 1, s);
      assert events[..n][..n - 1] == events[..n - 1];
      assert events[n - 1] == Envelope(streams, entries, ids, n - 1);
    }
  }

  /** Fresh event ids: pairwise distinct and unknown to the history. */
  ghost predicate FreshIds(ids: seq<Uuid>, known: set<Uuid>) {
    (forall i, j :: 0 <= i < j < |ids| ==> ids[i] != ids[j]) && forall id :: id in ids ==> id !in known
  }

  lemma BuiltApart(streams: map<StreamId, seq<FileEvent>>, entries: seq<Event>, ids: seq<Uuid>, events: seq<FileEvent>,
                   known: set<FileEvent>)
    requires IsBuilt(streams, entries, ids, events) && FreshIds(ids, IdsOf(known))
    ensures Apart(events, known)
  {
    forall i | 0 <= i < |events| ensures events[i].id == ids[i] && ids[i] in ids {
      assert events[i] == Envelope(streams, entries, ids, i);
    }
    forall i, d | 0 <= i < |events| && d in known ensures events[i].id != d.id {
      assert d.id in IdsOf(known);
    }
  }

  // ------------------------------------------------------------- the store

  class FileEventStore {
    const replica: Uuid
    const directory: Directory
    const log: IngestionLog
    ghost const rank: Uuid -> nat
    var headers: Files
    var streams: map<StreamId, seq<FileEvent>>
    var byIngestion: seq<Positioned>
    var tips: seq<Uuid>
    /** The canonical order of the directory, and the order in which the streams in memory took
        the transactions in. */
    ghost var order: seq<Uuid>
    ghost var arrived: seq<Uuid>

    ghost function Value(): Index
      reads this, log
    {
      Index(headers, streams, byIngestion, tips, log.numbers, log.next)
    }

    ghost function Now(): Stage
      reads this, log, directory
    {
      Stage(directory.files, directory.entries, Value())
    }

    /** The index in memory is the one a rebuild from the directory would give, except that the
        streams hold the transactions in the order of their arrival. */
    ghost predicate Valid()
      reads this, log, directory
    {
      && IsStage(Now(), rank)
      && IsCanonical(directory.files, rank, order)
      && IsArrangement(directory.files, arrived)
      && GroupsByStream(streams, Flat(directory.files, arrived))
    }

    /** The stream in memory is the one a rebuild would give. */
    ghost predicate StreamMatches(s: StreamId)
      reads this, directory
    {
      StreamIs(streams, Flat(directory.files, order), s)
    }

    ghost predicate MatchesRebuild()
      reads this, directory
    {
      forall s :: StreamMatches(s)
    }

    /** A reopen from the log `kept` would hand out the numbers in memory again. */
    ghost predicate HandsOutAgain(kept: seq<Entry>)
      reads this, directory
    {
      NumberedFrom(kept, directory.files, order, directory.entries)
    }

    /** Scans the directory, numbers every event that has none yet in canonical order, and persists
        the new numbers. */
    constructor Open(directory: Directory, replica: Uuid, ghost rank: Uuid -> nat)
      requires GoodHistory(directory.files, directory.entries, rank)
      modifies directory`entries
      ensures Valid() && MatchesRebuild()
      ensures fresh(log) && this.directory == directory && this.replica == replica && this.rank == rank
      ensures directory.files == old(directory.files) && old(directory.entries) <= directory.entries
      ensures HandsOutAgain(old(directory.entries))
    {
      hide GroupsByStream, IsView, WellLogged, NumberOf, Largest, DistinctEvents, IsArrangement, Flat, IsCanonical,
        Tips, SortedBy, StreamIs, Elements, Ranked, GoodHistory, IsStage, IdsOf, EventsOf;
      GoodHistoryFacts(directory.files, directory.entries, rank);
      this.replica, this.directory, this.rank := replica, directory, rank;
      log := new IngestionLog(directory.entries);
      new;
      headers := directory.files;
      var canonical := Linearize(headers, rank);
      order, arrived := canonical, canonical;
      CanonicalIsArrangement(headers, rank, canonical);
      tips := ComputeTips(headers);
      var entries;
      streams, byIngestion, entries := IndexEvents(headers, canonical, log, directory.entries);
      directory.entries := entries;
      OpenedIsStage(Stage(headers, old(directory.entries), Value()), Now(), rank);
      EachStreamIs(streams, Flat(headers, canonical));
    }

    method FindConflict(expected: map<StreamId, nat>) returns (conflict: Option<StoreError>)
      ensures conflict.None? <==> forall s :: s in expected ==> Head(streams, s) == expected[s]
      ensures conflict.Some? ==>
                && conflict.value.VersionConflict? && conflict.value.stream in expected
                && conflict.value.expected == expected[conflict.value.stream]
                && conflict.value.actual == Head(streams, conflict.value.stream) != conflict.value.expected
    {
      var rest := expected.Keys;
      while rest != {}
        invariant rest <= expected.Keys
        invariant forall s :: s in expected && s !in rest ==> Head(streams, s) == expected[s]
        decreases rest
      {
        var s :| s in rest;
        if Head(streams, s) != expected[s] {
          return Some(VersionConflict(s, expected[s], Head(streams, s)));
        }
        rest := rest - {s};
      }
      return None;
    }

    /** Writes one transaction file whose parents are all the tips, and extends the index in
        place instead of rebuilding it. */
    method AppendEvents(writes: StreamWrites, id: Uuid, createdAt: nat, eventIds: seq<Uuid>)
      returns (r: Result<(), StoreError>)
      requires Valid() && |eventIds| == |writes.entries| && FreshIds(eventIds, log.numbers.Keys)
      requires IsNewId(headers, rank, id)
      modifies this`headers, this`streams, this`byIngestion, this`tips, this`order, this`arrived, log, directory
      ensures Valid() && Follows(old(Now()), Now()) && old(byIngestion) <= byIngestion
      ensures forall kept :: old(HandsOutAgain(kept)) ==> HandsOutAgain(kept)
      ensures forall s :: StreamMatches(s) <==> old(StreamMatches(s))
      ensures r.Ok? <==> writes.entries == [] || forall s :: s in writes.expected ==>
                Head(old(streams), s) == writes.expected[s]
      ensures r.Err? || writes.entries == [] ==> Now() == old(Now())
      ensures r.Ok? && writes.entries != [] ==>
                && id in directory.files && directory.files == old(directory.files)[id := directory.files[id]]
                && directory.files[id].replica == replica && directory.files[id].createdAt == createdAt
                && directory.files[id].parents == old(tips) && directory.files[id].bases == writes.expected
                && IsBuilt(old(streams), writes.entries, eventIds, directory.files[id].events)
                && directory.entries == Extended(old(directory.entries), EventIds(directory.files[id].events))
                && tips == [id] && order == old(order) + [id]
    {
      hide GroupsByStream, StreamIs, IsStage, IsArrangement, Flat, InOrder, IsBuilt, Ranked, NumberedFrom, Extended;
      if writes.entries == [] { return Ok(()); }
      var conflict := FindConflict(writes.expected);
      if conflict.Some? { return Err(conflict.value); }
      var events := BuildEnvelopes(streams, writes.entries, eventIds);
      StageFacts(Now(), rank);
      BuiltApart(streams, writes.entries, eventIds, events, EventsOf(headers));
      Commit(id, Transaction(replica, tips, createdAt, writes.expected, events));
      return Ok(());
    }

    /** Stores the transaction file and extends the index by it. */
    method Commit(id: Uuid, t: Transaction)
      requires Valid() && t.parents == tips && Apart(t.events, EventsOf(headers)) && IsNewId(headers, rank, id)
      modifies this`headers, this`streams, this`byIngestion, this`tips, this`order, this`arrived, log, directory
      ensures Valid() && Follows(old(Now()), Now()) && old(byIngestion) <= byIngestion
      ensures directory.entries == Extended(old(directory.entries), EventIds(t.events))
      ensures forall kept :: old(HandsOutAgain(kept)) ==> HandsOutAgain(kept)
      ensures forall s :: StreamMatches(s) <==> old(StreamMatches(s))
      ensures directory.files == old(directory.files)[id := t] && tips == [id] && order == old(order) + [id]
    {
      hide GroupsByStream, StreamIs, IsStage, NumberedFrom, IsArrangement, Flat, IsCanonical, Ranked, IsView, IdsOf,
        EventsOf, Apart, IsNewId, WellLogged, NumberOf, Largest, Tips, SortedBy, Includes, Extended;
      ghost var before, taken := Now(), streams;
      StageFacts(before, rank);
      IngestAppended(t.events, Flat(headers, arrived), EventsOf(headers));
      GrownLog(before.entries, EventIds(t.events));
      NewTransactionIsLast(before, order, rank, id, t);
      HandsOutNext(before, order, rank, id, t);
      NewIsTaken(before.files, order, arrived, rank, id, t, taken, streams);
      ghost var x := Index(before.files[id := t], streams, byIngestion, [id], log.numbers, log.next);
      StageExtends(before, rank, id, t, Stage(before.files[id := t], directory.entries, x));
      directory.files := directory.files[id := t];
      headers := headers[id := t];
      order, arrived := order + [id], arrived + [id];
      tips := [id];
    }

    /** Writes a transaction whose parents are only a fork's heads.  A stream is afterwards what
        a rebuild would give exactly if it was before and, in case the merge wrote it, nothing
        that sorts after the merge did. */
    method WriteMergeTransaction(heads: seq<Uuid>, items: seq<Event>, id: Uuid, createdAt: nat, eventIds: seq<Uuid>)
      requires Valid() && |eventIds| == |items| && FreshIds(eventIds, log.numbers.Keys)
      requires (forall h :: h in heads ==> h in headers) && IsNewId(headers, rank, id)
      modifies this`headers, this`streams, this`byIngestion, this`tips, this`order, this`arrived, log, directory
      ensures Valid() && Follows(old(Now()), Now()) && old(byIngestion) <= byIngestion
      ensures id in directory.files && directory.files == old(directory.files)[id := directory.files[id]]
      ensures directory.files[id].parents == heads && directory.files[id].replica == replica
      ensures directory.files[id].createdAt == createdAt
      ensures IsBuilt(old(streams), items, eventIds, directory.files[id].events)
      ensures AreHeads(directory.files[id].bases, old(streams), items)
      ensures directory.entries == Extended(old(directory.entries), EventIds(directory.files[id].events))
      ensures forall s :: StreamMatches(s) <==>
                old(StreamMatches(s)) && (Wrote(directory.files[id], s) ==> !LaterWriter(directory.files, order, id, s))
    {
      hide GroupsByStream, StreamIs, IsStage, IsArrangement, Flat, InOrder, IsBuilt, Ranked, LaterWriter, Of, Extended;
      var bases := HeadsOf(items);
      var events := BuildEnvelopes(streams, items, eventIds);
      StageFacts(Now(), rank);
      BuiltApart(streams, items, eventIds, events, EventsOf(headers));
      CommitMerge(id, Transaction(replica, heads, createdAt, bases, events));
    }

    /** The present head of every stream that an item is for. */
    method HeadsOf(items: seq<Event>) returns (bases: map<StreamId, nat>)
      ensures AreHeads(bases, streams, items)
    {
      bases := map[];
      var i := 0;
      while i < |items|
        invariant 0 <= i <= |items| && AreHeads(bases, streams, items[..i])
      {
        assert items[..i + 1] == items[..i] + [items[i]];
        if items[i].stream !in bases {
          bases := bases[items[i].stream := Head(streams, items[i].stream)];
        }
        i := i + 1;
      }
      assert items[..i] == items;
    }

    method CommitMerge(id: Uuid, t: Transaction)
      requires Valid() && Apart(t.events, EventsOf(headers)) && IsNewId(headers, rank, id)
      requires forall h :: h in t.parents ==> h in headers
      modifies this`headers, this`streams, this`byIngestion, this`tips, this`order, this`arrived, log, directory
      ensures Valid() && Follows(old(Now()), Now()) && old(byIngestion) <= byIngestion
      ensures directory.entries == Extended(old(directory.entries), EventIds(t.events))
      ensures directory.files == old(directory.files)[id := t]
      ensures forall s :: StreamMatches(s) <==>
                old(StreamMatches(s)) && (Wrote(t, s) ==> !LaterWriter(directory.files, order, id, s))
    {
      hide GroupsByStream, StreamIs, IsStage, IsArrangement, Flat, IsCanonical, Ranked, IsView, IdsOf, EventsOf, Apart,
        IsNewId, WellLogged, NumberOf, Largest, Tips, SortedBy, LaterWriter, Of, Includes, Extended;
      ghost var before, taken := Now(), streams;
      StageFacts(before, rank);
      IngestAppended(t.events, Flat(headers, arrived), EventsOf(headers));
      GrownLog(before.entries, EventIds(t.events));
      directory.files := directory.files[id := t];
      headers := headers[id := t];
      tips := ComputeTips(headers);
      ghost var order' := MergeIsTaken(before.files, order, arrived, rank, id, t, taken, streams);
      StageExtends(before, rank, id, t, Now());
      order, arrived := order', arrived + [id];
    }

    /** Pushes new events onto their streams and onto the end of the ingestion view. */
    method IngestAppended(events: seq<FileEvent>, ghost done: seq<FileEvent>, ghost seen: set<FileEvent>)
      requires log.Holds(directory.entries) && GroupsByStream(streams, done) && IsView(byIngestion, seen, log.numbers)
      requires log.numbers.Keys == IdsOf(seen) && Apart(events, seen)
      modifies this`streams, this`byIngestion, log, directory`entries
      ensures log.Holds(directory.entries) && GroupsByStream(streams, done + events)
      ensures IsView(byIngestion, seen + Elements(events), log.numbers)
                && log.numbers.Keys == IdsOf(seen + Elements(events))
      ensures old(byIngestion) <= byIngestion && directory.entries == Extended(old(directory.entries), EventIds(events))
    {
      hide GroupsByStream, IsView, WellLogged, NumberOf, Largest, IdsOf, Apart, Extended;
      ExtendedLargest(directory.entries, []);
      var entries := directory.entries;
      var k := 0;
      assert done + events[..0] == done && seen + Elements(events[..0]) == seen && EventIds(events[..0]) == [];
      while k < |events|
        invariant 0 <= k <= |events| && log.Holds(entries)
                    && entries == Extended(old(directory.entries), EventIds(events[..k]))
        invariant GroupsByStream(streams, done + events[..k])
                    && IsView(byIngestion, seen + Elements(events[..k]), log.numbers)
        invariant log.numbers.Keys == IdsOf(seen + Elements(events[..k])) && old(byIngestion) <= byIngestion
      {
        NextIsApart(events, done, seen, k);
        var entry := IngestOne(events[k], done + events[..k], seen + Elements(events[..k]), entries);
        ExtendedOnce(old(directory.entries), EventIds(events[..k]), events[k].id);
        assert EventIds(events[..k + 1]) == EventIds(events[..k]) + [events[k].id];
        entries := entries + [entry];
        k := k + 1;
      }
      assert events[..k] == events;
      directory.entries := entries;
    }

    method IngestOne(e: FileEvent, ghost done: seq<FileEvent>, ghost seen: set<FileEvent>, ghost entries: seq<Entry>)
      returns (entry: Entry)
      requires log.Holds(entries) && GroupsByStream(streams, done) && IsView(byIngestion, seen, log.numbers)
      requires log.numbers.Keys == IdsOf(seen) && e.id !in IdsOf(seen)
      modifies this`streams, this`byIngestion, log
      ensures log.Holds(entries + [entry])
      ensures GroupsByStream(streams, done + [e]) && IsView(byIngestion, seen + {e}, log.numbers)
      ensures log.numbers.Keys == IdsOf(seen + {e}) && old(byIngestion) <= byIngestion
      ensures entry == Entry(e.id, Largest(entries) + 1)
    {
      hide GroupsByStream, IsView, WellLogged, NumberOf, Largest, AddToStream;
      GroupsOneMore(streams, done, e);
      streams := AddToStream(streams, e);
      ghost var before, view := log.numbers, byIngestion;
      LoggedNumbers(entries);
      var number := log.Allocate(e.id, entries);
      entry := Entry(e.id, number);
      LogSnoc(entries, entry);
      byIngestion := byIngestion + [Positioned(number, e)];
      AppendedSorted(view, seen, before, Positioned(number, e));
      ViewOneMore(view, byIngestion, seen, e, before, log.numbers);
    }
  }

  ghost predicate AreHeads(bases: map<StreamId, nat>, streams: map<StreamId, seq<FileEvent>>, items: seq<Event>) {
    forall s ::
        (s in bases <==> exists e :: e in items && e.stream == s) && (s in bases ==> bases[s] == Head(streams, s))
  }

  /** Another replica's files are merged into the directory and the store is opened again: its
      cursor view is the old one with whatever is new at the end, and the streams are again
      those of a rebuild. */
  method MergeAndReopen(store: FileEventStore, others: Files) returns (reopened: FileEventStore)
    requires store.Valid()
    requires Ranked(others + store.directory.files, store.rank) && DistinctEvents(others + store.directory.files)
    modifies store.directory
    ensures reopened.Valid() && reopened.MatchesRebuild()
    ensures reopened.directory == store.directory && reopened.replica == store.replica && reopened.rank == store.rank
    ensures store.directory.files == others + old(store.directory.files)
    ensures Follows(old(store.Now()), reopened.Now()) && old(store.byIngestion) <= reopened.byIngestion
  {
    hide IsArrangement, GroupsByStream, IsView, IdsOf, EventsOf, NumberOf, Largest, WellLogged, Tips, SortedBy,
      DistinctEvents, InOrder, Flat;
    ghost var before := store.Now();
    store.directory.Union(others);
    EventsGrow(before.files, store.directory.files);
    IdsGrow(EventsOf(before.files), EventsOf(store.directory.files));
    reopened := new FileEventStore.Open(store.directory, store.replica, store.rank);
    StagesGrow(before, reopened.Now(), store.rank);
  }

  lemma IdsGrow(a: set<FileEvent>, b: set<FileEvent>)
    requires a <= b
    ensures IdsOf(a) <= IdsOf(b)
  {
  }

  /** What a later stage shows its readers extends what an earlier one did. */
  lemma StagesGrow(a: Stage, b: Stage, rank: Uuid -> nat)
    requires IsStage(a, rank) && IsStage(b, rank) && Follows(a, b)
    ensures a.index.byIngestion <= b.index.byIngestion
  {
    ViewGrowsIffLogDoes(a.files, b.files, a.entries, b.entries, rank, a.index, b.index);
  }

  // ------------------------------------------------------------- a log that was not persisted

  lemma GrownLog(entries: seq<Entry>, ids: seq<Uuid>)
    ensures entries <= Extended(entries, ids)
  {
  }

  /** After an append a reopen from an earlier log hands out the numbers in memory if it did
      before: the new transaction is last in canonical order. */
  lemma HandsOutNext(s: Stage, order: seq<Uuid>, rank: Uuid -> nat, id: Uuid, t: Transaction)
    requires IsStage(s, rank) && IsCanonical(s.files, rank, order) && id !in s.files
               && Apart(t.events, EventsOf(s.files))
    ensures forall kept :: NumberedFrom(kept, s.files, order, s.entries) ==>
              NumberedFrom(kept, s.files[id := t], order + [id], Extended(s.entries, EventIds(t.events)))
  {
    hide Flat, Unlogged, Extended, WellLogged, NumberOf, Largest, IsView, Tips, SortedBy, InOrder, DistinctEvents;
    StageFacts(s, rank);
    CanonicalIsArrangement(s.files, rank, order);
    ArrangementHolds(s.files, order);
    FlatNew(s.files, order, id, t);
    forall kept | NumberedFrom(kept, s.files, order, s.entries)
      ensures Extended(s.entries, EventIds(t.events))
                  == Extended(kept, Unlogged(Flat(s.files[id := t], order + [id]), Logged(kept))) {
      var earlier := Unlogged(Flat(s.files, order), Logged(kept));
      KeptIsLogged(kept, earlier);
      NewIdsAreUnknown(t.events, EventsOf(s.files));
      UnloggedNew(Flat(s.files, order), t.events, Logged(kept));
      ExtendedTwice(kept, earlier, EventIds(t.events));
    }
  }

  lemma NewIdsAreUnknown(events: seq<FileEvent>, seen: set<FileEvent>)
    requires Apart(events, seen)
    ensures forall i :: 0 <= i < |events| ==> events[i].id !in IdsOf(seen)
  {
  }

  lemma {:induction false} KeptIsLogged(entries: seq<Entry>, ids: seq<Uuid>)
    ensures Logged(entries) <= Logged(Extended(entries, ids))
    decreases |ids|
  {
    ExtendedLargest(entries, []);
    if ids != [] {
      var before := ids[..|ids| - 1];
      KeptIsLogged(entries, before);
      assert ids == before + [ids[|ids| - 1]];
      ExtendedOnce(entries, before, ids[|ids| - 1]);
      LogSnoc(Extended(entries, before), Entry(ids[|ids| - 1], Largest(Extended(entries, before)) + 1));
    }
  }

  /** What is left of a sequence when some members are missing. */
  predicate Subsequence<T(==)>(part: seq<T>, all: seq<T>) {
    if part == [] then true
    else if all == [] then false
    else if part[|part| - 1] == all[|all| - 1] then Subsequence(part[..|part| - 1], all[..|all| - 1])
    else Subsequence(part, all[..|all| - 1])
  }

  lemma {:induction false} SubsequenceIsLogged(kept: seq<Entry>, entries: seq<Entry>)
    requires WellLogged(entries) && Subsequence(kept, entries)
    ensures WellLogged(kept) && Logged(kept) <= Logged(entries) && Largest(kept) <= Largest(entries)
              && |kept| <= |entries|
    decreases |entries|
  {
    if kept != [] {
      var before, last := entries[..|entries| - 1], entries[|entries| - 1];
      assert entries == before + [last];
      LogSnoc(before, last);
      if kept[|kept| - 1] == last {
        assert kept == kept[..|kept| - 1] + [last];
        SubsequenceIsLogged(kept[..|kept| - 1], before);
        LogSnoc(kept[..|kept| - 1], last);
      } else {
        SubsequenceIsLogged(kept, before);
      }
    }
  }

  function Named(entries: seq<Entry>): (ids: seq<Uuid>)
    ensures |ids| == |entries| && forall i :: 0 <= i < |entries| ==> ids[i] == entries[i].event
  {
    seq(|entries|, i requires 0 <= i < |entries| => entries[i].event)
  }

  /** The numbers that a reopen hands out beyond `kept` are the lost ones again: nothing was kept
      beyond a number that was lost, and the events without a number, in canonical order, begin
      with those that had lost theirs, in the order of their numbers. */
  predicate NothingMoves(kept: seq<Entry>, entries: seq<Entry>, unlogged: seq<Uuid>) {
    kept <= entries && Named(entries[|kept|..]) <= unlogged
  }

  /** The log in memory held `loaded` when the store was opened and has named `handed` since.
      Some of that was persisted, so that a reopen starts from `kept`. */
  lemma LogGrowsIff(loaded: seq<Entry>, handed: seq<Uuid>, kept: seq<Entry>, unlogged: seq<Uuid>)
    requires loaded <= kept && |kept| <= |loaded| + |handed|
    ensures Extended(loaded, handed) <= Extended(kept, unlogged) <==>
              NothingMoves(kept, Extended(loaded, handed), unlogged)
  {
    hide Largest;
    var entries, again := Extended(loaded, handed), Extended(kept, unlogged);
    if kept <= entries {
      var n := |kept| - |loaded|;
      assert kept == Extended(loaded, handed[..n]);
      ExtendedLargest(loaded, handed[..n]);
      if Named(entries[|kept|..]) <= unlogged {
        forall i | 0 <= i < |entries| ensures i < |again| && again[i] == entries[i] {
          if i >= |kept| { assert Named(entries[|kept|..])[i - |kept|] == unlogged[i - |kept|]; }
        }
      }
    }
    if entries <= again {
      assert kept == again[..|kept|] == entries[..|kept|];
      forall i | 0 <= i < |entries| - |kept| ensures i < |unlogged| && Named(entries[|kept|..])[i] == unlogged[i] {
        assert entries[|kept| + i] == again[|kept| + i];
      }
    }
  }

  /** The store goes down when only `kept` of its log is on disk, another replica's files are
      merged in, and it is opened again.  Readers find what they saw, with whatever is new at
      the end, exactly if no number moves. */
  method ReopenFrom(store: FileEventStore, kept: seq<Entry>, others: Files, ghost loaded: seq<Entry>,
                    ghost handed: seq<Uuid>)
    returns (reopened: FileEventStore)
    requires store.Valid() && store.directory.entries == Extended(loaded, handed)
    requires loaded <= kept && Subsequence(kept, store.directory.entries)
    requires Ranked(others + store.directory.files, store.rank) && DistinctEvents(others + store.directory.files)
    modifies store.directory
    ensures reopened.Valid() && reopened.MatchesRebuild() && reopened.HandsOutAgain(kept)
    ensures reopened.directory == store.directory && reopened.replica == store.replica && reopened.rank == store.rank
    ensures store.directory.files == others + old(store.directory.files)
    ensures old(store.byIngestion) <= reopened.byIngestion <==>
              NothingMoves(kept, old(store.directory.entries),
                           Unlogged(Flat(store.directory.files, reopened.order), Logged(kept)))
    ensures others == map[] && old(store.HandsOutAgain(kept)) ==> reopened.byIngestion == old(store.byIngestion)
  {
    hide IsArrangement, GroupsByStream, IsView, IdsOf, EventsOf, NumberOf, Largest, WellLogged, Tips, SortedBy,
      DistinctEvents, InOrder, Flat, Subsequence, NothingMoves, Extended;
    ghost var before, canonical := store.Now(), store.order;
    StageFacts(before, store.rank);
    SubsequenceIsLogged(kept, before.entries);
    store.directory.Union(others);
    store.directory.entries := kept;
    EventsGrow(before.files, store.directory.files);
    IdsGrow(EventsOf(before.files), EventsOf(store.directory.files));
    reopened := new FileEventStore.Open(store.directory, store.replica, store.rank);
    ReopenedGrowsIff(before, reopened.Now(), store.rank, kept, loaded, handed, reopened.order);
    if others == map[] && NumberedFrom(kept, before.files, canonical, before.entries) {
      assert others + before.files == before.files;
      SameAgain(before, reopened.Now(), store.rank, kept, canonical, reopened.order);
    }
  }

  lemma ReopenedGrowsIff(a: Stage, b: Stage, rank: Uuid -> nat, kept: seq<Entry>, loaded: seq<Entry>, handed: seq<Uuid>,
                         order: seq<Uuid>)
    requires IsStage(a, rank) && IsStage(b, rank) && Includes(b.files, a.files)
               && NumberedFrom(kept, b.files, order, b.entries)
    requires a.entries == Extended(loaded, handed) && loaded <= kept && |kept| <= |a.entries|
    ensures a.index.byIngestion <= b.index.byIngestion <==>
              NothingMoves(kept, a.entries, Unlogged(Flat(b.files, order), Logged(kept)))
  {
    hide IsIndexButStreams, Unlogged, Flat, Largest, NothingMoves;
    ViewGrowsIffLogDoes(a.files, b.files, a.entries, b.entries, rank, a.index, b.index);
    LogGrowsIff(loaded, handed, kept, Unlogged(Flat(b.files, order), Logged(kept)));
  }

  lemma SameAgain(a: Stage, b: Stage, rank: Uuid -> nat, kept: seq<Entry>, order: seq<Uuid>, order': seq<Uuid>)
    requires IsStage(a, rank) && IsStage(b, rank) && b.files == a.files
    requires IsCanonical(a.files, rank, order) && IsCanonical(a.files, rank, order')
    requires NumberedFrom(kept, a.files, order, a.entries) && NumberedFrom(kept, b.files, order', b.entries)
    ensures b.index.byIngestion == a.index.byIngestion
  {
    hide Unlogged, Flat, Largest, InOrder, IsView;
    CanonicalIsUnique(a.files, rank, order, order');
    ViewGrowsIffLogDoes(a.files, b.files, a.entries, b.entries, rank, a.index, b.index);
    ViewGrowsIffLogDoes(b.files, a.files, b.entries, a.entries, rank, b.index, a.index);
  }

  /** From a log that was persisted in full a reopen hands out nothing new; appends from then on
      add only what it would hand out again. */
  lemma PersistedHandsOutAgain(s: Stage, rank: Uuid -> nat, order: seq<Uuid>)
    requires IsStage(s, rank) && IsCanonical(s.files, rank, order)
    ensures NumberedFrom(s.entries, s.files, order, s.entries)
  {
    hide Flat, InOrder, WellLogged, NumberOf, Largest, IsView, Tips, SortedBy, DistinctEvents, Unlogged, Extended;
    StageFacts(s, rank);
    CanonicalIsArrangement(s.files, rank, order);
    FlatIsAll(s.files, order);
    forall e | e in Flat(s.files, order) ensures e.id in Logged(s.entries) {
      assert e in Elements(Flat(s.files, order));
    }
    NothingUnlogged(Flat(s.files, order), Logged(s.entries));
    ExtendedLargest(s.entries, []);
  }

  // ------------------------------------------------------------- one step of the index

  lemma EachStreamIs(streams: map<StreamId, seq<FileEvent>>, events: seq<FileEvent>)
    requires GroupsByStream(streams, events)
    ensures forall s :: StreamIs(streams, events, s)
  {
  }

  lemma GoodHistoryFacts(files: Files, entries: seq<Entry>, rank: Uuid -> nat)
    requires GoodHistory(files, entries, rank)
    ensures Ranked(files, rank) && WellLogged(entries) && DistinctEvents(files)
  {
  }

  lemma OpenedIsStage(a: Stage, b: Stage, rank: Uuid -> nat)
    requires GoodHistory(a.files, a.entries, rank) && b.files == a.files == b.index.headers && WellLogged(b.entries)
    requires b.index.numbers == NumberOf(b.entries) && b.index.next == Largest(b.entries) + 1
    requires SortedBy(b.index.tips, Itself) && Elements(b.index.tips) == Tips(b.files)
    requires IsView(b.index.byIngestion, EventsOf(b.files), b.index.numbers)
    requires b.index.numbers.Keys == NumberOf(a.entries).Keys + IdsOf(EventsOf(b.files))
    ensures IsStage(b, rank)
  {
  }

  lemma StageFacts(s: Stage, rank: Uuid -> nat)
    requires IsStage(s, rank)
    ensures Ranked(s.files, rank) && s.index.headers == s.files && WellLogged(s.entries)
    ensures s.index.numbers == NumberOf(s.entries) && s.index.next == Largest(s.entries) + 1
    ensures s.index.numbers.Keys == IdsOf(EventsOf(s.files))
              && IsView(s.index.byIngestion, EventsOf(s.files), s.index.numbers)
    ensures Elements(s.index.tips) == Tips(s.files)
  {
  }

  lemma NextIsApart(events: seq<FileEvent>, done: seq<FileEvent>, seen: set<FileEvent>, k: nat)
    requires Apart(events, seen) && k < |events|
    ensures events[k].id !in IdsOf(seen + Elements(events[..k]))
    ensures done + events[..k] + [events[k]] == done + events[..k + 1]
    ensures seen + Elements(events[..k]) + {events[k]} == seen + Elements(events[..k + 1])
  {
    assert events[..k + 1] == events[..k] + [events[k]];
  }

  lemma StageExtends(a: Stage, rank: Uuid -> nat, id: Uuid, t: Transaction, b: Stage)
    requires IsStage(a, rank) && IsNewId(a.files, rank, id) && Apart(t.events, EventsOf(a.files))
    requires forall p :: p in t.parents ==> p in a.files
    requires b.files == a.files[id := t] == b.index.headers && WellLogged(b.entries)
    requires b.index.numbers == NumberOf(b.entries) && b.index.next == Largest(b.entries) + 1
    requires SortedBy(b.index.tips, Itself) && Elements(b.index.tips) == Tips(b.files)
    requires IsView(b.index.byIngestion, EventsOf(a.files) + Elements(t.events), b.index.numbers)
    requires b.index.numbers.Keys == IdsOf(EventsOf(a.files) + Elements(t.events))
    ensures IsStage(b, rank) && Includes(b.files, a.files)
  {
    hide IsView, IdsOf, EventsOf, Apart, Tips, SortedBy, DistinctEvents, IsIndexButStreams;
    IndexExtends(a.files, a.entries, rank, a.index, id, t, b.entries, b.index);
  }

  lemma NewIsRanked(files: Files, rank: Uuid -> nat, id: Uuid, t: Transaction)
    requires Ranked(files, rank) && IsNewId(files, rank, id) && forall p :: p in t.parents ==> p in files
    ensures Ranked(files[id := t], rank)
    ensures id !in files && forall c :: c in files ==> id !in files[c].parents
  {
  }

  /** A transaction below all tips is last in the canonical order and becomes the only tip. */
  lemma NewTransactionIsLast(a: Stage, order: seq<Uuid>, rank: Uuid -> nat, id: Uuid, t: Transaction)
    requires IsStage(a, rank) && IsCanonical(a.files, rank, order) && IsNewId(a.files, rank, id)
               && t.parents == a.index.tips
    ensures id !in a.files && forall p :: p in t.parents ==> p in a.files
    ensures Ranked(a.files[id := t], rank) && IsCanonical(a.files[id := t], rank, order + [id])
    ensures SortedBy([id], Itself) && Elements([id]) == Tips(a.files[id := t])
  {
    hide IsIndexButStreams, InOrder;
    StageFacts(a, rank);
    forall p | p in t.parents ensures p in a.files { assert p in Elements(t.parents); }
    NewIsRanked(a.files, rank, id, t);
    NewHeadIsDeepest(a.files, rank, id, t);
    NewHeadIsLast(a.files, rank, id, t, order);
    assert Elements([id]) == {id};
  }

  lemma NewIsTaken(files: Files, order: seq<Uuid>, arrived: seq<Uuid>, rank: Uuid -> nat, id: Uuid, t: Transaction,
                   streams: map<StreamId, seq<FileEvent>>, streams': map<StreamId, seq<FileEvent>>)
    requires Ranked(files, rank) && IsCanonical(files, rank, order) && IsArrangement(files, arrived) && id !in files
    requires GroupsByStream(streams, Flat(files, arrived)) && GroupsByStream(streams', Flat(files, arrived) + t.events)
    ensures IsArrangement(files[id := t], arrived + [id])
              && GroupsByStream(streams', Flat(files[id := t], arrived + [id]))
    ensures forall s :: StreamIs(streams', Flat(files[id := t], order + [id]), s) <==>
              StreamIs(streams, Flat(files, order), s)
  {
    hide GroupsByStream, StreamIs, IsCanonical, Flat, Of;
    CanonicalIsArrangement(files, rank, order);
    ArrangementSnoc(files, arrived, id, t);
    ArrangementHolds(files, arrived);
    FlatNew(files, arrived, id, t);
    forall s ensures StreamIs(streams', Flat(files[id := t], order + [id]), s) <==>
        StreamIs(streams, Flat(files, order), s) {
      AppendedStreamMatchesIff(files, order, arrived, id, t, s);
      StreamIsIff(streams, Flat(files, arrived), Flat(files, order), s);
      StreamIsIff(streams', Flat(files[id := t], arrived + [id]), Flat(files[id := t], order + [id]), s);
    }
  }

  lemma MergeIsTaken(files: Files, order: seq<Uuid>, arrived: seq<Uuid>, rank: Uuid -> nat, id: Uuid, t: Transaction,
                     streams: map<StreamId, seq<FileEvent>>, streams': map<StreamId, seq<FileEvent>>)
    returns (order': seq<Uuid>)
    requires Ranked(files, rank) && IsCanonical(files, rank, order) && IsArrangement(files, arrived)
    requires IsNewId(files, rank, id) && forall p :: p in t.parents ==> p in files
    requires Apart(t.events, EventsOf(files))
    requires GroupsByStream(streams, Flat(files, arrived)) && GroupsByStream(streams', Flat(files, arrived) + t.events)
    ensures Ranked(files[id := t], rank) && IsCanonical(files[id := t], rank, order')
    ensures IsArrangement(files[id := t], arrived + [id])
              && GroupsByStream(streams', Flat(files[id := t], arrived + [id]))
    ensures forall s :: StreamIs(streams', Flat(files[id := t], order'), s) <==>
              StreamIs(streams, Flat(files, order), s) && (Wrote(t, s) ==> !LaterWriter(files[id := t], order', id, s))
  {
    hide GroupsByStream, StreamIs, IsCanonical, Flat, Of, LaterWriter, Apart, EventsOf;
    NewIsRanked(files, rank, id, t);
    var k := InsertedInOrder(files, rank, order, id, t);
    order' := order[..k] + [id] + order[k..];
    ArrangementSnoc(files, arrived, id, t);
    ArrangementHolds(files, arrived);
    FlatNew(files, arrived, id, t);
    forall s
      ensures StreamIs(streams', Flat(files[id := t], order'), s) <==>
              StreamIs(streams, Flat(files, order), s) && (Wrote(t, s) ==> !LaterWriter(files[id := t], order', id, s))
    {
      MergedStreamMatchesIff(files, rank, order, order', arrived, id, t, s);
      StreamIsIff(streams, Flat(files, arrived), Flat(files, order), s);
      StreamIsIff(streams', Flat(files[id := t], arrived + [id]), Flat(files[id := t], order'), s);
    }
  }
}
