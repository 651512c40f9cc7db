/** Two short lives of a store whose ingestion log was not persisted in full: after the reopen
    readers do not find what they saw. */
module LostNumbers {
  import opened Streams
  import opened Writes
  import opened TransactionGraph
  import opened FileIndex
  import opened FileStore

  function OneEvent(replica: Uuid, parents: seq<Uuid>, createdAt: nat, base: nat, event: Uuid,
                    p: Payload): Transaction {
    Transaction(replica, parents, createdAt, map["s" := base], [FileEvent(event, "s", base + 1, p)])
  }

  /** Opens an empty directory. */
  method OpenEmpty() returns (store: FileEventStore)
    ensures store.Valid() && store.MatchesRebuild() && store.rank == Itself && store.replica == 1
    ensures fresh(store) && fresh(store.log) && fresh(store.directory)
    ensures store.Now().files == map[] && store.Now().entries == [] && store.order == [] && store.tips == []
  {
    hide StreamIs, GroupsByStream, IsIndexButStreams;
    var directory := new Directory();
    EmptyIsGood();
    store := new FileEventStore.Open(directory, 1, Itself);
    StageFacts(store.Now(), Itself);
    NoElements(store.order);
    NoElements(store.tips);
    ExtendedLargest([], []);
  }

  lemma EmptyIsGood()
    ensures GoodHistory(map[], [], Itself) && Tips(map[]) == {} && IdsOf(EventsOf(map[])) == {}
  {
  }

  lemma NoElements<T>(s: seq<T>)
    ensures Elements(s) == {} ==> s == []
  {
    if s != [] { assert s[0] in Elements(s); }
  }

  /** Appends one event to the stream. */
  method AppendOne(store: FileEventStore, base: nat, id: Uuid, createdAt: nat, event: Uuid, p: Payload)
    requires store.Valid() && store.MatchesRebuild() && store.rank == Itself
    requires IsNewId(store.directory.files, Itself, id)
    requires event !in Logged(store.directory.entries)
    requires |Of(Flat(store.directory.files, store.order), "s")| == base
    modifies store, store.log, store.directory
    ensures store.Valid() && store.MatchesRebuild() && store.order == old(store.order) + [id] && store.tips == [id]
    ensures store.directory.files ==
              old(store.directory.files)[id := OneEvent(store.replica, old(store.tips), createdAt, base, event, p)]
    ensures store.directory.entries == Extended(old(store.directory.entries), [event])
  {
    hide GroupsByStream, IsIndexButStreams, Flat, Of, WellLogged, NumberOf, Largest, Extended, NumberedFrom,
      IsArrangement, InOrder, IsStage, StreamIs, IsBuilt, IsNewId, Follows, IsView, Tips, EventsOf, Ranked;
    StageFacts(store.Now(), Itself);
    ghost var streams := store.streams;
    assert store.StreamMatches("s");
    HeadOfStream(streams, Flat(store.directory.files, store.order));
    var write := StreamWrites([Event("s", p)], map["s" := base]);
    var r := store.AppendEvents(write, id, createdAt, [event]);
    BuiltOne(streams, p, event, store.directory.files[id].events);
    assert EventIds(store.directory.files[id].events) == [event];
    forall s ensures store.StreamMatches(s) {
      assert old(store.StreamMatches(s));
    }
  }

  lemma HeadOfStream(streams: map<StreamId, seq<FileEvent>>, events: seq<FileEvent>)
    requires StreamIs(streams, events, "s")
    ensures Head(streams, "s") == |Of(events, "s")|
  {
  }

  lemma BuiltOne(streams: map<StreamId, seq<FileEvent>>, p: Payload, event: Uuid, events: seq<FileEvent>)
    requires IsBuilt(streams, [Event("s", p)], [event], events)
    ensures events == [FileEvent(event, "s", Head(streams, "s") + 1, p)]
  {
    assert events[0] == Envelope(streams, [Event("s", p)], [event], 0);
    assert Offset([Event("s", p)], 0, "s") == 0;
  }

  /** One append whose log entry was never persisted, a union with a file that sorts before it,
      and a reopen: the number that readers know it by goes to the other event. */
  method FailedPersistThenUnion(p: Payload, q: Payload) returns (before: seq<Entry>, after: seq<Entry>)
    ensures before == [Entry(20, 1)] && after == [Entry(10, 1), Entry(20, 2)]
  {
    hide GroupsByStream, IsIndexButStreams, Flat, Of, WellLogged, NumberOf, Largest, Extended, Ranked, DistinctEvents,
      InOrder, Subsequence, Unlogged, NothingMoves, Shown, IsArrangement, IsStage, IsNewId, StreamIs;
    var store := OpenEmpty();
    NothingThere();
    AppendOne(store, 0, 2, 7, 20, p);
    assert store.directory.files == map[2 := OneEvent(1, [], 7, 0, 20, p)];
    ghost var x, y := OneEvent(1, [], 7, 0, 20, p), OneEvent(2, [], 3, 0, 10, q);
    before := Readers(store);
    Numbers();
    TwoRoots(y, x);
    var reopened := ReopenFrom(store, [], map[1 := OneEvent(2, [], 3, 0, 10, q)], [], [20]);
    CanonicalIsUnique(reopened.directory.files, Itself, reopened.order, [1, 2]);
    after := Readers(reopened);
  }

  /** Two appends of which only the second could persist its log entry, and a reopen: the first
      event gets a number above the second. */
  method FailedPersistThenAppend(p: Payload, q: Payload) returns (before: seq<Entry>, after: seq<Entry>)
    ensures before == [Entry(20, 1), Entry(30, 2)] && after == [Entry(30, 2), Entry(20, 3)]
  {
    hide GroupsByStream, IsIndexButStreams, Flat, Of, WellLogged, NumberOf, Largest, Extended, Ranked, DistinctEvents,
      InOrder, Subsequence, Unlogged, NothingMoves, Shown, IsArrangement, IsStage, IsNewId, StreamIs;
    var store := AppendTwo(p, q);
    before := Readers(store);
    Numbers();
    ghost var x, y := OneEvent(1, [], 7, 0, 20, p), OneEvent(1, [2], 8, 1, 30, q);
    ChainOfTwo(x, y);
    ghost var order := store.order;
    assert map[] + store.directory.files == store.directory.files;
    var reopened := ReopenFrom(store, [Entry(30, 2)], map[], [], [20, 30]);
    CanonicalIsUnique(reopened.directory.files, Itself, reopened.order, order);
    after := Readers(reopened);
  }

  method AppendTwo(p: Payload, q: Payload) returns (store: FileEventStore)
    ensures fresh(store) && fresh(store.log) && fresh(store.directory) && store.Valid() && store.rank == Itself
    ensures store.directory.files == map[2 := OneEvent(1, [], 7, 0, 20, p), 3 := OneEvent(1, [2], 8, 1, 30, q)]
    ensures store.directory.entries == [Entry(20, 1), Entry(30, 2)] && store.order == [2, 3]
  {
    hide GroupsByStream, IsIndexButStreams, Flat, Of, WellLogged, NumberOf, Largest, Extended, Ranked, DistinctEvents,
      InOrder, Subsequence, Unlogged, NothingMoves, Shown, IsArrangement, IsStage, IsNewId, StreamIs;
    store := OpenEmpty();
    NothingThere();
    Numbers();
    ghost var x := OneEvent(1, [], 7, 0, 20, p);
    AppendOne(store, 0, 2, 7, 20, p);
    assert store.directory.files == map[2 := x] && store.order == [2];
    FirstIsThere(x);
    AppendOne(store, 1, 3, 8, 30, q);
    assert store.order == [2, 3];
  }

  /** What readers of the store see. */
  method Readers(store: FileEventStore) returns (shown: seq<Entry>)
    requires store.Valid()
    ensures shown == store.directory.entries
  {
    IndexIsLog(store.directory.files, store.directory.entries, store.rank, store.Value());
    shown := Shown(store.byIngestion);
  }

  lemma NothingThere()
    ensures Of(Flat(map[], []), "s") == [] && Logged([]) == {} && IsNewId(map[], Itself, 2)
  {
  }

  lemma Numbers()
    ensures Extended([], [20]) == [Entry(20, 1)] && Extended([], [10, 20]) == [Entry(10, 1), Entry(20, 2)]
    ensures Extended([Entry(20, 1)], [30]) == Extended([], [20, 30]) == [Entry(20, 1), Entry(30, 2)]
    ensures Extended([Entry(30, 2)], [20]) == [Entry(30, 2), Entry(20, 3)]
    ensures Subsequence<Entry>([], [Entry(20, 1)]) && Subsequence([Entry(30, 2)], [Entry(20, 1), Entry(30, 2)])
    ensures Logged([Entry(20, 1)]) == {20} && Logged([Entry(30, 2)]) == {30}
  {
    assert Largest([]) == 0;
    LogSnoc([], Entry(20, 1));
    LogSnoc([], Entry(30, 2));
    assert [] + [Entry(20, 1)] == [Entry(20, 1)] && [] + [Entry(30, 2)] == [Entry(30, 2)];
  }

  lemma FlatOfTwo(files: Files, a: Uuid, b: Uuid)
    requires a in files && b in files && |files[a].events| == |files[b].events| == 1
    ensures Flat(files, [a]) == files[a].events && Flat(files, [a, b]) == [files[a].events[0], files[b].events[0]]
  {
    assert [a, b][..1] == [a] && [a][..0] == [];
  }

  lemma UnloggedOfTwo(d: FileEvent, e: FileEvent, known: set<Uuid>)
    requires d.id !in known
    ensures Unlogged([d, e], known) == if e.id in known then [d.id] else [d.id, e.id]
  {
    assert [] + [d] == [d] && [d] + [e] == [d, e];
    UnloggedSnoc([], d, known);
    UnloggedSnoc([d], e, known);
  }

  lemma TwoRoots(y: Transaction, x: Transaction)
    requires y.parents == x.parents == [] && y.createdAt < x.createdAt && |y.events| == |x.events| == 1
    requires y.events[0].id == 10 && x.events[0].id == 20
    ensures var files := map[1 := y] + map[2 := x];
            && Ranked(files, Itself) && DistinctEvents(files) && IsCanonical(files, Itself, [1, 2])
            && Unlogged(Flat(files, [1, 2]), {}) == [10, 20]
  {
    hide Flat, Unlogged;
    var files := map[1 := y] + map[2 := x];
    FlatOfTwo(files, 1, 2);
    UnloggedOfTwo(y.events[0], x.events[0], {});
    assert Ranked(files, Itself);
    assert Depth(files, Itself, 1) == Depth(files, Itself, 2) == 0;
    assert Elements([1, 2]) == {1, 2};
  }

  lemma FirstIsThere(x: Transaction)
    requires |x.events| == 1 && x.events[0].stream == "s" && x.parents == []
    ensures |Of(Flat(map[2 := x], [2]), "s")| == 1 && IsNewId(map[2 := x], Itself, 3)
  {
    assert [2][..0] == [] && x.events[..0] == [];
  }

  lemma ChainOfTwo(x: Transaction, y: Transaction)
    requires x.parents == [] && y.parents == [2] && |x.events| == |y.events| == 1
    requires x.events[0].id == 20 && y.events[0].id == 30
    ensures var files := map[2 := x, 3 := y];
            Ranked(files, Itself) && DistinctEvents(files) && Unlogged(Flat(files, [2, 3]), {30}) == [20]
  {
    hide Flat, Unlogged;
    var files := map[2 := x, 3 := y];
    FlatOfTwo(files, 2, 3);
    UnloggedOfTwo(x.events[0], y.events[0], {30});
  }
}
