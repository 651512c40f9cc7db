/** The in-memory event store: per-stream data with a cached version, a global log and the
    saved command-state snapshots. */
module MemoryStore {
  import opened Streams
  import opened Writes
  import opened Snapshots

  datatype StreamData = StreamData(events: seq<Event>, version: nat)

  function ContentsOf(streams: map<StreamId, StreamData>): Store {
    map id | id in streams :: streams[id].events
  }

  /** `e` reports a stream that was expected at another version than it has. */
  ghost predicate IsConflict(s: Store, expected: map<StreamId, nat>, e: StoreError) {
    && e.VersionConflict?
    && e.stream in expected
    && e.expected == expected[e.stream]
    && e.actual == |Stream(s, e.stream)|
    && e.actual != e.expected
  }

  class InMemoryEventStore {
    var streams: map<StreamId, StreamData>
    var globalLog: seq<Event>
    var snapshots: map<SnapshotId, Snapshot>

    /** Cached versions are stream lengths, and the global log is the same history. */
    ghost predicate Valid()
      reads this
    {
      && (forall id :: id in streams ==> streams[id].version == |streams[id].events|)
      && (forall id :: Stream(Contents(), id) == OnStream(globalLog, id))
    }

    function Contents(): Store
      reads this
    {
      ContentsOf(streams)
    }

    constructor ()
      ensures Valid() && Contents() == map[] && snapshots == map[] && globalLog == []
    {
      streams, globalLog, snapshots := map[], [], map[];
    }

    method ReadStreamEvents(id: StreamId) returns (events: seq<Event>)
      ensures events == Stream(Contents(), id)
    {
      events := if id in streams then streams[id].events else [];
    }

    method ReadStreamAfter(id: StreamId, version: nat) returns (events: seq<Event>)
      ensures version <= |Stream(Contents(), id)| ==>
                Stream(Contents(), id)[..version] + events == Stream(Contents(), id)
      ensures version > |Stream(Contents(), id)| ==> events == []
    {
      if id !in streams {
        events := [];
      } else {
        var all := streams[id].events;
        events := if version <= |all| then all[version..] else [];
      }
    }

    function CurrentVersion(id: StreamId): nat
      reads this
    {
      if id in streams then streams[id].version else 0
    }

    /** Visits the expected versions in whatever order the map yields them. */
    method FindConflict(expected: map<StreamId, nat>) returns (conflict: Option<StoreError>)
      requires Valid()
      ensures conflict.None? <==> VersionsMatch(Contents(), expected)
      ensures conflict.Some? ==> IsConflict(Contents(), expected, conflict.value)
    {
      var rest := expected.Keys;
      while rest != {}
        invariant rest <= expected.Keys
        invariant forall id :: id in expected && id !in rest ==> |Stream(Contents(), id)| == expected[id]
        decreases rest
      {
        var id :| id in rest;
        if CurrentVersion(id) != expected[id] {
          return Some(VersionConflict(id, expected[id], CurrentVersion(id)));
        }
        rest := rest - {id};
      }
      return None;
    }

    /** Compare-and-append.  A batch is stored whole exactly when every expected version is
        current; otherwise nothing changes and some stream that moved is reported. */
    method AppendEvents(writes: StreamWrites) returns (r: Result<(), StoreError>)
      requires Valid()
      modifies this`streams, this`globalLog
      ensures Valid()
      ensures r.Ok? <==> VersionsMatch(old(Contents()), writes.expected)
      ensures r.Ok? ==> Contents() == AppendAll(old(Contents()), writes.entries)
      ensures r.Ok? ==> globalLog == old(globalLog) + writes.entries
      ensures r.Err? ==> IsConflict(old(Contents()), writes.expected, r.error)
      ensures r.Err? ==> Contents() == old(Contents()) && globalLog == old(globalLog)
    {
      var conflict := FindConflict(writes.expected);
      if conflict.Some? {
        return Err(conflict.value);
      }
      StoreEntries(writes.entries);
      return Ok(());
    }

    method StoreEntries(entries: seq<Event>)
      requires Valid()
      modifies this`streams, this`globalLog
      ensures Valid()
      ensures Contents() == AppendAll(old(Contents()), entries)
      ensures globalLog == old(globalLog) + entries
    {
      hide AppendAll, AppendEvent, OnStream, ContentsOf;
      var i := 0;
      AppendAllNone(Contents());
      while i < |entries|
        invariant 0 <= i <= |entries|
        invariant Valid()
        invariant Contents() == AppendAll(old(Contents()), entries[..i])
        invariant globalLog == old(globalLog) + entries[..i]
      {
        AppendAllSnoc(old(Contents()), entries[..i], entries[i]);
        assert entries[..i + 1] == entries[..i] + [entries[i]];
        StoreEntry(entries[i]);
        i := i + 1;
      }
      assert entries[..i] == entries;
    }

    method StoreEntry(e: Event)
      requires Valid()
      modifies this`streams, this`globalLog
      ensures Valid()
      ensures Contents() == AppendEvent(old(Contents()), e) && globalLog == old(globalLog) + [e]
    {
      hide OnStream;
      globalLog := globalLog + [e];
      var data := if e.stream in streams then streams[e.stream] else StreamData([], 0);
      streams := streams[e.stream := StreamData(data.events + [e], data.version + 1)];
      assert Contents() == AppendEvent(old(Contents()), e);
      forall id ensures Stream(Contents(), id) == OnStream(globalLog, id) {
        OnStreamSnoc(old(globalLog), e, id);
        assert Stream(old(Contents()), id) == OnStream(old(globalLog), id);
      }
    }

    /** Keep the stored snapshot unless the new one covers it; one that does, or the first, is
        stored. */
    method SaveSnapshot(id: SnapshotId, snapshot: Snapshot)
      modifies this`snapshots
      ensures snapshots == Saved(old(snapshots), id, snapshot)
      ensures if id in old(snapshots) && !Covers(snapshot.versions, old(snapshots)[id].versions)
              then snapshots == old(snapshots)
              else id in snapshots && snapshots[id] == snapshot
      ensures forall k :: k != id ==> (k in snapshots <==> k in old(snapshots))
      ensures forall k :: k != id && k in snapshots ==> snapshots[k] == old(snapshots)[k]
    {
      if id in snapshots && !Covers(snapshot.versions, snapshots[id].versions) {
        return;
      }
      snapshots := snapshots[id := snapshot];
    }
  }

  lemma OnStreamSnoc(events: seq<Event>, e: Event, id: StreamId)
    ensures OnStream(events + [e], id) == OnStream(events, id) + (if e.stream == id then [e] else [])
  {
    assert (events + [e])[..|events + [e]| - 1] == events;
  }

  lemma AppendAllNone(s: Store)
    ensures AppendAll(s, []) == s
  {
  }

  lemma AppendAllSnoc(s: Store, events: seq<Event>, e: Event)
    ensures AppendAll(s, events + [e]) == AppendEvent(AppendAll(s, events), e)
  {
    assert (events + [e])[..|events + [e]| - 1] == events;
  }

  function Saved(snapshots: map<SnapshotId, Snapshot>, id: SnapshotId, snapshot: Snapshot): map<SnapshotId, Snapshot> {
    if id in snapshots && !Covers(snapshot.versions, snapshots[id].versions) then snapshots
    else snapshots[id := snapshot]
  }

  /** Whatever the rest of the system does while an executor awaits: any number of appends,
      accepted or refused. */
  method Interleave(store: InMemoryEventStore, others: seq<StreamWrites>)
    requires store.Valid()
    modifies store`streams, store`globalLog
    ensures store.Valid() && Extends(old(store.Contents()), store.Contents())
    ensures others == [] ==> store.Contents() == old(store.Contents())
  {
    var i := 0;
    while i < |others|
      invariant store.Valid() && Extends(old(store.Contents()), store.Contents())
      invariant others == [] ==> store.Contents() == old(store.Contents())
    {
      label before:
      var _ := store.AppendEvents(others[i]);
      AppendAllExtends(old@before(store.Contents()), others[i].entries);
      ExtendsTransitive(old(store.Contents()), old@before(store.Contents()), store.Contents());
      i := i + 1;
    }
  }
}
