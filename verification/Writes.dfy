/** Stream writes: the events of one commit together with the version each stream the
    command read is expected to have. */
module Writes {
  import opened Streams

  datatype StoreError =
    | VersionConflict(stream: StreamId, expected: nat, actual: nat)
    | ConflictingExpectedVersions(stream: StreamId, first: nat, second: nat)
    | UndeclaredStream(stream: StreamId)
    | StoreFailure

  datatype StreamWrites = StreamWrites(entries: seq<Event>, expected: map<StreamId, nat>)

  function Empty(): StreamWrites {
    StreamWrites([], map[])
  }

  function RegisterStream(w: StreamWrites, id: StreamId, version: nat): Result<StreamWrites, StoreError> {
    if id !in w.expected then Ok(w.(expected := w.expected[id := version]))
    else if w.expected[id] != version then Err(ConflictingExpectedVersions(id, w.expected[id], version))
    else Ok(w)
  }

  function Append(w: StreamWrites, e: Event): Result<StreamWrites, StoreError> {
    if e.stream !in w.expected then Err(UndeclaredStream(e.stream))
    else Ok(w.(entries := w.entries + [e]))
  }

  ghost predicate FirstBadAt(events: seq<Event>, versions: map<StreamId, nat>, i: int) {
    && 0 <= i < |events|
    && events[i].stream !in versions
    && forall j :: 0 <= j < i ==> events[j].stream in versions
  }

  /** The stream of the first event that no expected version covers. */
  function FirstUndeclared(events: seq<Event>, versions: map<StreamId, nat>): (r: Option<StreamId>)
    ensures r.None? <==> forall e :: e in events ==> e.stream in versions
    ensures r.Some? ==> exists i :: FirstBadAt(events, versions, i) && events[i].stream == r.value
  {
    if events == [] then None
    else if events[0].stream !in versions then
      assert FirstBadAt(events, versions, 0);
      Some(events[0].stream)
    else
      var r := FirstUndeclared(events[1..], versions);
      assert events == [events[0]] + events[1..];
      assert r.Some? ==> exists i :: FirstBadAt(events, versions, i) && events[i].stream == r.value by {
        if r.Some? {
          var k :| FirstBadAt(events[1..], versions, k) && events[1..][k].stream == r.value;
          assert forall j :: 1 <= j <= k + 1 ==> events[j] == events[1..][j - 1];
          assert FirstBadAt(events, versions, k + 1);
        }
      }
      r
  }

  lemma FirstUndeclaredAt(events: seq<Event>, versions: map<StreamId, nat>, i: int)
    requires FirstBadAt(events, versions, i)
    ensures FirstUndeclared(events, versions) == Some(events[i].stream)
  {
    assert events[i] in events;
    var k :| FirstBadAt(events, versions, k) && events[k].stream == FirstUndeclared(events, versions).value;
    assert FirstBadAt(events, versions, k);
  }

  /** Either every event is covered and the writes hold exactly the events and versions
      given, or the first uncovered event's stream is reported. */
  function BuildWrites(events: seq<Event>, versions: map<StreamId, nat>): Result<StreamWrites, StoreError> {
    var bad := FirstUndeclared(events, versions);
    if bad.Some? then Err(UndeclaredStream(bad.value)) else Ok(StreamWrites(events, versions))
  }

  /** Registers the versions in whatever order the map yields them, then appends the events. */
  method BuildStreamWrites(events: seq<Event>, versions: map<StreamId, nat>)
    returns (r: Result<StreamWrites, StoreError>)
    ensures r == BuildWrites(events, versions)
    ensures r.Ok? <==> forall e :: e in events ==> e.stream in versions
    ensures r.Ok? ==> r.value.entries == events && r.value.expected == versions
    ensures r.Err? ==> exists i :: FirstBadAt(events, versions, i) && r.error == UndeclaredStream(events[i].stream)
  {
    var writes := Empty();
    var rest := versions.Keys;
    while rest != {}
      invariant rest <= versions.Keys
      invariant writes == StreamWrites([], map id | id in versions.Keys - rest :: versions[id])
      decreases rest
    {
      var id :| id in rest;
      var registered := RegisterStream(writes, id, versions[id]);
      if registered.Err? {
        assert false;
        return registered;
      }
      writes := registered.value;
      rest := rest - {id};
    }
    assert writes.expected == versions;
    var i := 0;
    while i < |events|
      invariant 0 <= i <= |events|
      invariant writes == StreamWrites(events[..i], versions)
      invariant forall j :: 0 <= j < i ==> events[j].stream in versions
    {
      var appended := Append(writes, events[i]);
      if appended.Err? {
        FirstUndeclaredAt(events, versions, i);
        return appended;
      }
      writes := appended.value;
      assert events[..i + 1] == events[..i] + [events[i]];
      i := i + 1;
    }
    assert events[..i] == events;
    return Ok(writes);
  }

  /** The optimistic check: every expected version is the stream's present length. */
  ghost predicate VersionsMatch(s: Store, expected: map<StreamId, nat>) {
    forall id :: id in expected ==> |Stream(s, id)| == expected[id]
  }
}
