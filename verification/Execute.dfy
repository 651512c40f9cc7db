/** The shell loop that drives the pipeline against a shared store while other executors
    commit between any two of its accesses. */
module Execute {
  import opened Streams
  import opened Writes
  import opened Replay
  import opened Pipeline
  import opened MemoryStore

  /** The environment of one execution: what others append before its k-th access to the
      store, and whether that access fails. */
  datatype World = World(others: nat -> seq<StreamWrites>, fails: nat -> bool)

  ghost predicate Fails(w: World) {
    exists k: nat :: w.fails(k)
  }

  /** Nobody else commits and no access fails. */
  ghost predicate Quiet(w: World) {
    forall k: nat :: w.others(k) == [] && !w.fails(k)
  }

  /** The stream being read is one the command may name. */
  lemma CurrentInUniverse(c: Command, s: Store, m: Machine)
    requires WellFormed(c.logic) && Tracks(c, s, m) && m.phase.AwaitingStreamRead?
    ensures m.phase.current in c.logic.universe
  {
    FaithfulShape(c.logic, s, TraceOf(m.phase.streamIds, m.phase.versions));
    var q := [m.phase.current] + m.phase.queue;
    assert q[0] in Elements(q);
  }

  /** A stream taken off the queue is a new one, so discovery is bounded by the universe. */
  lemma NextReadIsNew(c: Command, s: Store, maxRetries: u32, m: Machine, m': Machine)
    requires WellFormed(c.logic) && m.phase.AwaitingStreamRead? && m'.phase.AwaitingStreamRead?
    requires m' == ResumeOf(c, maxRetries, m, StreamEnded).0 && Tracks(c, s, m')
    ensures |c.logic.universe - m'.phase.visited| < |c.logic.universe - m.phase.visited|
  {
    CurrentInUniverse(c, s, m');
    var p := m.phase;
    var d := Schedule(Discovery(p.queue, p.scheduled), c.logic.discover(p.state));
    SkipVisitedHead(d.queue, p.visited);
    var left := c.logic.universe - m.phase.visited;
    assert c.logic.universe - m'.phase.visited == left - {m'.phase.current};
  }

  lemma {:induction false} SkipVisitedHead(queue: seq<StreamId>, visited: set<StreamId>)
    ensures SkipVisited(queue, visited) != [] ==> SkipVisited(queue, visited)[0] !in visited
  {
    if queue != [] && queue[0] in visited { SkipVisitedHead(queue[1..], visited); }
  }

  /** The pipeline is part-way through stream `id` and the rest of what was opened is `rest`. */
  ghost predicate Pumping(c: Command, s: Store, m: Machine, id: StreamId, rest: seq<Event>) {
    && Tracks(c, s, m) && m.phase.AwaitingStreamRead? && m.phase.current == id
    && m.phase.eventCount + |rest| <= |Stream(s, id)|
    && Stream(s, id)[m.phase.eventCount..m.phase.eventCount + |rest|] == rest
  }

  lemma PumpingMonotone(c: Command, s: Store, u: Store, m: Machine, id: StreamId, rest: seq<Event>)
    requires Pumping(c, s, m, id, rest) && Extends(s, u)
    ensures Pumping(c, u, m, id, rest)
  {
    TracksMonotone(c, s, u, m);
    assert Stream(s, id) <= Stream(u, id);
  }

  /** One streamed event: the machine folds it and the rest stays to be pumped. */
  lemma PumpOne(c: Command, s: Store, maxRetries: u32, m: Machine, id: StreamId, rest: seq<Event>)
    requires Pumping(c, s, m, id, rest) && rest != []
    ensures var (m', step) := ResumeOf(c, maxRetries, m, StreamEvent(rest[0]));
            && step.WaitForResult? && Pumping(c, s, m', id, rest[1..])
            && m'.attempt == m.attempt && m'.phase
                 == m.phase.(state := m'.phase.state, eventCount := m.phase.eventCount + 1)
  {
    assert rest[0] == Stream(s, id)[m.phase.eventCount];
    EventTracks(c, s, maxRetries, m);
  }

  /** In a quiet world the whole of stream `id` is still to come, and what was read is current. */
  ghost predicate ReadingAll(s: Store, m: Machine, id: StreamId, rest: nat) {
    && m.phase.AwaitingStreamRead?
    && m.phase.eventCount + rest == |Stream(s, id)|
    && Current(s, TraceOf(m.phase.streamIds, m.phase.versions))
  }

  /** The run ended on a failure of the store. */
  predicate FailedOn(step: PipelineStep) {
    step == Done(Failure(EventStoreError(StoreFailure)))
  }

  /** Pushes an opened stream into the pipeline one event at a time, then ends it. */
  method PumpEvents(store: InMemoryEventStore, pipeline: ExecutePipeline, id: StreamId, events: seq<Event>, w: World,
                    tick: nat)
    returns (step: PipelineStep, tick': nat)
    requires store.Valid() && WellFormed(pipeline.command.logic)
    requires Pumping(pipeline.command, store.Contents(), pipeline.Value(), id, events)
    modifies pipeline, store`streams, store`globalLog
    ensures store.Valid() && Extends(old(store.Contents()), store.Contents())
    ensures StepTracks(pipeline.command, store.Contents(), pipeline.Value(), step)
    ensures pipeline.attempt == old(pipeline.attempt) && step != Yield(Sleep)
    ensures step.Done? ==>
              Refuses(pipeline.command, store.Contents(), step.outcome.error) || (FailedOn(step) && Fails(w))
    ensures step.Yield? && step.effect.ReadStream? ==>
              ToRead(pipeline.command, pipeline.phase) < ToRead(pipeline.command, old(pipeline.phase))
    ensures Quiet(w) && ReadingAll(old(store.Contents()), old(pipeline.Value()), id, |events|) ==>
              store.Contents() == old(store.Contents())
              && StepIsCurrent(pipeline.command, store.Contents(), pipeline.Value(), step)
  {
    hide WellFormed, Extends, Tracks, Current, StepTracks, StepIsCurrent, Pumping, ReadingAll, ToRead;
    PumpingFacts(pipeline.command, store.Contents(), pipeline.Value(), id, events);
    var c := pipeline.command;
    ghost var s0, m0 := store.Contents(), pipeline.Value();
    var rest := events;
    ExtendsItself(s0);
    tick' := tick;
    while rest != []
      invariant store.Valid() && Extends(s0, store.Contents())
      invariant Pumping(c, store.Contents(), pipeline.Value(), id, rest)
      invariant pipeline.phase.AwaitingStreamRead? && pipeline.phase.current == id
      invariant pipeline.attempt == m0.attempt && pipeline.phase.visited == m0.phase.visited
      invariant Quiet(w) ==> store.Contents() == s0
      invariant Quiet(w) && ReadingAll(s0, m0, id, |events|) ==> ReadingAll(s0, pipeline.Value(), id, |rest|)
      decreases |rest|
    {
      ghost var s1 := store.Contents();
      Interleave(store, w.others(tick'));
      PumpingMonotone(c, s1, store.Contents(), pipeline.Value(), id, rest);
      ExtendsTransitive(s0, s1, store.Contents());
      if w.fails(tick') {
        step := FailRead(store, pipeline);
        return;
      }
      tick' := tick' + 1;
      PumpOne(c, store.Contents(), pipeline.maxRetries, pipeline.Value(), id, rest);
      ReadingOn(c, s0, pipeline.maxRetries, pipeline.Value(), id, rest);
      var _ := pipeline.Resume(StreamEvent(rest[0]));
      rest := rest[1..];
    }
    PumpingFacts(c, store.Contents(), pipeline.Value(), id, rest);
    SameToRead(c, m0.phase, pipeline.phase);
    step := EndStream(store, pipeline);
  }

  lemma PumpingFacts(c: Command, s: Store, m: Machine, id: StreamId, rest: seq<Event>)
    requires Pumping(c, s, m, id, rest)
    ensures Tracks(c, s, m) && m.phase.AwaitingStreamRead? && m.phase.current == id
  {
  }

  lemma ReadingOn(c: Command, s: Store, maxRetries: u32, m: Machine, id: StreamId, rest: seq<Event>)
    requires rest != []
    ensures ReadingAll(s, m, id, |rest|) ==>
              ReadingAll(s, ResumeOf(c, maxRetries, m, StreamEvent(rest[0])).0, id, |rest[1..]|)
  {
  }

  lemma SameToRead(c: Command, p: Phase, q: Phase)
    requires p.AwaitingStreamRead? && q.AwaitingStreamRead? && p.visited == q.visited
    ensures ToRead(c, p) == ToRead(c, q)
  {
  }

  /** A store that fails a read ends the run. */
  method FailRead(store: InMemoryEventStore, pipeline: ExecutePipeline) returns (step: PipelineStep)
    requires pipeline.phase.AwaitingStreamRead?
    modifies pipeline
    ensures StepTracks(pipeline.command, store.Contents(), pipeline.Value(), step)
    ensures pipeline.attempt == old(pipeline.attempt) && step == Done(Failure(EventStoreError(StoreFailure)))
  {
    step := pipeline.Resume(StreamReadError(StoreFailure));
  }

  method EndStream(store: InMemoryEventStore, pipeline: ExecutePipeline) returns (step: PipelineStep)
    requires WellFormed(pipeline.command.logic) && pipeline.phase.AwaitingStreamRead?
    requires Tracks(pipeline.command, store.Contents(), pipeline.Value())
    modifies pipeline
    ensures StepTracks(pipeline.command, store.Contents(), pipeline.Value(), step)
    ensures pipeline.attempt == old(pipeline.attempt) && step != Yield(Sleep)
    ensures step.Done? ==> Refuses(pipeline.command, store.Contents(), step.outcome.error)
    ensures step.Yield? && step.effect.ReadStream? ==>
              ToRead(pipeline.command, pipeline.phase) < ToRead(pipeline.command, old(pipeline.phase))
    ensures ReadingAll(store.Contents(), old(pipeline.Value()), old(pipeline.phase.current), 0) ==>
              StepIsCurrent(pipeline.command, store.Contents(), pipeline.Value(), step)
  {
    hide WellFormed, TracksReading, TracksAwaiting, TracksHandling, Current, StepIsCurrent, OwnFailure, Justified;
    ghost var last := pipeline.Value();
    if ReadingAll(store.Contents(), last, last.phase.current, 0) {
      EndIsCurrent(pipeline.command, store.Contents(), pipeline.maxRetries, last);
    }
    EndTracks(pipeline.command, store.Contents(), pipeline.maxRetries, last);
    step := pipeline.Resume(StreamEnded);
    if pipeline.phase.AwaitingStreamRead? {
      NextReadIsNew(pipeline.command, store.Contents(), pipeline.maxRetries, last, pipeline.Value());
    }
  }

  /** Opens a stream and pumps it. */
  method PumpStreamReads(store: InMemoryEventStore, pipeline: ExecutePipeline, id: StreamId, w: World, tick: nat)
    returns (step: PipelineStep, tick': nat)
    requires store.Valid() && WellFormed(pipeline.command.logic)
    requires StepTracks(pipeline.command, store.Contents(), pipeline.Value(), Yield(ReadStream(id)))
    modifies pipeline, store`streams, store`globalLog
    ensures store.Valid() && Extends(old(store.Contents()), store.Contents())
    ensures StepTracks(pipeline.command, store.Contents(), pipeline.Value(), step)
    ensures pipeline.attempt == old(pipeline.attempt) && step != Yield(Sleep)
    ensures step.Done? ==>
              Refuses(pipeline.command, store.Contents(), step.outcome.error) || (FailedOn(step) && Fails(w))
    ensures step.Yield? && step.effect.ReadStream? ==>
              ToRead(pipeline.command, pipeline.phase) < ToRead(pipeline.command, old(pipeline.phase))
    ensures Quiet(w) && old(StepIsCurrent(pipeline.command, store.Contents(), pipeline.Value(),
                                          Yield(ReadStream(id)))) ==>
              store.Contents() == old(store.Contents())
              && StepIsCurrent(pipeline.command, store.Contents(), pipeline.Value(), step)
  {
    hide WellFormed, Extends, TracksReading, TracksHandling, Current, Justified;
    ghost var s0 := store.Contents();
    Interleave(store, w.others(tick));
    ghost var s1 := store.Contents();
    TracksMonotone(pipeline.command, s0, s1, pipeline.Value());
    if w.fails(tick) {
      step := FailRead(store, pipeline);
      return step, tick + 1;
    }
    var events := store.ReadStreamEvents(id);
    step, tick' := PumpEvents(store, pipeline, id, events, w, tick + 1);
    ExtendsTransitive(s0, s1, store.Contents());
  }

  // ------------------------------------------------------------- how an attempt ends

  datatype Ending = Committed | Conflicted(conflict: StoreError) | GaveUp(error: CommandError)

  /** One attempt: how it ended, and on which store. */
  datatype Try = Try(found: Store, ending: Ending)

  /** A conflict is one with the writes decided on; who gives up was refused by the command on a
      complete reading, or met a failing access; a commit is what the command does alone. */
  ghost predicate EndedSo(c: Command, t: Try, fails: bool)
    requires WellFormed(c.logic)
  {
    match t.ending
    case Committed => RunAlone(c, t.found).Some?
    case Conflicted(e) => exists w :: Justified(c, t.found, w) && IsConflict(t.found, w.expected, e)
    case GaveUp(e) => Refuses(c, t.found, e) || (fails && e == EventStoreError(StoreFailure))
  }

  /** Left alone, an attempt does what the command does alone. */
  ghost predicate EndedAlone(c: Command, t: Try)
    requires WellFormed(c.logic)
  {
    if RunAlone(c, t.found).Some? then t.ending.Committed? else t.ending.GaveUp?
  }

  /** An attempt in surroundings of which it is known whether they fail and whether they disturb. */
  ghost predicate Fair(c: Command, t: Try, fails: bool, quiet: bool)
    requires WellFormed(c.logic)
  {
    EndedSo(c, t, fails) && (quiet ==> EndedAlone(c, t))
  }

  /** All attempts but the last met a conflict, and the last one decides the outcome: there is
      none if the number of attempts does not fit its counter. */
  ghost predicate Reported(log: seq<Try>, r: Option<PipelineOutcome>, maxRetries: u32) {
    && 0 < |log| <= maxRetries + 1
    && (forall i :: 0 <= i < |log| - 1 ==> log[i].ending.Conflicted?)
    && (match log[|log| - 1].ending
        case Committed => r == if |log| == U32_MAX + 1 then None else Some(Success(|log|))
        case Conflicted(_) => |log| == maxRetries + 1 && r == Some(Failure(ConcurrencyError(maxRetries)))
        case GaveUp(e) => r == Some(Failure(e)))
  }

  /** If the first `n` attempts conflict, as far as there are that many, and the next one is left
      alone, then that one is the last, and succeeds exactly if the command run alone accepts. */
  lemma RetriesUntilLeftAlone(c: Command, log: seq<Try>, r: Option<PipelineOutcome>, maxRetries: u32, n: u32)
    requires WellFormed(c.logic) && Reported(log, r, maxRetries) && n <= maxRetries
    requires forall i :: 0 <= i < n && i < |log| ==> log[i].ending.Conflicted?
    requires |log| > n ==> EndedAlone(c, log[n])
    ensures |log| == n + 1
    ensures RunAlone(c, log[n].found).Some? ==> r == if n == U32_MAX then None else Some(Success(n + 1))
    ensures RunAlone(c, log[n].found).None? ==> r.Some? && r.value.Failure?
  {
    hide RunAlone;
    var last := log[|log| - 1];
    assert |log| - 1 < n ==> last.ending.Conflicted?;
    var t := log[n];
    assert n < |log| - 1 ==> t.ending.Conflicted?;
  }

  /** If every attempt conflicts, all are made and the failure says so. */
  lemma ConflictsExhaustRetries(log: seq<Try>, r: Option<PipelineOutcome>, maxRetries: u32)
    requires Reported(log, r, maxRetries) && forall i :: 0 <= i < |log| ==> log[i].ending.Conflicted?
    ensures |log| == maxRetries + 1 && r == Some(Failure(ConcurrencyError(maxRetries)))
  {
  }

  /** A conflict is never reported as the store's: such an error is the command's own. */
  lemma ConflictsAreNotReported(c: Command, log: seq<Try>, r: Option<PipelineOutcome>, maxRetries: u32, e: StoreError,
                                fails: bool)
    requires WellFormed(c.logic) && Reported(log, r, maxRetries) && r == Some(Failure(EventStoreError(e)))
    requires e.VersionConflict? && EndedSo(c, log[|log| - 1], fails)
    ensures Refuses(c, log[|log| - 1].found, EventStoreError(e))
  {
  }

  ghost function StepRank(step: PipelineStep): nat {
    match step
    case Yield(Sleep) => 3
    case Yield(ReadStream(_)) => 2
    case Yield(AppendEvents(_)) => 1
    case _ => 0
  }

  ghost function ToRead(c: Command, p: Phase): nat {
    if p.AwaitingStreamRead? then |c.logic.universe - p.visited| else 0
  }

  /** The append arm: somebody else may commit first, then the batch is checked and stored. */
  method TryAppend(store: InMemoryEventStore, pipeline: ExecutePipeline, writes: StreamWrites, w: World, tick: nat)
    returns (step: PipelineStep, ghost t: Try)
    requires store.Valid() && WellFormed(pipeline.command.logic)
    requires StepTracks(pipeline.command, store.Contents(), pipeline.Value(), Yield(AppendEvents(writes)))
    requires pipeline.attempt <= pipeline.maxRetries
    modifies pipeline, store`streams, store`globalLog
    ensures store.Valid() && Extends(old(store.Contents()), t.found)
    ensures Ends(pipeline, old(pipeline.attempt), step, t)
    ensures EndedSo(pipeline.command, t, Fails(w))
    ensures if t.ending.Committed? then RunAlone(pipeline.command, t.found) == Some(store.Contents())
            else t.found == store.Contents()
    ensures Quiet(w) ==> t.found == old(store.Contents())
    ensures Quiet(w) && VersionsMatch(old(store.Contents()), writes.expected) ==> t.ending.Committed?
  {
    hide Justified, RunAlone, WellFormed, AppendAll, Extends, VersionsMatch, IsConflict;
    var c := pipeline.command;
    Interleave(store, w.others(tick));
    ghost var before := store.Contents();
    JustifiedMonotone(c, old(store.Contents()), before, writes);
    t := Try(before, GaveUp(EventStoreError(StoreFailure)));
    var r: Result<(), StoreError> := Err(StoreFailure);
    if !w.fails(tick) {
      r := store.AppendEvents(writes);
      if r.Ok? {
        CheckedWritesRunAlone(c, before, writes);
        t := Try(before, Committed);
      } else {
        t := Try(before, Conflicted(r.error));
        ConflictFacts(before, writes.expected, r.error);
      }
    }
    step := pipeline.Resume(EventsAppended(r));
  }

  lemma ConflictFacts(s: Store, expected: map<StreamId, nat>, e: StoreError)
    requires IsConflict(s, expected, e)
    ensures e.VersionConflict? && !VersionsMatch(s, expected)
  {
  }

  /** What the pipeline does about the end of attempt number `n`. */
  ghost predicate Ends(pipeline: ExecutePipeline, n: u32, step: PipelineStep, t: Try)
    reads pipeline
  {
    match t.ending
    case Committed => pipeline.attempt == n && if n == U32_MAX then step.Panic? else step == Done(Success(n + 1))
    case Conflicted(_) =>
      if n < pipeline.maxRetries then
        step == Yield(Sleep) && pipeline.attempt == n + 1 && pipeline.phase.AwaitingRetrySleep?
      else pipeline.attempt == n && step == Done(Failure(ConcurrencyError(pipeline.maxRetries)))
    case GaveUp(e) => pipeline.attempt == n && step == Done(Failure(e))
  }

  method SleepAndRestart(store: InMemoryEventStore, pipeline: ExecutePipeline, w: World, tick: nat)
    returns (step: PipelineStep)
    requires store.Valid() && WellFormed(pipeline.command.logic) && pipeline.phase.AwaitingRetrySleep?
    modifies pipeline, store`streams, store`globalLog
    ensures store.Valid() && Extends(old(store.Contents()), store.Contents())
    ensures StepTracks(pipeline.command, store.Contents(), pipeline.Value(), step)
    ensures pipeline.attempt == old(pipeline.attempt) && step != Yield(Sleep)
    ensures step.Done? ==> Refuses(pipeline.command, store.Contents(), step.outcome.error)
    ensures Quiet(w) ==> store.Contents() == old(store.Contents())
    ensures StepIsCurrent(pipeline.command, store.Contents(), pipeline.Value(), step)
  {
    hide WellFormed, Extends, Tracks, Refuses, Justified, StepIsCurrent;
    Interleave(store, w.others(tick));
    InitIsCurrent(pipeline.command, store.Contents(), pipeline.attempt);
    InitTracks(pipeline.command, store.Contents(), pipeline.attempt);
    step := pipeline.Resume(Slept);
  }

  /** Strictly fewer retries, a later stage, or fewer streams left to read. */
  ghost predicate Closer(c: Command, m: Machine, step: PipelineStep, m': Machine, step': PipelineStep) {
    || m.attempt < m'.attempt
    || (m.attempt == m'.attempt && StepRank(step') < StepRank(step))
    || (m.attempt == m'.attempt && StepRank(step') == StepRank(step)
        && ToRead(c, m'.phase) < ToRead(c, m.phase))
  }

  lemma ExtendsItself(s: Store)
    ensures Extends(s, s)
  {
  }

  /** Between two dispatches of an attempt.  If it is left alone, its reads are current. */
  ghost predicate Underway(c: Command, s: Store, m: Machine, step: PipelineStep, maxRetries: u32, quiet: bool)
    requires WellFormed(c.logic)
  {
    && step.Yield? && m.attempt <= maxRetries && StepTracks(c, s, m, step)
    && (quiet && step != Yield(Sleep) ==> StepIsCurrent(c, s, m, step))
  }

  lemma GaveUpIsFair(c: Command, s: Store, m: Machine, step: PipelineStep, fails: bool, quiet: bool)
    requires WellFormed(c.logic) && step.Done? && step.outcome.Failure?
    requires Refuses(c, s, step.outcome.error) || (fails && FailedOn(step))
    requires quiet ==> StepIsCurrent(c, s, m, step)
    ensures Fair(c, Try(s, GaveUp(step.outcome.error)), fails, quiet)
  {
    hide Refuses, RunAlone;
  }

  lemma BeginsUnderway(c: Command, s: Store, m: Machine, step: PipelineStep, maxRetries: u32, quiet: bool)
    requires WellFormed(c.logic) && StepTracks(c, s, m, step) && !step.Done? && m.attempt == 0
    requires StepIsCurrent(c, s, m, step)
    ensures Underway(c, s, m, step, maxRetries, quiet) && step.Yield?
  {
    hide StepIsCurrent;
  }

  /** A conflict that can be retried leaves the attempt after it underway. */
  lemma RetryIsUnderway(c: Command, s: Store, pipeline: ExecutePipeline, n: u32, step: PipelineStep, t: Try,
                        quiet: bool)
    requires WellFormed(c.logic) && Ends(pipeline, n, step, t) && step.Yield?
    ensures t.ending.Conflicted? && step == Yield(Sleep) && pipeline.attempt == n + 1 <= pipeline.maxRetries
    ensures Underway(c, s, pipeline.Value(), step, pipeline.maxRetries, quiet)
  {
  }

  lemma UnderwayYields(c: Command, s: Store, m: Machine, step: PipelineStep, maxRetries: u32, quiet: bool)
    requires WellFormed(c.logic) && Underway(c, s, m, step, maxRetries, quiet)
    ensures step.Yield? && m.attempt <= maxRetries
  {
  }

  method DispatchRead(store: InMemoryEventStore, pipeline: ExecutePipeline, id: StreamId, w: World, tick: nat)
    returns (step: PipelineStep, tick': nat, ghost ended: Option<Try>)
    requires store.Valid() && WellFormed(pipeline.command.logic)
    requires Underway(pipeline.command, store.Contents(), pipeline.Value(), Yield(ReadStream(id)), pipeline.maxRetries,
                      Quiet(w))
    modifies pipeline, store`streams, store`globalLog
    ensures store.Valid() && Extends(old(store.Contents()), store.Contents())
    ensures pipeline.attempt == old(pipeline.attempt)
    ensures Quiet(w) ==> store.Contents() == old(store.Contents())
    ensures ended.None? ==>
              && Underway(pipeline.command, store.Contents(), pipeline.Value(), step, pipeline.maxRetries, Quiet(w))
              && Closer(pipeline.command, old(pipeline.Value()), Yield(ReadStream(id)), pipeline.Value(), step)
    ensures ended.Some? ==>
              && Ends(pipeline, pipeline.attempt, step, ended.value) && ended.value.ending.GaveUp?
              && Fair(pipeline.command, ended.value, Fails(w), Quiet(w)) && ended.value.found == store.Contents()
  {
    hide WellFormed, Extends, Tracks, Refuses, Justified, RunAlone, VersionsMatch, Current;
    step, tick' := PumpStreamReads(store, pipeline, id, w, tick);
    ended := None;
    if step.Done? {
      ended := Some(Try(store.Contents(), GaveUp(step.outcome.error)));
      GaveUpIsFair(pipeline.command, store.Contents(), pipeline.Value(), step, Fails(w), Quiet(w));
    }
  }

  method DispatchAppend(store: InMemoryEventStore, pipeline: ExecutePipeline, writes: StreamWrites, w: World, tick: nat)
    returns (step: PipelineStep, ghost t: Try)
    requires store.Valid() && WellFormed(pipeline.command.logic)
    requires Underway(pipeline.command, store.Contents(), pipeline.Value(), Yield(AppendEvents(writes)),
                      pipeline.maxRetries, Quiet(w))
    modifies pipeline, store`streams, store`globalLog
    ensures store.Valid() && Extends(old(store.Contents()), t.found)
    ensures Ends(pipeline, old(pipeline.attempt), step, t) && Fair(pipeline.command, t, Fails(w), Quiet(w))
    ensures if t.ending.Committed? then RunAlone(pipeline.command, t.found) == Some(store.Contents())
            else t.found == store.Contents()
    ensures Quiet(w) ==> t.found == old(store.Contents())
  {
    hide WellFormed, Extends, Tracks, Refuses, Justified, RunAlone, VersionsMatch, Current, EndedSo;
    step, t := TryAppend(store, pipeline, writes, w, tick);
  }

  method DispatchSleep(store: InMemoryEventStore, pipeline: ExecutePipeline, w: World, tick: nat)
    returns (step: PipelineStep, ghost ended: Option<Try>)
    requires store.Valid() && WellFormed(pipeline.command.logic)
    requires Underway(pipeline.command, store.Contents(), pipeline.Value(), Yield(Sleep), pipeline.maxRetries, Quiet(w))
    modifies pipeline, store`streams, store`globalLog
    ensures store.Valid() && Extends(old(store.Contents()), store.Contents())
    ensures pipeline.attempt == old(pipeline.attempt)
    ensures Quiet(w) ==> store.Contents() == old(store.Contents())
    ensures ended.None? ==>
              && Underway(pipeline.command, store.Contents(), pipeline.Value(), step, pipeline.maxRetries, Quiet(w))
              && Closer(pipeline.command, old(pipeline.Value()), Yield(Sleep), pipeline.Value(), step)
    ensures ended.Some? ==>
              && Ends(pipeline, pipeline.attempt, step, ended.value) && ended.value.ending.GaveUp?
              && Fair(pipeline.command, ended.value, Fails(w), Quiet(w)) && ended.value.found == store.Contents()
  {
    hide WellFormed, Extends, Tracks, Refuses, Justified, RunAlone, VersionsMatch, Current;
    step := SleepAndRestart(store, pipeline, w, tick);
    ended := None;
    if step.Done? {
      ended := Some(Try(store.Contents(), GaveUp(step.outcome.error)));
      GaveUpIsFair(pipeline.command, store.Contents(), pipeline.Value(), step, Fails(w), Quiet(w));
    }
  }

  /** One turn of the shell loop: the attempt goes on, or it ends. */
  method Dispatch(store: InMemoryEventStore, pipeline: ExecutePipeline, step: PipelineStep, w: World, tick: nat)
    returns (step': PipelineStep, tick': nat, ghost ended: Option<Try>)
    requires store.Valid() && WellFormed(pipeline.command.logic) && step.Yield?
    requires Underway(pipeline.command, store.Contents(), pipeline.Value(), step, pipeline.maxRetries, Quiet(w))
    modifies pipeline, store`streams, store`globalLog
    ensures store.Valid()
    ensures Quiet(w) ==>
              (if ended.None? then store.Contents() else ended.value.found) == old(store.Contents())
    ensures ended.None? ==>
              && Extends(old(store.Contents()), store.Contents()) && pipeline.attempt == old(pipeline.attempt)
              && Underway(pipeline.command, store.Contents(), pipeline.Value(), step', pipeline.maxRetries, Quiet(w))
              && Closer(pipeline.command, old(pipeline.Value()), step, pipeline.Value(), step')
    ensures ended.Some? ==>
              && Extends(old(store.Contents()), ended.value.found)
              && Ends(pipeline, old(pipeline.attempt), step', ended.value)
              && Fair(pipeline.command, ended.value, Fails(w), Quiet(w))
              && (if ended.value.ending.Committed? then
                    RunAlone(pipeline.command, ended.value.found) == Some(store.Contents())
                  else ended.value.found == store.Contents())
  {
    hide Underway, Fair, RunAlone, Closer;
    match step.effect {
      case ReadStream(id) =>
        step', tick', ended := DispatchRead(store, pipeline, id, w, tick);
      case AppendEvents(writes) =>
        ghost var t;
        step', t := DispatchAppend(store, pipeline, writes, w, tick);
        tick', ended := tick + 1, Some(t);
      case Sleep =>
        step', ended := DispatchSleep(store, pipeline, w, tick);
        tick' := tick + 1;
    }
  }

  /** All attempts so far were fair; `around` are the surroundings of each. */
  ghost predicate AllFair(c: Command, log: seq<Try>, around: nat -> World)
    requires WellFormed(c.logic)
  {
    forall i :: 0 <= i < |log| ==> Fair(c, log[i], Fails(around(i)), Quiet(around(i)))
  }

  /** What a finished run left in the store: the last attempt's work, if it committed. */
  ghost predicate LeftBehind(c: Command, log: seq<Try>, after: Store)
    requires WellFormed(c.logic)
  {
    && log != []
    && (var t := log[|log| - 1];
        if t.ending.Committed? then RunAlone(c, t.found) == Some(after) else t.found == after)
  }

  /** `n` attempts were made since `s0`, and all met a conflict. */
  ghost predicate AllConflicted(c: Command, s0: Store, log: seq<Try>, around: nat -> World, n: nat)
    requires WellFormed(c.logic)
  {
    && |log| == n && (forall i :: 0 <= i < n ==> log[i].ending.Conflicted?)
    && AllFair(c, log, around) && FoundSince(s0, log, Quiet(around(0)))
  }

  /** The attempts worked on what `s0` became; the first one on `s0` itself if left alone. */
  ghost predicate FoundSince(s0: Store, log: seq<Try>, quiet: bool) {
    && (forall i :: 0 <= i < |log| ==> Extends(s0, log[i].found))
    && (quiet && log != [] ==> log[0].found == s0)
  }

  function OutcomeOf(step: PipelineStep): Option<PipelineOutcome> {
    if step.Done? then Some(step.outcome) else None
  }

  /** The run is over. */
  ghost predicate AllTold(c: Command, s0: Store, log: seq<Try>, around: nat -> World, r: Option<PipelineOutcome>,
                          maxRetries: u32, after: Store)
    requires WellFormed(c.logic)
  {
    && Reported(log, r, maxRetries) && AllFair(c, log, around) && FoundSince(s0, log, Quiet(around(0)))
    && LeftBehind(c, log, after)
  }

  lemma AttemptEnds(s0: Store, log: seq<Try>, around: nat -> World, pipeline: ExecutePipeline, n: u32,
                    step: PipelineStep, t: Try, after: Store)
    requires WellFormed(pipeline.command.logic) && AllConflicted(pipeline.command, s0, log, around, n)
    requires n <= pipeline.maxRetries && Ends(pipeline, n, step, t)
    requires Fair(pipeline.command, t, Fails(around(n)), Quiet(around(n)))
    requires Extends(s0, t.found) && (Quiet(around(0)) && n == 0 ==> t.found == s0)
    requires if t.ending.Committed? then RunAlone(pipeline.command, t.found) == Some(after) else t.found == after
    ensures Going(pipeline, s0, after, step, log + [t], around)
    ensures step.Yield? ==> pipeline.attempt == n + 1
    ensures !step.Yield? ==> pipeline.attempt == n && StepRank(step) == 0
  {
    hide RunAlone, Extends, Quiet, Fails, Fair, Underway;
    var c := pipeline.command;
    forall i | 0 <= i < |log + [t]| ensures Fair(c, (log + [t])[i], Fails(around(i)), Quiet(around(i))) {
      if i < |log| { assert Fair(c, log[i], Fails(around(i)), Quiet(around(i))); }
    }
    if step.Yield? { RetryIsUnderway(c, after, pipeline, n, step, t, Quiet(around(n + 1))); }
  }

  lemma AttemptContinues(s0: Store, seen: Store, s: Store, log: seq<Try>, around: nat -> World,
                         pipeline: ExecutePipeline, step: PipelineStep)
    requires WellFormed(pipeline.command.logic) && AllConflicted(pipeline.command, s0, log, around, pipeline.attempt)
    requires Underway(pipeline.command, s, pipeline.Value(), step, pipeline.maxRetries,
                      Quiet(around(pipeline.attempt)))
    requires Extends(s0, seen) && Extends(seen, s) && (Quiet(around(pipeline.attempt)) ==> s == seen)
    requires Quiet(around(0)) && pipeline.attempt == 0 ==> seen == s0
    ensures Going(pipeline, s0, s, step, log, around)
  {
    hide AllConflicted, Extends, Quiet, Underway;
    UnderwayYields(pipeline.command, s, pipeline.Value(), step, pipeline.maxRetries, Quiet(around(pipeline.attempt)));
    ExtendsTransitive(s0, seen, s);
  }

  lemma NothingTried(c: Command, s0: Store, around: nat -> World)
    requires WellFormed(c.logic)
    ensures AllConflicted(c, s0, [], around, 0)
  {
  }

  /** Runs one command to its outcome, attempt by attempt; surroundings `n` begin with the sleep
      before attempt `n`.  Every attempt ends as it has to in its surroundings, conflicts are
      retried, and the outcome tells how the last attempt ended. */
  method ExecuteCommand(store: InMemoryEventStore, command: Command, maxRetries: u32, around: nat -> World)
    returns (r: Option<PipelineOutcome>, ghost log: seq<Try>)
    requires store.Valid() && WellFormed(command.logic)
    modifies store`streams, store`globalLog
    ensures store.Valid() && AllTold(command, old(store.Contents()), log, around, r, maxRetries, store.Contents())
  {
    hide RunAlone, WellFormed, Extends, StepTracks, Quiet, Fair, Underway, Fails, StepOf, AllConflicted, AllTold, Going,
      StepIsCurrent, Ends;
    var pipeline := new ExecutePipeline(command, maxRetries);
    var tick := 0;
    ghost var s0 := store.Contents();
    InitTracks(command, s0, 0);
    InitIsCurrent(command, s0, 0);
    var step := pipeline.Step();
    log := Begins(pipeline, s0, step, around);
    while step.Yield?
      invariant store.Valid() && fresh(pipeline) && pipeline.command == command && pipeline.maxRetries == maxRetries
      invariant Going(pipeline, s0, store.Contents(), step, log, around)
      decreases maxRetries - pipeline.attempt, StepRank(step), ToRead(command, pipeline.phase)
    {
      ghost var seen := store.Contents();
      ghost var ended;
      GoingYields(pipeline, s0, seen, step, log, around);
      var n := pipeline.attempt;
      step, tick, ended := Dispatch(store, pipeline, step, around(n), tick);
      if step.Yield? && step.effect.Sleep? { tick := 0; }
      if ended.Some? {
        ExtendsTransitive(s0, seen, ended.value.found);
        AttemptEnds(s0, log, around, pipeline, n, step, ended.value, store.Contents());
        log := log + [ended.value];
      } else {
        AttemptContinues(s0, seen, store.Contents(), log, around, pipeline, step);
      }
    }
    r := OutcomeOf(step);
    GoneIsTold(pipeline, s0, store.Contents(), step, log, around);
  }

  /** Where the shell loop is: an attempt underway after conflicts alone, or all is told. */
  ghost predicate Going(pipeline: ExecutePipeline, s0: Store, s: Store, step: PipelineStep, log: seq<Try>,
                        around: nat -> World)
    requires WellFormed(pipeline.command.logic)
    reads pipeline
  {
    var (c, n) := (pipeline.command, pipeline.attempt);
    if step.Yield? then
      && Extends(s0, s) && AllConflicted(c, s0, log, around, n)
      && Underway(c, s, pipeline.Value(), step, pipeline.maxRetries, Quiet(around(n)))
      && (Quiet(around(0)) && n == 0 ==> s == s0)
    else AllTold(c, s0, log, around, OutcomeOf(step), pipeline.maxRetries, s)
  }

  lemma GoingYields(pipeline: ExecutePipeline, s0: Store, s: Store, step: PipelineStep, log: seq<Try>,
                    around: nat -> World)
    requires WellFormed(pipeline.command.logic) && step.Yield? && Going(pipeline, s0, s, step, log, around)
    ensures var (c, n) := (pipeline.command, pipeline.attempt);
            && Extends(s0, s) && AllConflicted(c, s0, log, around, n) && n <= pipeline.maxRetries
            && Underway(c, s, pipeline.Value(), step, pipeline.maxRetries, Quiet(around(n)))
            && (Quiet(around(0)) && n == 0 ==> s == s0)
  {
    hide Quiet, AllConflicted, Extends, StepIsCurrent, StepTracks;
  }

  lemma GoneIsTold(pipeline: ExecutePipeline, s0: Store, s: Store, step: PipelineStep, log: seq<Try>,
                   around: nat -> World)
    requires WellFormed(pipeline.command.logic) && !step.Yield? && Going(pipeline, s0, s, step, log, around)
    ensures AllTold(pipeline.command, s0, log, around, OutcomeOf(step), pipeline.maxRetries, s)
  {
    hide AllTold;
  }

  /** The first attempt: it begins, or the command is refused before anything is read. */
  lemma Begins(pipeline: ExecutePipeline, s0: Store, step: PipelineStep, around: nat -> World)
    returns (log: seq<Try>)
    requires WellFormed(pipeline.command.logic) && StepTracks(pipeline.command, s0, pipeline.Value(), step)
    requires StepIsCurrent(pipeline.command, s0, pipeline.Value(), step)
    requires pipeline.attempt == 0
    requires step.Done? ==> step.outcome.Failure? && Refuses(pipeline.command, s0, step.outcome.error)
    ensures Going(pipeline, s0, s0, step, log, around)
  {
    hide Extends, Fair, AllTold, Quiet, StepTracks, StepIsCurrent, AllConflicted;
    var c := pipeline.command;
    ExtendsItself(s0);
    NothingTried(c, s0, around);
    log := [];
    if step.Done? {
      GaveUpIsFair(c, s0, pipeline.Value(), step, Fails(around(0)), Quiet(around(0)));
      var t := Try(s0, GaveUp(step.outcome.error));
      AttemptEnds(s0, [], around, pipeline, 0, step, t, s0);
      log := [t];
      assert [] + [t] == log;
    } else {
      BeginsUnderway(c, s0, pipeline.Value(), step, pipeline.maxRetries, Quiet(around(0)));
    }
  }
}
