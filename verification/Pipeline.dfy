/** The command-execution state machine.

    `StepOf` and `ResumeOf` give the machine's transitions as functions on values, with the
    source's panics as explicit steps; the class runs them in place. */
module Pipeline {
  import opened Streams
  import opened Writes
  import opened Replay

  datatype CommandError =
    | BusinessRuleViolation(detail: string)
    | ConcurrencyError(retries: u32)
    | EventStoreError(error: StoreError)
    | ValidationError(detail: string)

  datatype Command = Command(logic: Logic, handle: State -> Result<seq<Event>, CommandError>)

  datatype StoreEffect = ReadStream(stream: StreamId) | AppendEvents(writes: StreamWrites) | Sleep

  datatype EffectResult =
    | StreamEvent(event: Event)
    | StreamEnded
    | StreamReadError(error: StoreError)
    | EventsAppended(result: Result<(), StoreError>)
    | Slept

  datatype PipelineOutcome = Success(attempts: u32) | Failure(error: CommandError)

  datatype PipelineStep =
    | Yield(effect: StoreEffect)
    | WaitForResult
    | Done(outcome: PipelineOutcome)
    | Panic(message: string)

  datatype Phase =
    | Init
    | ReadingStreams(queue: seq<StreamId>, visited: set<StreamId>, scheduled: set<StreamId>,
                     streamIds: seq<StreamId>, versions: map<StreamId, nat>, state: State)
    | AwaitingStreamRead(current: StreamId, queue: seq<StreamId>, visited: set<StreamId>,
                         scheduled: set<StreamId>, streamIds: seq<StreamId>,
                         versions: map<StreamId, nat>, state: State, eventCount: nat)
    | Handling(streamIds: seq<StreamId>, versions: map<StreamId, nat>, state: State)
    | AwaitingAppend(streamIds: seq<StreamId>)
    | AwaitingRetrySleep
    | Finished

  datatype Machine = Machine(phase: Phase, attempt: u32)

  const AWAITING := "step() called while awaiting a result - call resume() instead"

  /** Drop queue entries that were visited before; the first other one is read next. */
  function SkipVisited(queue: seq<StreamId>, visited: set<StreamId>): seq<StreamId> {
    if queue != [] && queue[0] in visited then SkipVisited(queue[1..], visited) else queue
  }

  function StepReading(c: Command, p: Phase, attempt: u32): (Machine, PipelineStep)
    requires p.ReadingStreams?
  {
    var q := SkipVisited(p.queue, p.visited);
    if q == [] then StepHandling(c, Handling(p.streamIds, p.versions, p.state), attempt)
    else (Machine(AwaitingStreamRead(q[0], q[1..], p.visited + {q[0]}, p.scheduled, p.streamIds,
                                     p.versions, p.state, 0), attempt), Yield(ReadStream(q[0])))
  }

  function StepHandling(c: Command, p: Phase, attempt: u32): (Machine, PipelineStep)
    requires p.Handling?
  {
    match c.handle(p.state)
    case Ok(events) =>
      (match BuildWrites(events, p.versions)
       case Ok(writes) => (Machine(AwaitingAppend(p.streamIds), attempt), Yield(AppendEvents(writes)))
       case Err(e) => (Machine(Finished, attempt), Done(Failure(EventStoreError(e)))))
    case Err(e) => (Machine(Finished, attempt), Done(Failure(e)))
  }

  function InitialReading(c: Command): Phase {
    var d := Schedule(Discovery([], {}), c.logic.declared);
    ReadingStreams(d.queue, {}, d.scheduled, [], map[], c.logic.initial)
  }

  function StepOf(c: Command, m: Machine): (Machine, PipelineStep) {
    match m.phase
    case Init => StepReading(c, InitialReading(c), m.attempt)
    case ReadingStreams(_, _, _, _, _, _) => StepReading(c, m.phase, m.attempt)
    case Handling(_, _, _) => StepHandling(c, m.phase, m.attempt)
    case Finished => (Machine(Finished, m.attempt), Panic("step() called on a completed pipeline"))
    case _ => (Machine(Finished, m.attempt), Panic(AWAITING))
  }

  function ResumeRead(c: Command, p: Phase, attempt: u32, r: EffectResult): (Machine, PipelineStep)
    requires p.AwaitingStreamRead?
  {
    match r
    case StreamEvent(event) =>
      (Machine(p.(state := c.logic.apply(p.state, event), eventCount := p.eventCount + 1), attempt),
       WaitForResult)
    case StreamEnded =>
      StepReading(c, Ended(c.logic, p), attempt)
    case StreamReadError(e) => (Machine(Finished, attempt), Done(Failure(EventStoreError(e))))
    case _ => (Machine(Finished, attempt), Panic("expected a stream read result"))
  }

  function ResumeAppend(maxRetries: u32, attempt: u32, r: EffectResult): (Machine, PipelineStep) {
    if !r.EventsAppended? then (Machine(Finished, attempt), Panic("expected EventsAppended result"))
    else if r.result.Ok? then
      if attempt == U32_MAX then (Machine(Finished, attempt), Panic("attempts are 1-based"))
      else (Machine(Finished, attempt), Done(Success(attempt + 1)))
    else if !r.result.error.VersionConflict? then
      (Machine(Finished, attempt), Done(Failure(EventStoreError(r.result.error))))
    else if attempt < maxRetries then (Machine(AwaitingRetrySleep, attempt + 1), Yield(Sleep))
    else (Machine(Finished, attempt), Done(Failure(ConcurrencyError(maxRetries))))
  }

  function ResumeOf(c: Command, maxRetries: u32, m: Machine, r: EffectResult): (Machine, PipelineStep) {
    match m.phase
    case AwaitingStreamRead(_, _, _, _, _, _, _, _) => ResumeRead(c, m.phase, m.attempt, r)
    case AwaitingAppend(_) => ResumeAppend(maxRetries, m.attempt, r)
    case AwaitingRetrySleep =>
      if r.Slept? then StepOf(c, Machine(Init, m.attempt))
      else (Machine(Finished, m.attempt), Panic("expected Slept result"))
    case _ => (Machine(Finished, m.attempt), Panic("resume() called in wrong phase"))
  }

  // ------------------------------------------------------------- the last attempt number

  /** The machine after its first step and the results its shell gave it. */
  function Driven(c: Command, maxRetries: u32, results: seq<EffectResult>): (Machine, PipelineStep) {
    if results == [] then StepOf(c, Machine(Init, 0))
    else ResumeOf(c, maxRetries, Driven(c, maxRetries, results[..|results| - 1]).0, results[|results| - 1])
  }

  lemma DrivenOn(c: Command, maxRetries: u32, results: seq<EffectResult>, r: EffectResult)
    ensures Driven(c, maxRetries, results + [r]) == ResumeOf(c, maxRetries, Driven(c, maxRetries, results).0, r)
  {
    assert (results + [r])[..|results + [r]| - 1] == results;
  }

  /** Reads stream `id` only and decides on no events. */
  ghost predicate OnlyChecks(c: Command, id: StreamId) {
    && c.logic.declared == [id] && (forall st :: c.logic.discover(st) == [])
    && c.handle(c.logic.initial) == Ok([])
  }

  ghost predicate ReadyToAppend(c: Command, id: StreamId, m: Machine, step: PipelineStep, n: u32) {
    m == Machine(AwaitingAppend([id]), n) && step == Yield(AppendEvents(StreamWrites([], map[id := 0])))
  }

  lemma OneRound(c: Command, maxRetries: u32, id: StreamId, n: u32)
    requires OnlyChecks(c, id)
    ensures var (m, step) := StepOf(c, Machine(Init, n));
            && m.phase.AwaitingStreamRead? && m.attempt == n
            && (var (m', step') := ResumeOf(c, maxRetries, m, StreamEnded);
                ReadyToAppend(c, id, m', step', n))
  {
    assert [id][..0] == [] && Schedule(Discovery([], {}), []) == Discovery([], {});
    assert Schedule(Discovery([], {}), [id]) == Discovery([id], {id});
    var m := StepOf(c, Machine(Init, n)).0;
    assert m.phase == AwaitingStreamRead(id, [], {id}, {id}, [], map[], c.logic.initial, 0);
    assert Ended(c.logic, m.phase) == ReadingStreams([], {id}, {id}, [id], map[id := 0], c.logic.initial);
  }

  lemma DrivenFrom(c: Command, maxRetries: u32)
    ensures Driven(c, maxRetries, []) == StepOf(c, Machine(Init, 0))
  {
  }

  /** Conflicts alone take the machine to every attempt number up to the retries. */
  lemma {:induction false} ConflictsReach(c: Command, maxRetries: u32, id: StreamId, n: u32)
    returns (results: seq<EffectResult>)
    requires OnlyChecks(c, id) && n <= maxRetries
    ensures var (m, step) := Driven(c, maxRetries, results);
            ReadyToAppend(c, id, m, step, n)
  {
    hide Driven, StepOf, ResumeRead, OnlyChecks;
    OneRound(c, maxRetries, id, n);
    DrivenFrom(c, maxRetries);
    if n == 0 {
      results := [];
    } else {
      var conflict := EventsAppended(Err(VersionConflict(id, 0, 1)));
      var earlier := ConflictsReach(c, maxRetries, id, n - 1);
      DrivenOn(c, maxRetries, earlier, conflict);
      DrivenOn(c, maxRetries, earlier + [conflict], Slept);
      results := earlier + [conflict] + [Slept];
    }
    DrivenOn(c, maxRetries, results, StreamEnded);
    results := results + [StreamEnded];
  }

  /** With the largest retry setting the attempt counter can reach its last value, and a
      committed append then panics: the number of attempts does not fit the counter. */
  lemma LastAttemptPanics(c: Command, id: StreamId)
    requires OnlyChecks(c, id)
    ensures exists results :: Driven(c, U32_MAX, results + [EventsAppended(Ok(()))]).1.Panic?
  {
    var results := ConflictsReach(c, U32_MAX, id, U32_MAX);
    DrivenOn(c, U32_MAX, results, EventsAppended(Ok(())));
  }

  // ------------------------------------------------------------- what the machine knows

  /** The trace behind a list of finished streams and their recorded versions. */
  function TraceOf(ids: seq<StreamId>, versions: map<StreamId, nat>): Trace {
    if ids == [] then Unread
    else
      var id := ids[|ids| - 1];
      Then(TraceOf(ids[..|ids| - 1], versions), id, if id in versions then versions[id] else 0)
  }

  lemma {:induction false} TraceOfOther(ids: seq<StreamId>, versions: map<StreamId, nat>, id: StreamId, n: nat)
    requires id !in ids
    ensures TraceOf(ids, versions[id := n]) == TraceOf(ids, versions)
  {
    if ids != [] { TraceOfOther(ids[..|ids| - 1], versions, id, n); }
  }

  lemma TraceOfSnoc(ids: seq<StreamId>, versions: map<StreamId, nat>, id: StreamId, n: nat)
    requires id !in ids
    ensures TraceOf(ids + [id], versions[id := n]) == Then(TraceOf(ids, versions), id, n)
  {
    assert (ids + [id])[..|ids + [id]| - 1] == ids;
    TraceOfOther(ids, versions, id, n);
  }

  lemma {:induction false} TraceOfStreams(ids: seq<StreamId>, versions: map<StreamId, nat>)
    ensures StreamsOf(TraceOf(ids, versions)) == Elements(ids)
  {
    if ids != [] {
      TraceOfStreams(ids[..|ids| - 1], versions);
      assert ids == ids[..|ids| - 1] + [ids[|ids| - 1]];
    }
  }

  /** The writes come from a complete trace of reads that the store still extends. */
  ghost predicate JustifiedBy(c: Command, s: Store, w: StreamWrites, t: Trace) {
    && Complete(c.logic, s, t)
    && c.handle(After(c.logic, s, t).state) == Ok(w.entries)
    && BuildWrites(w.entries, VersionsOf(t)) == Ok(w)
  }

  ghost predicate Justified(c: Command, s: Store, w: StreamWrites) {
    exists t :: JustifiedBy(c, s, w, t)
  }

  ghost predicate TracksReading(l: Logic, s: Store, p: Phase)
    requires p.ReadingStreams?
  {
    var t := TraceOf(p.streamIds, p.versions);
    && Faithful(l, s, t)
    && After(l, s, t) == Progress(p.state, Discovery(p.queue, p.scheduled))
    && p.visited == Elements(p.streamIds)
    && p.versions == VersionsOf(t)
  }

  ghost predicate TracksAwaiting(l: Logic, s: Store, p: Phase)
    requires p.AwaitingStreamRead?
  {
    var t := TraceOf(p.streamIds, p.versions);
    && Faithful(l, s, t)
    && After(l, s, t).pending == Discovery([p.current] + p.queue, p.scheduled)
    && p.visited == Elements(p.streamIds) + {p.current}
    && p.versions == VersionsOf(t)
    && p.eventCount <= |Stream(s, p.current)|
    && p.state == Fold(l, After(l, s, t).state, Stream(s, p.current)[..p.eventCount])
  }

  ghost predicate TracksHandling(l: Logic, s: Store, p: Phase)
    requires p.Handling?
  {
    var t := TraceOf(p.streamIds, p.versions);
    Complete(l, s, t) && After(l, s, t).state == p.state && p.versions == VersionsOf(t)
  }

  /** Everything the machine holds in memory is a faithful partial replay of the store. */
  ghost predicate Tracks(c: Command, s: Store, m: Machine) {
    match m.phase
    case ReadingStreams(_, _, _, _, _, _) => TracksReading(c.logic, s, m.phase)
    case AwaitingStreamRead(_, _, _, _, _, _, _, _) => TracksAwaiting(c.logic, s, m.phase)
    case Handling(_, _, _) => TracksHandling(c.logic, s, m.phase)
    case _ => true
  }

  /** The decision on a reconstructed state, down to the writes. */
  function Decide(c: Command, state: State, versions: map<StreamId, nat>): Result<StreamWrites, CommandError> {
    match c.handle(state)
    case Err(e) => Err(e)
    case Ok(events) =>
      match BuildWrites(events, versions)
      case Err(e) => Err(EventStoreError(e))
      case Ok(writes) => Ok(writes)
  }

  ghost predicate RefusedBy(c: Command, s: Store, e: CommandError, t: Trace) {
    Complete(c.logic, s, t) && Decide(c, After(c.logic, s, t).state, VersionsOf(t)) == Err(e)
  }

  /** The command itself refuses, on a complete trace of reads that the store still extends. */
  ghost predicate Refuses(c: Command, s: Store, e: CommandError) {
    exists t :: RefusedBy(c, s, e, t)
  }

  /** A refusal is the logic's own, or names the stream of the first event that goes to none
      that was read. */
  lemma RefusedBecause(c: Command, state: State, versions: map<StreamId, nat>, e: CommandError)
    requires Decide(c, state, versions) == Err(e)
    ensures match c.handle(state)
            case Err(own) => e == own
            case Ok(events) =>
              && e.EventStoreError? && e.error.UndeclaredStream?
              && exists i :: FirstBadAt(events, versions, i) && events[i].stream == e.error.stream
  {
    hide FirstUndeclared;
    var handled := c.handle(state);
    if handled.Ok? {
      var i :| FirstBadAt(handled.value, versions, i)
        && FirstUndeclared(handled.value, versions) == Some(handled.value[i].stream);
    }
  }

  lemma RefusesMonotone(c: Command, s: Store, u: Store, e: CommandError)
    requires Refuses(c, s, e) && Extends(s, u)
    ensures Refuses(c, u, e)
  {
    var t :| RefusedBy(c, s, e, t);
    FaithfulMonotone(c.logic, s, u, t);
    assert RefusedBy(c, u, e, t);
  }

  /** A failure found before the append: the store's, or the command's own refusal. */
  ghost predicate OwnFailure(c: Command, s: Store, outcome: PipelineOutcome) {
    outcome.Failure? && (outcome.error == EventStoreError(StoreFailure) || Refuses(c, s, outcome.error))
  }

  ghost predicate StepTracks(c: Command, s: Store, m: Machine, step: PipelineStep) {
    && Tracks(c, s, m)
    && (match step
        case Yield(ReadStream(id)) => m.phase.AwaitingStreamRead? && m.phase.current == id && m.phase.eventCount == 0
        case Yield(AppendEvents(w)) => m.phase.AwaitingAppend? && Justified(c, s, w)
        case Yield(Sleep) => m.phase.AwaitingRetrySleep?
        case Done(outcome) => m.phase.Finished? && OwnFailure(c, s, outcome)
        case WaitForResult => false
        case Panic(_) => false)
  }

  /** In both reading phases the scheduled set is the disjoint union of the streams already
      taken off the queue and the duplicate-free queue itself. */
  lemma ScheduledIsVisitedPlusQueue(c: Command, s: Store, m: Machine)
    requires WellFormed(c.logic) && Tracks(c, s, m)
    requires m.phase.ReadingStreams? || m.phase.AwaitingStreamRead?
    ensures NoDuplicates(m.phase.queue)
    ensures m.phase.visited !! Elements(m.phase.queue)
    ensures m.phase.scheduled == m.phase.visited + Elements(m.phase.queue)
  {
    var p := m.phase;
    var t := TraceOf(p.streamIds, p.versions);
    FaithfulShape(c.logic, s, t);
    TraceOfStreams(p.streamIds, p.versions);
    if p.AwaitingStreamRead? {
      var q := [p.current] + p.queue;
      assert q[1..] == p.queue;
      assert Elements(q) == {p.current} + Elements(p.queue);
      assert p.current !in Elements(p.queue);
    }
  }

  lemma StepReadingTracks(c: Command, s: Store, p: Phase, attempt: u32)
    requires WellFormed(c.logic) && p.ReadingStreams? && TracksReading(c.logic, s, p)
    ensures var (m, step) := StepReading(c, p, attempt);
            StepTracks(c, s, m, step) && m.attempt == attempt && (step.Done? ==> Refuses(c, s, step.outcome.error))
  {
    ScheduledIsVisitedPlusQueue(c, s, Machine(p, attempt));
    assert SkipVisited(p.queue, p.visited) == p.queue by {
      if p.queue != [] { assert p.queue[0] in Elements(p.queue); }
    }
    if p.queue == [] {
      StepHandlingTracks(c, s, Handling(p.streamIds, p.versions, p.state), attempt);
    } else {
      assert [p.queue[0]] + p.queue[1..] == p.queue;
      assert Stream(s, p.queue[0])[..0] == [];
    }
  }

  lemma StepHandlingTracks(c: Command, s: Store, p: Phase, attempt: u32)
    requires p.Handling? && TracksHandling(c.logic, s, p)
    ensures var (m, step) := StepHandling(c, p, attempt);
            StepTracks(c, s, m, step) && m.attempt == attempt && (step.Done? ==> Refuses(c, s, step.outcome.error))
  {
    var (m, step) := StepHandling(c, p, attempt);
    if step.Yield? {
      assert JustifiedBy(c, s, step.effect.writes, TraceOf(p.streamIds, p.versions));
    } else {
      assert RefusedBy(c, s, step.outcome.error, TraceOf(p.streamIds, p.versions));
    }
  }

  lemma InitTracks(c: Command, s: Store, attempt: u32)
    requires WellFormed(c.logic)
    ensures var (m, step) := StepOf(c, Machine(Init, attempt));
            StepTracks(c, s, m, step) && m.attempt == attempt && (step.Done? ==> Refuses(c, s, step.outcome.error))
  {
    assert TraceOf([], map[]) == Unread;
    StepReadingTracks(c, s, InitialReading(c), attempt);
  }

  /** Folding the next event of the stream keeps the machine in step with the store. */
  lemma EventTracks(c: Command, s: Store, maxRetries: u32, m: Machine)
    requires Tracks(c, s, m) && m.phase.AwaitingStreamRead?
    requires m.phase.eventCount < |Stream(s, m.phase.current)|
    ensures var (m', step) := ResumeOf(c, maxRetries, m, StreamEvent(Stream(s, m.phase.current)[m.phase.eventCount]));
            && Tracks(c, s, m') && step.WaitForResult?
            && m' == Machine(m.phase.(state := m'.phase.state, eventCount := m.phase.eventCount + 1), m.attempt)
  {
    var es, n := Stream(s, m.phase.current), m.phase.eventCount;
    assert es[..n + 1][..n] == es[..n];
  }

  /** The phase that the end of a stream leads to, before the next stream is chosen. */
  function Ended(l: Logic, p: Phase): Phase
    requires p.AwaitingStreamRead?
  {
    var d := Schedule(Discovery(p.queue, p.scheduled), l.discover(p.state));
    ReadingStreams(d.queue, p.visited, d.scheduled, p.streamIds + [p.current],
                   p.versions[p.current := p.eventCount], p.state)
  }

  lemma EndedTrace(l: Logic, s: Store, p: Phase)
    requires WellFormed(l) && p.AwaitingStreamRead? && TracksAwaiting(l, s, p)
    ensures TraceOf(p.streamIds + [p.current], p.versions[p.current := p.eventCount])
         == Then(TraceOf(p.streamIds, p.versions), p.current, p.eventCount)
  {
    var t := TraceOf(p.streamIds, p.versions);
    FaithfulShape(l, s, t);
    TraceOfStreams(p.streamIds, p.versions);
    assert p.current in Elements([p.current] + p.queue);
    assert p.current !in Elements(p.streamIds);
    TraceOfSnoc(p.streamIds, p.versions, p.current, p.eventCount);
  }

  lemma EndedTracks(l: Logic, s: Store, p: Phase)
    requires WellFormed(l) && p.AwaitingStreamRead? && TracksAwaiting(l, s, p)
    ensures TracksReading(l, s, Ended(l, p))
  {
    EndedTrace(l, s, p);
    EndedVisit(l, s, p);
    assert Elements(p.streamIds + [p.current]) == Elements(p.streamIds) + {p.current};
  }

  /** The stream just finished was the head of the queue, and what it left behind is the rest. */
  lemma EndedVisit(l: Logic, s: Store, p: Phase)
    requires p.AwaitingStreamRead? && TracksAwaiting(l, s, p)
    ensures var t, e := Then(TraceOf(p.streamIds, p.versions), p.current, p.eventCount), Ended(l, p);
            Faithful(l, s, t) && After(l, s, t) == Progress(e.state, Discovery(e.queue, e.scheduled))
  {
    assert ([p.current] + p.queue)[1..] == p.queue;
  }

  /** Ending a stream after any prefix of it records that prefix's length as its version. */
  lemma EndTracks(c: Command, s: Store, maxRetries: u32, m: Machine)
    requires WellFormed(c.logic) && Tracks(c, s, m) && m.phase.AwaitingStreamRead?
    ensures var (m', step) := ResumeOf(c, maxRetries, m, StreamEnded);
            StepTracks(c, s, m', step) && m'.attempt == m.attempt && (step.Done? ==> Refuses(c, s, step.outcome.error))
  {
    assert ResumeOf(c, maxRetries, m, StreamEnded) == StepReading(c, Ended(c.logic, m.phase), m.attempt);
    EndedTracks(c.logic, s, m.phase);
    StepReadingTracks(c, s, Ended(c.logic, m.phase), m.attempt);
  }

  /** What the machine knows survives every append by anybody. */
  lemma TracksMonotone(c: Command, s: Store, t: Store, m: Machine)
    requires Tracks(c, s, m) && Extends(s, t)
    ensures Tracks(c, t, m)
  {
    if m.phase.ReadingStreams? || m.phase.AwaitingStreamRead? || m.phase.Handling? {
      FaithfulMonotone(c.logic, s, t, TraceOf(m.phase.streamIds, m.phase.versions));
    }
    if m.phase.AwaitingStreamRead? {
      var id, n := m.phase.current, m.phase.eventCount;
      assert Stream(s, id) <= Stream(t, id);
      assert Stream(s, id)[..n] == Stream(t, id)[..n];
    }
  }

  lemma JustifiedMonotone(c: Command, s: Store, t: Store, w: StreamWrites)
    requires Justified(c, s, w) && Extends(s, t)
    ensures Justified(c, t, w)
  {
    var trace :| JustifiedBy(c, s, w, trace);
    FaithfulMonotone(c.logic, s, t, trace);
    assert JustifiedBy(c, t, w, trace);
  }

  lemma StepTracksMonotone(c: Command, s: Store, t: Store, m: Machine, step: PipelineStep)
    requires StepTracks(c, s, m, step) && Extends(s, t)
    ensures StepTracks(c, t, m, step)
  {
    TracksMonotone(c, s, t, m);
    if step.Yield? && step.effect.AppendEvents? {
      JustifiedMonotone(c, s, t, step.effect.writes);
    }
    if step.Done? && Refuses(c, s, step.outcome.error) { RefusesMonotone(c, s, t, step.outcome.error); }
  }

  /** The reference for one command run alone: replay the store, decide, append. */
  ghost function RunAlone(c: Command, s: Store): Option<Store>
    requires WellFormed(c.logic)
  {
    var replayed := FullReplay(c.logic, s);
    match Decide(c, replayed.state, replayed.versions)
    case Err(_) => None
    case Ok(writes) => Some(AppendAll(s, writes.entries))
  }

  /** Run alone, a command is accepted exactly if its logic accepts the replayed state and every
      event goes to a stream that was read; then each stream gains its own events, in order. */
  lemma RunAloneDoes(c: Command, s: Store)
    requires WellFormed(c.logic)
    ensures var (full, r) := (FullReplay(c.logic, s), RunAlone(c, s));
            match c.handle(full.state)
            case Err(_) => r.None?
            case Ok(events) =>
              && (r.Some? <==> forall e :: e in events ==> e.stream in full.versions)
              && (r.Some? ==> forall id :: Stream(r.value, id) == Stream(s, id) + OnStream(events, id))
  {
    hide FullReplay, AppendAll, Stream, OnStream;
    var handled := c.handle(FullReplay(c.logic, s).state);
    if handled.Ok? {
      forall id ensures Stream(AppendAll(s, handled.value), id) == Stream(s, id) + OnStream(handled.value, id) {
        AppendAllPerStream(s, handled.value, id);
      }
    }
  }

  /** Writes that pass the version check are exactly what the command, run alone, would have
      appended to the store they are about to be appended to. */
  lemma CheckedWritesRunAlone(c: Command, s: Store, w: StreamWrites)
    requires WellFormed(c.logic) && Justified(c, s, w) && VersionsMatch(s, w.expected)
    ensures RunAlone(c, s) == Some(AppendAll(s, w.entries))
  {
    var trace :| JustifiedBy(c, s, w, trace);
    CurrentIffVersionsMatch(c.logic, s, trace);
    CurrentTraceIsFullReplay(c.logic, s, trace);
  }

  /** The step of a machine whose reads are all current: its writes will pass the check, and if
      it gives up, the command run alone on the store refuses too. */
  ghost predicate StepIsCurrent(c: Command, s: Store, m: Machine, step: PipelineStep)
    requires WellFormed(c.logic)
  {
    match step
    case Yield(ReadStream(_)) => m.phase.AwaitingStreamRead? && Current(s, TraceOf(m.phase.streamIds, m.phase.versions))
    case Yield(AppendEvents(w)) => VersionsMatch(s, w.expected)
    case Done(outcome) => outcome.Failure? && RunAlone(c, s).None?
    case Panic(_) => false
    case _ => true
  }

  lemma StepHandlingIsCurrent(c: Command, s: Store, p: Phase, attempt: u32)
    requires WellFormed(c.logic) && p.Handling? && TracksHandling(c.logic, s, p)
    requires Current(s, TraceOf(p.streamIds, p.versions))
    ensures var (m, step) := StepHandling(c, p, attempt);
            StepIsCurrent(c, s, m, step)
  {
    var t := TraceOf(p.streamIds, p.versions);
    CurrentTraceIsFullReplay(c.logic, s, t);
    CurrentIffVersionsMatch(c.logic, s, t);
  }

  lemma StepReadingIsCurrent(c: Command, s: Store, p: Phase, attempt: u32)
    requires WellFormed(c.logic) && p.ReadingStreams? && TracksReading(c.logic, s, p)
    requires Current(s, TraceOf(p.streamIds, p.versions))
    ensures var (m, step) := StepReading(c, p, attempt);
            StepIsCurrent(c, s, m, step)
  {
    ScheduledIsVisitedPlusQueue(c, s, Machine(p, attempt));
    assert SkipVisited(p.queue, p.visited) == p.queue by {
      if p.queue != [] { assert p.queue[0] in Elements(p.queue); }
    }
    if p.queue == [] {
      StepHandlingIsCurrent(c, s, Handling(p.streamIds, p.versions, p.state), attempt);
    }
  }

  lemma InitIsCurrent(c: Command, s: Store, attempt: u32)
    requires WellFormed(c.logic)
    ensures var (m, step) := StepOf(c, Machine(Init, attempt));
            StepIsCurrent(c, s, m, step)
  {
    assert TraceOf([], map[]) == Unread;
    StepReadingIsCurrent(c, s, InitialReading(c), attempt);
  }

  /** Ending a stream that was read to its present end keeps the reads current. */
  lemma EndIsCurrent(c: Command, s: Store, maxRetries: u32, m: Machine)
    requires WellFormed(c.logic) && Tracks(c, s, m) && m.phase.AwaitingStreamRead?
    requires Current(s, TraceOf(m.phase.streamIds, m.phase.versions))
    requires m.phase.eventCount == |Stream(s, m.phase.current)|
    ensures var (m', step) := ResumeOf(c, maxRetries, m, StreamEnded);
            StepIsCurrent(c, s, m', step)
  {
    assert ResumeOf(c, maxRetries, m, StreamEnded) == StepReading(c, Ended(c.logic, m.phase), m.attempt);
    EndedTrace(c.logic, s, m.phase);
    EndedTracks(c.logic, s, m.phase);
    StepReadingIsCurrent(c, s, Ended(c.logic, m.phase), m.attempt);
  }

  // ------------------------------------------------------------- the machine in place

  class ExecutePipeline {
    const command: Command
    const maxRetries: u32
    var phase: Phase
    var attempt: u32

    constructor (command: Command, maxRetries: u32)
      ensures this.command == command && this.maxRetries == maxRetries
      ensures Value() == Machine(Init, 0)
    {
      this.command, this.maxRetries := command, maxRetries;
      phase, attempt := Init, 0;
    }

    function Value(): Machine
      reads this
    {
      Machine(phase, attempt)
    }

    method Step() returns (step: PipelineStep)
      modifies this
      ensures (Value(), step) == StepOf(command, old(Value()))
    {
      var taken := phase;
      phase := Finished;
      match taken {
        case Init =>
          step := StepFromInit();
        case ReadingStreams(queue, visited, scheduled, ids, versions, state) =>
          step := StepStreams(queue, visited, scheduled, ids, versions, state);
        case Handling(ids, versions, state) =>
          step := StepHandle(ids, versions, state);
        case Finished =>
          step := Panic("step() called on a completed pipeline");
        case _ =>
          step := Panic(AWAITING);
      }
    }

    method StepFromInit() returns (step: PipelineStep)
      modifies this
      ensures (Value(), step) == StepReading(command, InitialReading(command), old(attempt))
    {
      var declared := command.logic.declared;
      var queue: seq<StreamId>, scheduled: set<StreamId> := [], {};
      var i := 0;
      while i < |declared|
        invariant 0 <= i <= |declared|
        invariant Discovery(queue, scheduled) == Schedule(Discovery([], {}), declared[..i])
        invariant attempt == old(attempt)
      {
        assert declared[..i + 1][..i] == declared[..i];
        if declared[i] !in scheduled {
          queue, scheduled := queue + [declared[i]], scheduled + {declared[i]};
        }
        i := i + 1;
      }
      assert declared[..i] == declared;
      step := StepStreams(queue, {}, scheduled, [], map[], command.logic.initial);
    }

    method StepStreams(queue: seq<StreamId>, visited: set<StreamId>, scheduled: set<StreamId>, ids: seq<StreamId>,
                       versions: map<StreamId, nat>, state: State)
      returns (step: PipelineStep)
      modifies this
      ensures (Value(), step) ==
              StepReading(command, ReadingStreams(queue, visited, scheduled, ids, versions, state), old(attempt))
    {
      var q := queue;
      while q != []
        invariant SkipVisited(queue, visited) == SkipVisited(q, visited)
        invariant attempt == old(attempt)
        decreases |q|
      {
        var id := q[0];
        q := q[1..];
        if id !in visited {
          phase := AwaitingStreamRead(id, q, visited + {id}, scheduled, ids, versions, state, 0);
          return Yield(ReadStream(id));
        }
      }
      step := StepHandle(ids, versions, state);
    }

    method StepHandle(ids: seq<StreamId>, versions: map<StreamId, nat>, state: State)
      returns (step: PipelineStep)
      modifies this
      ensures (Value(), step) == StepHandling(command, Handling(ids, versions, state), old(attempt))
    {
      phase := Finished;
      match command.handle(state) {
        case Ok(events) =>
          var built := BuildStreamWrites(events, versions);
          match built {
            case Ok(writes) =>
              phase := AwaitingAppend(ids);
              step := Yield(AppendEvents(writes));
            case Err(e) =>
              step := Done(Failure(EventStoreError(e)));
          }
        case Err(e) =>
          step := Done(Failure(e));
      }
    }

    method Resume(result: EffectResult) returns (step: PipelineStep)
      modifies this
      ensures (Value(), step) == ResumeOf(command, maxRetries, old(Value()), result)
    {
      var taken := phase;
      phase := Finished;
      match taken {
        case AwaitingStreamRead(_, _, _, _, _, _, _, _) =>
          step := ResumeStream(taken, result);
        case AwaitingAppend(_) =>
          if !result.EventsAppended? {
            return Panic("expected EventsAppended result");
          }
          match result.result {
            case Ok(_) =>
              if attempt == U32_MAX { return Panic("attempts are 1-based"); }
              step := Done(Success(attempt + 1));
            case Err(VersionConflict(_, _, _)) =>
              if attempt < maxRetries {
                attempt := attempt + 1;
                phase := AwaitingRetrySleep;
                step := Yield(Sleep);
              } else {
                step := Done(Failure(ConcurrencyError(maxRetries)));
              }
            case Err(other) =>
              step := Done(Failure(EventStoreError(other)));
          }
        case AwaitingRetrySleep =>
          if !result.Slept? {
            return Panic("expected Slept result");
          }
          phase := Init;
          step := Step();
        case _ =>
          step := Panic("resume() called in wrong phase");
      }
    }

    method ResumeStream(p: Phase, result: EffectResult) returns (step: PipelineStep)
      requires p.AwaitingStreamRead? && phase == Finished
      modifies this
      ensures (Value(), step) == ResumeRead(command, p, old(attempt), result)
    {
      match result {
        case StreamEvent(event) =>
          phase := p.(state := command.logic.apply(p.state, event), eventCount := p.eventCount + 1);
          step := WaitForResult;
        case StreamEnded =>
          var queue, scheduled := p.queue, p.scheduled;
          var found := command.logic.discover(p.state);
          var i := 0;
          while i < |found|
            invariant 0 <= i <= |found|
            invariant Discovery(queue, scheduled) == Schedule(Discovery(p.queue, p.scheduled), found[..i])
            invariant attempt == old(attempt)
          {
            assert found[..i + 1][..i] == found[..i];
            if found[i] !in scheduled {
              queue, scheduled := queue + [found[i]], scheduled + {found[i]};
            }
            i := i + 1;
          }
          assert found[..i] == found;
          step := StepStreams(queue, p.visited, scheduled, p.streamIds + [p.current],
                              p.versions[p.current := p.eventCount], p.state);
        case StreamReadError(e) =>
          step := Done(Failure(EventStoreError(e)));
        case _ =>
          step := Panic("expected a stream read result");
      }
    }
  }
}
