/** Any number of executors sharing one store, interleaved step by step.

    Opening a stream, delivering one event, ending it, appending, waking up, loading and saving
    a snapshot are separate steps, for a plain session (the pipeline with its shell) as for a
    cached one, which first catches up on its snapshot's checkpoints and then replays.  An
    append can land and still be reported as failed. */
module Serializability {
  import opened Streams
  import opened Writes
  import opened Replay
  import opened Pipeline
  import opened Snapshots
  import opened MemoryStore
  import opened Execute
  import opened Reconstruct
  import opened CachedExecute

  datatype Shell = Dispatching(step: PipelineStep) | PumpingEvents(rest: seq<Event>)

  /** Where a cached session is.  `scratch` says that it replays with no snapshot to start from. */
  datatype CachedPhase =
    | Loading
    | CatchingUp(snap: Snapshot, i: nat)
    | FoldingTail(snap: Snapshot, i: nat, rest: seq<Event>, state: State, count: nat)
    | Replaying(p: ReplayProgress, scratch: bool)
    | FoldingStream(p: ReplayProgress, scratch: bool, rest: seq<Event>, state: State, count: nat)
    | Saving(result: Reconstruction)
    | Appending(writes: StreamWrites)
    | Sleeping
    | Over(outcome: PipelineOutcome)
    | Panicking

  datatype Session =
    | Plain(command: Command, maxRetries: u32, machine: Machine, shell: Shell)
    | Cached(command: Command, maxRetries: u32, id: SnapshotId, phase: CachedPhase, attempt: u32)

  datatype Commit = Commit(session: nat, command: Command)

  /** `lost` are the sessions whose append landed without their learning of it. */
  datatype System = System(
    store: Store,
    snapshots: map<SnapshotId, Snapshot>,
    sessions: map<nat, Session>,
    lost: set<nat>,
    log: seq<Commit>)

  /** One step of one session.  `refused` carries the store's error when it does not accept. */
  datatype Action =
    | BeginPlain(k: nat, command: Command, maxRetries: u32)
    | BeginCached(k: nat, command: Command, maxRetries: u32, id: SnapshotId)
    | OpenStreamStep(k: nat, refused: Option<StoreError>)
    | DeliverEvent(k: nat, refused: Option<StoreError>)
    | EndStreamStep(k: nat)
    | AppendStep(k: nat, refused: Option<StoreError>)
    | LoseAppend(k: nat)
    | WakeUp(k: nat)
    | LoadSnapshot(k: nat, refused: Option<StoreError>)
    | SaveStep(k: nat, refused: Option<StoreError>)

  // ------------------------------------------------------------- steps of a cached session

  /** Checkpoint `i` is looked at next; past the last one the snapshot is up to date. */
  ghost function Caught(snap: Snapshot, i: nat): CachedPhase {
    if i < |snap.checkpoints| then CatchingUp(snap, i) else Saving(Reconstruction(snap.state, snap.versions, None))
  }

  /** A replay from scratch yields a snapshot only once enough was read. */
  ghost function ResultOf(p: ReplayProgress, scratch: bool): Reconstruction {
    var replacement := if scratch && Total(p.versions) < REFRESH_THRESHOLD then None
                       else Some(Snapshot(p.state, p.versions, p.checkpoints));
    Reconstruction(p.state, p.versions, replacement)
  }

  ghost function Continued(p: ReplayProgress, scratch: bool): CachedPhase {
    var q := p.(queue := SkipVisited(p.queue, p.visited));
    if q.queue == [] then Saving(ResultOf(q, scratch)) else Replaying(q, scratch)
  }

  ghost function Loaded(l: Logic, stored: Option<Snapshot>): CachedPhase {
    if stored.Some? && OrderIsValid(l, stored.value) then Caught(stored.value, 0)
    else Continued(ReplayProgress(l.initial, l.declared, {}, Elements(l.declared), map[], []), true)
  }

  function EventsAfter(s: Store, id: StreamId, version: nat): seq<Event> {
    if version <= |Stream(s, id)| then Stream(s, id)[version..] else []
  }

  ghost function Opened(s: Store, ph: CachedPhase): CachedPhase {
    match ph
    case CatchingUp(snap, i) =>
      if i < |snap.checkpoints| && snap.checkpoints[i].stream in snap.checkpoints[i].versions then
        var c := snap.checkpoints[i];
        FoldingTail(snap, i, EventsAfter(s, c.stream, c.versions[c.stream]), c.state, 0)
      else Panicking
    case Replaying(p, scratch) =>
      if p.queue != [] then FoldingStream(p, scratch, Stream(s, p.queue[0]), p.state, 0) else Panicking
    case _ => ph
  }

  ghost function Folded(l: Logic, ph: CachedPhase): CachedPhase {
    match ph
    case FoldingTail(snap, i, rest, state, count) =>
      if rest == [] then ph else FoldingTail(snap, i, rest[1..], l.apply(state, rest[0]), count + 1)
    case FoldingStream(p, scratch, rest, state, count) =>
      if rest == [] then ph else FoldingStream(p, scratch, rest[1..], l.apply(state, rest[0]), count + 1)
    case _ => ph
  }

  /** A checkpoint with a tail is advanced and everything after it replayed; the pops that the
      source expects to succeed are those without which this panics. */
  ghost function FoldEnded(l: Logic, ph: CachedPhase): CachedPhase {
    match ph
    case FoldingTail(snap, i, _, state, count) =>
      if count == 0 then Caught(snap, i + 1)
      else if Resumable(l, snap, i) then Continued(Advanced(l, snap, i, state, count), false)
      else Panicking
    case FoldingStream(p, scratch, _, state, count) =>
      if p.queue != [] then Continued(Advance(l, p, state, count), scratch) else Panicking
    case _ => ph
  }

  function AfterSave(c: Command, r: Reconstruction): CachedPhase {
    match c.handle(r.state)
    case Err(e) => Over(Failure(e))
    case Ok(events) =>
      match BuildWrites(events, r.versions)
      case Err(e) => Over(Failure(EventStoreError(e)))
      case Ok(writes) => Appending(writes)
  }

  /** The arms of the retry loop of the snapshot executor after an append. */
  function AfterAppend(p: Session, refused: Option<StoreError>): Session
    requires p.Cached?
  {
    match refused
    case None => p.(phase := if p.attempt == U32_MAX then Panicking else Over(Success(p.attempt + 1)))
    case Some(e) =>
      if !e.VersionConflict? then p.(phase := Over(Failure(EventStoreError(e))))
      else if p.attempt < p.maxRetries then p.(phase := Sleeping, attempt := p.attempt + 1)
      else p.(phase := Over(Failure(ConcurrencyError(p.maxRetries))))
  }

  // ------------------------------------------------------------- steps of any session

  function Resumed(p: Session, r: EffectResult): Session
    requires p.Plain?
  {
    var (m, step) := ResumeOf(p.command, p.maxRetries, p.machine, r);
    p.(machine := m, shell := Dispatching(step))
  }

  function FailedWith(p: Session, e: StoreError): Session
    requires p.Cached?
  {
    p.(phase := Over(Failure(EventStoreError(e))))
  }

  /** The store accepts a batch only when its versions match, and refuses with a conflict only
      when one exists. */
  ghost predicate AppendAllowed(s: Store, w: StreamWrites, refused: Option<StoreError>) {
    match refused
    case None => VersionsMatch(s, w.expected)
    case Some(e) => e == StoreFailure || IsConflict(s, w.expected, e)
  }

  predicate CanOpen(p: Session) {
    if p.Plain? then p.shell.Dispatching? && p.shell.step.Yield? && p.shell.step.effect.ReadStream?
    else p.phase.CatchingUp? || p.phase.Replaying?
  }

  predicate CanPump(p: Session) {
    if p.Plain? then p.shell.PumpingEvents? else p.phase.FoldingTail? || p.phase.FoldingStream?
  }

  function RestOf(p: Session): seq<Event>
    requires CanPump(p)
  {
    if p.Plain? then p.shell.rest else p.phase.rest
  }

  predicate CanAppend(p: Session) {
    if p.Plain? then p.shell.Dispatching? && p.shell.step.Yield? && p.shell.step.effect.AppendEvents?
    else p.phase.Appending?
  }

  function WritesOf(p: Session): StreamWrites
    requires CanAppend(p)
  {
    if p.Plain? then p.shell.step.effect.writes else p.phase.writes
  }

  predicate CanWake(p: Session) {
    if p.Plain? then p.shell == Dispatching(Yield(Sleep)) else p.phase == Sleeping
  }

  function AppendResult(refused: Option<StoreError>): EffectResult {
    EventsAppended(if refused.None? then Ok(()) else Err(refused.value))
  }

  /** Whether the action's step is possible in the system as it is. */
  ghost predicate Enabled(sys: System, a: Action, logicOf: SnapshotId -> Logic) {
    match a
    case BeginPlain(k, c, _) => k !in sys.sessions && WellFormed(c.logic)
    case BeginCached(k, c, _, id) => k !in sys.sessions && WellFormed(c.logic) && c.logic == logicOf(id)
    case _ =>
      && a.k in sys.sessions
      && (var p := sys.sessions[a.k];
          match a
          case OpenStreamStep(_, _) => CanOpen(p)
          case DeliverEvent(_, _) => CanPump(p) && RestOf(p) != []
          case EndStreamStep(_) => CanPump(p) && RestOf(p) == []
          case AppendStep(_, refused) => CanAppend(p) && AppendAllowed(sys.store, WritesOf(p), refused)
          case LoseAppend(_) => CanAppend(p) && AppendAllowed(sys.store, WritesOf(p), None)
          case WakeUp(_) => CanWake(p)
          case LoadSnapshot(_, _) => p.Cached? && p.phase.Loading?
          case _ => p.Cached? && p.phase.Saving?)
  }

  function Begun(c: Command, max: u32): Session {
    var (m, step) := StepOf(c, Machine(Init, 0));
    Plain(c, max, m, Dispatching(step))
  }

  ghost function MovedPlain(s: Store, p: Session, a: Action): Session
    requires p.Plain?
  {
    match a
    case OpenStreamStep(_, refused) =>
      if !CanOpen(p) then p
      else if refused.Some? then Resumed(p, StreamReadError(refused.value))
      else p.(shell := PumpingEvents(Stream(s, p.shell.step.effect.stream)))
    case DeliverEvent(_, refused) =>
      if !CanPump(p) || RestOf(p) == [] then p
      else if refused.Some? then Resumed(p, StreamReadError(refused.value))
      else Resumed(p, StreamEvent(p.shell.rest[0])).(shell := PumpingEvents(p.shell.rest[1..]))
    case EndStreamStep(_) => Resumed(p, StreamEnded)
    case AppendStep(_, refused) => Resumed(p, AppendResult(refused))
    case LoseAppend(_) => Resumed(p, AppendResult(Some(StoreFailure)))
    case WakeUp(_) => Resumed(p, Slept)
    case _ => p
  }

  ghost function MovedCached(s: Store, snapshots: map<SnapshotId, Snapshot>, p: Session, a: Action): Session
    requires p.Cached?
  {
    match a
    case OpenStreamStep(_, refused) =>
      if refused.Some? then FailedWith(p, refused.value) else p.(phase := Opened(s, p.phase))
    case DeliverEvent(_, refused) =>
      if refused.Some? then FailedWith(p, refused.value) else p.(phase := Folded(p.command.logic, p.phase))
    case EndStreamStep(_) => p.(phase := FoldEnded(p.command.logic, p.phase))
    case AppendStep(_, refused) => AfterAppend(p, refused)
    case LoseAppend(_) => AfterAppend(p, Some(StoreFailure))
    case WakeUp(_) => p.(phase := Loading)
    case LoadSnapshot(_, refused) =>
      if refused.Some? then FailedWith(p, refused.value)
      else p.(phase := Loaded(p.command.logic, if p.id in snapshots then Some(snapshots[p.id]) else None))
    case SaveStep(_, refused) =>
      if !p.phase.Saving? then p
      else if p.phase.result.replacement.Some? && refused.Some? then FailedWith(p, refused.value)
      else p.(phase := AfterSave(p.command, p.phase.result))
    case _ => p
  }

  /** The session after its step. */
  ghost function Moved(s: Store, snapshots: map<SnapshotId, Snapshot>, p: Session, a: Action): Session {
    if p.Plain? then MovedPlain(s, p, a) else MovedCached(s, snapshots, p, a)
  }

  function SavedBy(snapshots: map<SnapshotId, Snapshot>, p: Session,
                   refused: Option<StoreError>): map<SnapshotId, Snapshot> {
    if p.Cached? && p.phase.Saving? && p.phase.result.replacement.Some? && refused.None?
    then Saved(snapshots, p.id, p.phase.result.replacement.value)
    else snapshots
  }

  /** The store takes the session's batch. */
  predicate Lands(a: Action) {
    a.LoseAppend? || (a.AppendStep? && a.refused.None?)
  }

  ghost function Perform(sys: System, a: Action): System {
    if a.BeginPlain? then sys.(sessions := sys.sessions[a.k := Begun(a.command, a.maxRetries)])
    else if a.BeginCached? then sys.(sessions := sys.sessions[a.k := Cached(a.command, a.maxRetries, a.id, Loading, 0)])
    else if a.k !in sys.sessions then sys
    else
      var p := sys.sessions[a.k];
      var moved := sys.(sessions := sys.sessions[a.k := Moved(sys.store, sys.snapshots, p, a)]);
      if Lands(a) && CanAppend(p) then
        moved.(store := AppendAll(sys.store, WritesOf(p).entries), log := sys.log + [Commit(a.k, p.command)],
               lost := if a.LoseAppend? then sys.lost + {a.k} else sys.lost)
      else if a.SaveStep? then moved.(snapshots := SavedBy(sys.snapshots, p, a.refused))
      else moved
  }

  /** A run is the list of actions taken, latest outermost. */
  datatype Run = Nothing | Do(before: Run, action: Action)

  ghost function EndOf(first: System, run: Run): System {
    match run
    case Nothing => first
    case Do(before, a) => Perform(EndOf(first, before), a)
  }

  /** Every action was possible when it was taken. */
  ghost predicate Possible(first: System, run: Run, logicOf: SnapshotId -> Logic) {
    run.Do? ==> Possible(first, run.before, logicOf) && Enabled(EndOf(first, run.before), run.action, logicOf)
  }

  // ------------------------------------------------------------- what every step keeps

  ghost predicate PlainInv(s: Store, p: Session)
    requires p.Plain?
  {
    && WellFormed(p.command.logic)
    && p.machine.attempt <= p.maxRetries
    && (match p.shell
        case Dispatching(step) =>
          step.Done? || (step.Panic? && p.machine.attempt == U32_MAX) || StepTracks(p.command, s, p.machine, step)
        case PumpingEvents(rest) =>
          p.machine.phase.AwaitingStreamRead? && Pumping(p.command, s, p.machine, p.machine.phase.current, rest))
  }

  /** `rest` is what stream `id` holds next after its first `from` events, or a part of it. */
  ghost predicate NextAre(s: Store, id: StreamId, from: nat, rest: seq<Event>) {
    from + |rest| <= |Stream(s, id)| && Stream(s, id)[from..from + |rest|] == rest
  }

  ghost predicate TailInHand(l: Logic, s: Store, snap: Snapshot, i: nat, t: Trace, rest: seq<Event>, state: State,
                             count: nat) {
    TailFound(l, s, snap, i, t, state, count) && NextAre(s, t.stream, t.version + count, rest)
  }

  ghost predicate StreamInHand(l: Logic, s: Store, p: ReplayProgress, t: Trace, rest: seq<Event>, state: State,
                               count: nat) {
    && Represents(l, s, p, t) && p.queue != []
    && FoldedSlice(l, s, p.queue[0], 0, count, p.state, state) && NextAre(s, p.queue[0], count, rest)
  }

  /** What a cached session holds in memory is a faithful partial replay of the store. */
  ghost predicate PhaseInv(c: Command, s: Store, ph: CachedPhase) {
    match ph
    case CatchingUp(snap, i) => i < |snap.checkpoints| && FaithfulSnapshot(c.logic, s, snap)
    case FoldingTail(snap, i, rest, state, count) =>
      FaithfulSnapshot(c.logic, s, snap) && exists t :: TailInHand(c.logic, s, snap, i, t, rest, state, count)
    case Replaying(p, _) => p.queue != [] && exists t :: Represents(c.logic, s, p, t)
    case FoldingStream(p, _, rest, state, count) => exists t :: StreamInHand(c.logic, s, p, t, rest, state, count)
    case Saving(r) => exists t :: Reconstructed(c.logic, s, r, t)
    case Appending(w) => Justified(c, s, w)
    case _ => true
  }

  ghost predicate CachedInv(s: Store, p: Session, logicOf: SnapshotId -> Logic)
    requires p.Cached?
  {
    && WellFormed(p.command.logic) && p.command.logic == logicOf(p.id)
    && p.attempt <= p.maxRetries
    && (p.phase.Panicking? ==> p.attempt == U32_MAX)
    && PhaseInv(p.command, s, p.phase)
  }

  ghost predicate SessionInv(s: Store, p: Session, logicOf: SnapshotId -> Logic) {
    if p.Plain? then PlainInv(s, p) else CachedInv(s, p, logicOf)
  }

  predicate Succeeded(p: Session) {
    if p.Plain? then p.shell.Dispatching? && p.shell.step.Done? && p.shell.step.outcome.Success?
    else p.phase.Over? && p.phase.outcome.Success?
  }

  predicate Panicked(p: Session) {
    if p.Plain? then p.shell.Dispatching? && p.shell.step.Panic? else p.phase.Panicking?
  }

  /** The store failed, which does not tell whether an append landed. */
  predicate FailedByStore(p: Session) {
    var failure := Failure(EventStoreError(StoreFailure));
    if p.Plain? then p.shell == Dispatching(Done(failure)) else p.phase == Over(failure)
  }

  /** No further step is possible. */
  predicate Settled(p: Session) {
    if p.Plain? then p.shell.Dispatching? && (p.shell.step.Done? || p.shell.step.Panic?)
    else p.phase.Over? || p.phase.Panicking?
  }

  /** Running the logged commands one at a time, each alone, from `s`. */
  ghost function RunSerially(s: Store, log: seq<Commit>): Option<Store> {
    if log == [] then Some(s)
    else
      match RunSerially(s, log[..|log| - 1])
      case None => None
      case Some(t) =>
        var c := log[|log| - 1].command;
        if WellFormed(c.logic) then RunAlone(c, t) else None
  }

  function CommitsBy(log: seq<Commit>, k: nat): nat {
    if log == [] then 0
    else CommitsBy(log[..|log| - 1], k) + (if log[|log| - 1].session == k then 1 else 0)
  }

  ghost predicate SnapshotsFaithful(s: Store, snapshots: map<SnapshotId, Snapshot>, logicOf: SnapshotId -> Logic) {
    forall id :: id in snapshots ==> FaithfulSnapshot(logicOf(id), s, snapshots[id])
  }

  ghost predicate SessionsInv(s: Store, sessions: map<nat, Session>, logicOf: SnapshotId -> Logic) {
    forall k :: k in sessions ==> SessionInv(s, sessions[k], logicOf)
  }

  predicate HasLanded(sessions: map<nat, Session>, lost: set<nat>, k: nat) {
    k in lost || (k in sessions && (Succeeded(sessions[k]) || Panicked(sessions[k])))
  }

  /** One commit per session that landed; the lost ones saw the store fail. */
  ghost predicate CountsInv(sessions: map<nat, Session>, lost: set<nat>, log: seq<Commit>) {
    && (forall k: nat :: CommitsBy(log, k) == if HasLanded(sessions, lost, k) then 1 else 0)
    && (forall k :: k in lost ==> k in sessions && FailedByStore(sessions[k]))
  }

  ghost predicate Inv(first: Store, sys: System, logicOf: SnapshotId -> Logic) {
    && RunSerially(first, sys.log) == Some(sys.store)
    && Extends(first, sys.store)
    && SnapshotsFaithful(sys.store, sys.snapshots, logicOf)
    && SessionsInv(sys.store, sys.sessions, logicOf)
    && CountsInv(sys.sessions, sys.lost, sys.log)
  }

  // ------------------------------------------------------------- growth of the store

  lemma NextMonotone(s: Store, u: Store, id: StreamId, from: nat, rest: seq<Event>)
    requires NextAre(s, id, from, rest) && Extends(s, u)
    ensures NextAre(u, id, from, rest)
  {
    assert Stream(s, id) <= Stream(u, id);
  }

  lemma SliceMonotone(l: Logic, s: Store, u: Store, id: StreamId, from: nat, n: nat, start: State, state: State)
    requires FoldedSlice(l, s, id, from, n, start, state) && Extends(s, u)
    ensures FoldedSlice(l, u, id, from, n, start, state)
  {
    assert Stream(s, id) <= Stream(u, id);
    assert Stream(u, id)[from..from + n] == Stream(s, id)[from..from + n];
  }

  lemma TailMonotone(l: Logic, s: Store, u: Store, snap: Snapshot, i: nat, t: Trace, rest: seq<Event>, state: State,
                     count: nat)
    requires TailInHand(l, s, snap, i, t, rest, state, count) && Extends(s, u)
    ensures TailInHand(l, u, snap, i, t, rest, state, count)
  {
    hide Extends, FoldedSlice, NextAre;
    CheckpointAfterMonotone(l, s, u, snap.checkpoints, i, t);
    SliceMonotone(l, s, u, t.stream, t.version, count, After(l, s, t).state, state);
    NextMonotone(s, u, t.stream, t.version + count, rest);
  }

  lemma StreamMonotone(l: Logic, s: Store, u: Store, p: ReplayProgress, t: Trace, rest: seq<Event>, state: State,
                       count: nat)
    requires StreamInHand(l, s, p, t, rest, state, count) && Extends(s, u)
    ensures StreamInHand(l, u, p, t, rest, state, count)
  {
    hide Extends, FoldedSlice, NextAre, Represents;
    RepresentsMonotone(l, s, u, p, t);
    SliceMonotone(l, s, u, p.queue[0], 0, count, p.state, state);
    NextMonotone(s, u, p.queue[0], count, rest);
  }

  lemma PhaseMonotone(c: Command, s: Store, u: Store, ph: CachedPhase)
    requires PhaseInv(c, s, ph) && Extends(s, u)
    ensures PhaseInv(c, u, ph)
  {
    hide Extends, FaithfulSnapshot, TailInHand, StreamInHand, Represents, Reconstructed, Justified;
    match ph {
      case CatchingUp(snap, _) =>
        FaithfulSnapshotMonotone(c.logic, s, u, snap);
      case FoldingTail(snap, i, rest, state, count) =>
        FaithfulSnapshotMonotone(c.logic, s, u, snap);
        var t :| TailInHand(c.logic, s, snap, i, t, rest, state, count);
        TailMonotone(c.logic, s, u, snap, i, t, rest, state, count);
      case Replaying(p, _) =>
        var t :| Represents(c.logic, s, p, t);
        RepresentsMonotone(c.logic, s, u, p, t);
      case FoldingStream(p, _, rest, state, count) =>
        var t :| StreamInHand(c.logic, s, p, t, rest, state, count);
        StreamMonotone(c.logic, s, u, p, t, rest, state, count);
      case Saving(r) =>
        var t :| Reconstructed(c.logic, s, r, t);
        ReconstructionMonotone(c.logic, s, u, r, t);
      case Appending(w) =>
        JustifiedMonotone(c, s, u, w);
      case _ =>
    }
  }

  /** A session's knowledge is not disturbed by anybody's append. */
  lemma SessionMonotone(s: Store, u: Store, p: Session, logicOf: SnapshotId -> Logic)
    requires SessionInv(s, p, logicOf) && Extends(s, u)
    ensures SessionInv(u, p, logicOf)
  {
    hide Extends, PhaseInv, StepTracks, Pumping, WellFormed;
    match p {
      case Plain(c, _, m, Dispatching(step)) =>
        if StepTracks(c, s, m, step) { StepTracksMonotone(c, s, u, m, step); }
      case Plain(c, _, m, PumpingEvents(rest)) =>
        PumpingMonotone(c, s, u, m, m.phase.current, rest);
      case Cached(c, _, _, ph, _) =>
        PhaseMonotone(c, s, u, ph);
    }
  }

  lemma WorldMonotone(s: Store, u: Store, snapshots: map<SnapshotId, Snapshot>, sessions: map<nat, Session>,
                      logicOf: SnapshotId -> Logic)
    requires SnapshotsFaithful(s, snapshots, logicOf) && SessionsInv(s, sessions, logicOf) && Extends(s, u)
    ensures SnapshotsFaithful(u, snapshots, logicOf) && SessionsInv(u, sessions, logicOf)
  {
    hide Extends, FaithfulSnapshot, SessionInv;
    forall id | id in snapshots ensures FaithfulSnapshot(logicOf(id), u, snapshots[id]) {
      FaithfulSnapshotMonotone(logicOf(id), s, u, snapshots[id]);
    }
    forall k | k in sessions ensures SessionInv(u, sessions[k], logicOf) {
      SessionMonotone(s, u, sessions[k], logicOf);
    }
  }

  // ------------------------------------------------------------- steps of a reconstruction

  lemma CaughtKeeps(c: Command, s: Store, snap: Snapshot, i: nat)
    requires FaithfulSnapshot(c.logic, s, snap)
    ensures PhaseInv(c, s, Caught(snap, i))
  {
    if i >= |snap.checkpoints| {
      var t :| IsSnapshotOf(c.logic, s, snap, t);
      assert Reconstructed(c.logic, s, Reconstruction(snap.state, snap.versions, None), t);
    }
  }

  lemma ContinuedKeeps(c: Command, s: Store, p: ReplayProgress, scratch: bool, t: Trace)
    requires WellFormed(c.logic) && Represents(c.logic, s, p, t)
    ensures PhaseInv(c, s, Continued(p, scratch))
  {
    NothingToSkip(c.logic, s, p, t);
    assert p.(queue := p.queue) == p;
    if p.queue == [] {
      assert Reconstructed(c.logic, s, ResultOf(p, scratch), t);
    }
  }

  lemma NothingToSkip(l: Logic, s: Store, p: ReplayProgress, t: Trace)
    requires WellFormed(l) && Represents(l, s, p, t)
    ensures SkipVisited(p.queue, p.visited) == p.queue
  {
    if p.queue != [] && p.queue[0] in p.visited { SkippedNeverWhenFaithful(l, s, p, t); }
  }

  lemma LoadedKeeps(c: Command, s: Store, stored: Option<Snapshot>)
    requires WellFormed(c.logic) && (stored.Some? ==> FaithfulSnapshot(c.logic, s, stored.value))
    ensures PhaseInv(c, s, Loaded(c.logic, stored))
  {
    hide FaithfulSnapshot, OrderIsValid, PhaseInv, Continued;
    if stored.Some? { CaughtKeeps(c, s, stored.value, 0); }
    ScratchRepresents(c.logic, s);
    ContinuedKeeps(c, s, ReplayProgress(c.logic.initial, c.logic.declared, {}, Elements(c.logic.declared), map[], []),
                   true, Unread);
  }

  lemma ScratchRepresents(l: Logic, s: Store)
    requires WellFormed(l)
    ensures Represents(l, s, ReplayProgress(l.initial, l.declared, {}, Elements(l.declared), map[], []), Unread)
  {
    StartPending(l);
  }

  lemma OpenedKeeps(c: Command, s: Store, ph: CachedPhase)
    requires WellFormed(c.logic) && PhaseInv(c, s, ph) && (ph.CatchingUp? || ph.Replaying?)
    ensures PhaseInv(c, s, Opened(s, ph)) && !Opened(s, ph).Panicking? && !Opened(s, ph).Over?
  {
    if ph.CatchingUp? {
      var t0 :| IsSnapshotOf(c.logic, s, ph.snap, t0);
      TailIsOpened(c.logic, s, ph.snap, ph.i, t0);
    } else {
      var t :| Represents(c.logic, s, ph.p, t);
      var id := ph.p.queue[0];
      assert Stream(s, id)[0..0] == [] && Stream(s, id)[0..|Stream(s, id)|] == Stream(s, id);
      assert StreamInHand(c.logic, s, ph.p, t, Stream(s, id), ph.p.state, 0);
    }
  }

  lemma TailIsOpened(l: Logic, s: Store, snap: Snapshot, i: nat, t0: Trace)
    requires IsSnapshotOf(l, s, snap, t0) && i < |snap.checkpoints|
    ensures var c := snap.checkpoints[i];
            && c.stream in c.versions
            && TailInHand(l, s, snap, i, Upto(t0, i + 1), EventsAfter(s, c.stream, c.versions[c.stream]), c.state, 0)
  {
    var t := Upto(t0, i + 1);
    CheckpointAt(l, s, t0, i);
    TailIsEmptyYet(l, s, t, snap.checkpoints, i);
  }

  lemma TailIsEmptyYet(l: Logic, s: Store, t: Trace, cs: seq<Checkpoint>, i: nat)
    requires CheckpointAfter(l, s, cs, i, t)
    ensures cs[i].stream in cs[i].versions && cs[i].versions[cs[i].stream] == t.version <= |Stream(s, t.stream)|
    ensures FoldedSlice(l, s, t.stream, t.version, 0, After(l, s, t).state, cs[i].state)
    ensures NextAre(s, t.stream, t.version, EventsAfter(s, t.stream, t.version))
  {
    assert Stream(s, t.stream)[t.version..t.version] == [];
  }

  /** One more event folded. */
  lemma SliceOneMore(l: Logic, s: Store, id: StreamId, from: nat, n: nat, start: State, state: State, rest: seq<Event>)
    requires FoldedSlice(l, s, id, from, n, start, state) && NextAre(s, id, from + n, rest) && rest != []
    ensures FoldedSlice(l, s, id, from, n + 1, start, l.apply(state, rest[0]))
    ensures NextAre(s, id, from + n + 1, rest[1..])
  {
    var es := Stream(s, id);
    assert es[from..from + n + 1][..n] == es[from..from + n];
    assert es[from + n] == rest[0];
    assert es[from + n + 1..from + n + |rest|] == rest[1..];
  }

  lemma FoldedKeeps(c: Command, s: Store, ph: CachedPhase)
    requires PhaseInv(c, s, ph) && (ph.FoldingTail? || ph.FoldingStream?) && ph.rest != []
    ensures PhaseInv(c, s, Folded(c.logic, ph))
              && (Folded(c.logic, ph).FoldingTail? || Folded(c.logic, ph).FoldingStream?)
  {
    hide FaithfulSnapshot, FoldedSlice, NextAre, Represents, Faithful;
    var next := Folded(c.logic, ph);
    if ph.FoldingTail? {
      var t :| TailInHand(c.logic, s, ph.snap, ph.i, t, ph.rest, ph.state, ph.count);
      SliceOneMore(c.logic, s, t.stream, t.version, ph.count, After(c.logic, s, t).state, ph.state, ph.rest);
      assert TailInHand(c.logic, s, ph.snap, ph.i, t, next.rest, next.state, next.count);
    } else {
      var t :| StreamInHand(c.logic, s, ph.p, t, ph.rest, ph.state, ph.count);
      SliceOneMore(c.logic, s, ph.p.queue[0], 0, ph.count, ph.p.state, ph.state, ph.rest);
      assert StreamInHand(c.logic, s, ph.p, t, next.rest, next.state, next.count);
    }
  }

  lemma FoldEndedKeeps(c: Command, s: Store, ph: CachedPhase)
    requires WellFormed(c.logic) && PhaseInv(c, s, ph) && (ph.FoldingTail? || ph.FoldingStream?)
    ensures PhaseInv(c, s, FoldEnded(c.logic, ph)) && !FoldEnded(c.logic, ph).Panicking?
              && !FoldEnded(c.logic, ph).Over?
  {
    hide WellFormed, FaithfulSnapshot, FoldedSlice, NextAre, Represents, Faithful, Advanced, Advance, Resumable;
    if ph.FoldingTail? {
      var t :| TailInHand(c.logic, s, ph.snap, ph.i, t, ph.rest, ph.state, ph.count);
      CaughtKeeps(c, s, ph.snap, ph.i + 1);
      AdvancedRepresents(c.logic, s, ph.snap, ph.i, t, ph.state, ph.count);
      ContinuedKeeps(c, s, Advanced(c.logic, ph.snap, ph.i, ph.state, ph.count), false,
                     t.(version := t.version + ph.count));
    } else {
      var t :| StreamInHand(c.logic, s, ph.p, t, ph.rest, ph.state, ph.count);
      ReadNext(c.logic, s, ph.p, t, ph.state, ph.count);
      ContinuedKeeps(c, s, Advance(c.logic, ph.p, ph.state, ph.count), ph.scratch, Then(t, ph.p.queue[0], ph.count));
    }
  }

  lemma AfterSaveKeeps(c: Command, s: Store, r: Reconstruction)
    requires PhaseInv(c, s, Saving(r))
    ensures PhaseInv(c, s, AfterSave(c, r)) && !Succeeded(Cached(c, 0, "", AfterSave(c, r), 0))
              && !AfterSave(c, r).Panicking?
  {
    var t :| Reconstructed(c.logic, s, r, t);
    var after := AfterSave(c, r);
    if after.Appending? {
      assert JustifiedBy(c, s, after.writes, t);
    }
  }

  // ------------------------------------------------------------- preservation

  /** Steps that leave the store alone keep the session's own invariant and do not finish it
      well. */
  lemma CachedStepKeeps(s: Store, snapshots: map<SnapshotId, Snapshot>, p: Session, a: Action,
                        logicOf: SnapshotId -> Logic)
    requires p.Cached? && CachedInv(s, p, logicOf) && SnapshotsFaithful(s, snapshots, logicOf)
    requires (a.OpenStreamStep? && CanOpen(p)) || (a.DeliverEvent? && CanPump(p) && RestOf(p) != [])
               || (a.EndStreamStep? && CanPump(p))
          || (a.WakeUp? && CanWake(p)) || (a.LoadSnapshot? && p.phase.Loading?) || (a.SaveStep? && p.phase.Saving?)
    ensures var q := MovedCached(s, snapshots, p, a);
            q.Cached? && CachedInv(s, q, logicOf) && !Succeeded(q) && !Panicked(q)
  {
    hide WellFormed, PhaseInv, Opened, Folded, FoldEnded, Loaded, FaithfulSnapshot;
    if a.OpenStreamStep? {
      OpenedKeeps(p.command, s, p.phase);
    } else if a.DeliverEvent? {
      FoldedKeeps(p.command, s, p.phase);
    } else if a.EndStreamStep? {
      FoldEndedKeeps(p.command, s, p.phase);
    } else if a.LoadSnapshot? {
      LoadedKeeps(p.command, s, if p.id in snapshots then Some(snapshots[p.id]) else None);
      LoadedGoesOn(p.command.logic, if p.id in snapshots then Some(snapshots[p.id]) else None);
    } else if a.SaveStep? {
      AfterSaveKeeps(p.command, s, p.phase.result);
    }
    PhaseIsFree(p.command, s);
  }

  /** Phases that hold nothing of the store. */
  lemma PhaseIsFree(c: Command, s: Store)
    ensures PhaseInv(c, s, Loading) && PhaseInv(c, s, Sleeping) && PhaseInv(c, s, Panicking)
    ensures forall o :: PhaseInv(c, s, Over(o))
  {
  }

  lemma LoadedGoesOn(l: Logic, stored: Option<Snapshot>)
    ensures !Loaded(l, stored).Over? && !Loaded(l, stored).Panicking?
  {
  }

  lemma PlainStepKeeps(s: Store, p: Session, a: Action)
    requires p.Plain? && PlainInv(s, p)
    requires (a.OpenStreamStep? && CanOpen(p)) || (a.DeliverEvent? && CanPump(p) && RestOf(p) != [])
          || (a.EndStreamStep? && CanPump(p) && RestOf(p) == []) || (a.WakeUp? && CanWake(p))
    ensures var q := MovedPlain(s, p, a);
            q.Plain? && PlainInv(s, q) && !Succeeded(q) && !Panicked(q)
  {
    hide WellFormed, TracksReading, TracksHandling, Justified, Faithful, After, VersionsOf;
    if a.EndStreamStep? {
      EndTracks(p.command, s, p.maxRetries, p.machine);
    } else if a.DeliverEvent? && a.refused.None? {
      PumpOne(p.command, s, p.maxRetries, p.machine, p.machine.phase.current, p.shell.rest);
    } else if a.WakeUp? {
      InitTracks(p.command, s, p.machine.attempt);
    }
  }

  /** What an enabled append knows: the writes are justified. */
  lemma AppendIsJustified(s: Store, p: Session, logicOf: SnapshotId -> Logic)
    requires SessionInv(s, p, logicOf) && CanAppend(p)
    ensures WellFormed(p.command.logic) && Justified(p.command, s, WritesOf(p))
  {
    hide Justified, WellFormed, Tracks;
  }

  /** After an append the session has landed exactly when the store accepted. */
  lemma AppendKeeps(s: Store, snapshots: map<SnapshotId, Snapshot>, p: Session, k: nat, refused: Option<StoreError>,
                    logicOf: SnapshotId -> Logic)
    requires SessionInv(s, p, logicOf) && CanAppend(p) && AppendAllowed(s, WritesOf(p), refused)
    ensures var q := Moved(s, snapshots, p, AppendStep(k, refused));
            && SessionInv(s, q, logicOf) && (Succeeded(q) || Panicked(q) <==> refused.None?)
            && (refused == Some(StoreFailure) ==> FailedByStore(q))
    ensures Moved(s, snapshots, p, LoseAppend(k)) == Moved(s, snapshots, p, AppendStep(k, Some(StoreFailure)))
  {
    hide WellFormed, Justified, VersionsMatch, PhaseInv, Tracks, IsConflict;
    PhaseIsFree(p.command, s);
    if p.Plain? { PlainAppendKeeps(s, p, refused); }
  }

  lemma PlainAppendKeeps(s: Store, p: Session, refused: Option<StoreError>)
    requires p.Plain? && PlainInv(s, p) && CanAppend(p) && AppendAllowed(s, WritesOf(p), refused)
    ensures var q := Resumed(p, AppendResult(refused));
            && q.Plain? && PlainInv(s, q) && (Succeeded(q) || Panicked(q) <==> refused.None?)
            && (refused == Some(StoreFailure) ==> FailedByStore(q))
  {
    hide WellFormed, Justified, VersionsMatch, TracksReading, TracksAwaiting, TracksHandling;
  }

  lemma EnabledIsOpen(sys: System, a: Action, logicOf: SnapshotId -> Logic)
    requires Enabled(sys, a, logicOf)
    ensures a.BeginPlain? || a.BeginCached? || (a.k in sys.sessions && !Settled(sys.sessions[a.k]))
  {
  }

  /** A session that did not land replaces one that had not, and nothing is counted. */
  lemma CountsStay(sessions: map<nat, Session>, lost: set<nat>, log: seq<Commit>, k: nat, p: Session)
    requires CountsInv(sessions, lost, log) && !Succeeded(p) && !Panicked(p)
    requires k in sessions ==> !Settled(sessions[k])
    ensures CountsInv(sessions[k := p], lost, log)
  {
    forall j: nat ensures HasLanded(sessions[k := p], lost, j) == HasLanded(sessions, lost, j) {
    }
  }

  lemma CountsCommit(sessions: map<nat, Session>, lost: set<nat>, log: seq<Commit>, k: nat, p: Session, lost': set<nat>,
                     c: Commit)
    requires CountsInv(sessions, lost, log) && c.session == k && k in sessions && !Settled(sessions[k])
    requires if lost' == lost then Succeeded(p) || Panicked(p) else lost' == lost + {k} && FailedByStore(p)
    ensures CountsInv(sessions[k := p], lost', log + [c])
  {
    assert (log + [c])[..|log + [c]| - 1] == log;
    forall j: nat
      ensures CommitsBy(log + [c], j) == if HasLanded(sessions[k := p], lost', j) then 1 else 0
    {
      assert CommitsBy(log + [c], j) == CommitsBy(log, j) + (if c.session == j then 1 else 0);
      assert j != k ==> (HasLanded(sessions[k := p], lost', j) <==> HasLanded(sessions, lost, j));
    }
  }

  /** Replacing one session and the snapshots leaves everything else standing. */
  lemma ReplaceKeepsInv(first: Store, sys: System, k: nat, p: Session, snapshots: map<SnapshotId, Snapshot>,
                        logicOf: SnapshotId -> Logic)
    requires Inv(first, sys, logicOf) && (k in sys.sessions ==> !Settled(sys.sessions[k]))
    requires SessionInv(sys.store, p, logicOf) && !Succeeded(p) && !Panicked(p)
    requires SnapshotsFaithful(sys.store, snapshots, logicOf)
    ensures Inv(first, sys.(sessions := sys.sessions[k := p], snapshots := snapshots), logicOf)
  {
    hide Extends, SessionInv, RunSerially, CountsInv, SnapshotsFaithful;
    CountsStay(sys.sessions, sys.lost, sys.log, k, p);
  }

  /** A commit by session `k`, which is `q` afterwards. */
  lemma CommitKeepsInv(first: Store, sys: System, k: nat, q: Session, w: StreamWrites, lost: set<nat>,
                       logicOf: SnapshotId -> Logic)
    requires Inv(first, sys, logicOf) && k in sys.sessions && !Settled(sys.sessions[k])
    requires WellFormed(sys.sessions[k].command.logic)
    requires Justified(sys.sessions[k].command, sys.store, w) && VersionsMatch(sys.store, w.expected)
    requires SessionInv(sys.store, q, logicOf)
    requires if lost == sys.lost then Succeeded(q) || Panicked(q) else lost == sys.lost + {k} && FailedByStore(q)
    ensures Inv(first, System(AppendAll(sys.store, w.entries), sys.snapshots, sys.sessions[k := q], lost,
                              sys.log + [Commit(k, sys.sessions[k].command)]), logicOf)
  {
    hide Extends, SessionInv, CountsInv, SnapshotsFaithful, AppendAll, WellFormed, Justified, VersionsMatch, RunAlone;
    var grown := AppendAll(sys.store, w.entries);
    CheckedWritesRunAlone(sys.sessions[k].command, sys.store, w);
    AppendAllExtends(sys.store, w.entries);
    ExtendsTransitive(first, sys.store, grown);
    WorldMonotone(sys.store, grown, sys.snapshots, sys.sessions[k := q], logicOf);
    var c := Commit(k, sys.sessions[k].command);
    assert (sys.log + [c])[..|sys.log + [c]| - 1] == sys.log;
    CountsCommit(sys.sessions, sys.lost, sys.log, k, q, lost, c);
  }

  lemma AppendKeepsInv(first: Store, sys: System, a: Action, logicOf: SnapshotId -> Logic)
    requires Inv(first, sys, logicOf) && Enabled(sys, a, logicOf) && (a.AppendStep? || a.LoseAppend?)
    ensures Inv(first, Perform(sys, a), logicOf)
  {
    hide Extends, SessionInv, RunSerially, CountsInv, SnapshotsFaithful, AppendAll, Justified, VersionsMatch, Moved,
      WellFormed;
    var p := sys.sessions[a.k];
    var q := Moved(sys.store, sys.snapshots, p, a);
    AppendIsJustified(sys.store, p, logicOf);
    if a.LoseAppend? {
      AppendKeeps(sys.store, sys.snapshots, p, a.k, Some(StoreFailure), logicOf);
      NotLostYet(sys, a.k);
      CommitKeepsInv(first, sys, a.k, q, WritesOf(p), sys.lost + {a.k}, logicOf);
    } else {
      AppendKeeps(sys.store, sys.snapshots, p, a.k, a.refused, logicOf);
      if a.refused.None? {
        CommitKeepsInv(first, sys, a.k, q, WritesOf(p), sys.lost, logicOf);
      } else {
        ReplaceKeepsInv(first, sys, a.k, q, sys.snapshots, logicOf);
      }
    }
  }

  lemma NotLostYet(sys: System, k: nat)
    requires CountsInv(sys.sessions, sys.lost, sys.log) && k in sys.sessions && !Settled(sys.sessions[k])
    ensures sys.lost + {k} != sys.lost
  {
    assert k in sys.lost ==> FailedByStore(sys.sessions[k]);
  }

  lemma SavedFaithful(s: Store, snapshots: map<SnapshotId, Snapshot>, p: Session, refused: Option<StoreError>,
                      logicOf: SnapshotId -> Logic)
    requires p.Cached? && CachedInv(s, p, logicOf) && p.phase.Saving?
    requires SnapshotsFaithful(s, snapshots, logicOf)
    ensures SnapshotsFaithful(s, SavedBy(snapshots, p, refused), logicOf)
  {
    hide Complete, Covers;
    var r := p.phase.result;
    var t :| Reconstructed(p.command.logic, s, r, t);
    if r.replacement.Some? {
      assert IsSnapshotOf(p.command.logic, s, r.replacement.value, t);
    }
  }

  lemma BeginKeepsInv(first: Store, sys: System, a: Action, logicOf: SnapshotId -> Logic)
    requires Inv(first, sys, logicOf) && Enabled(sys, a, logicOf) && (a.BeginPlain? || a.BeginCached?)
    ensures Inv(first, Perform(sys, a), logicOf)
  {
    hide Inv, Extends, WellFormed, Tracks;
    InvFacts(first, sys, logicOf);
    if a.BeginPlain? {
      InitTracks(a.command, sys.store, 0);
      ReplaceKeepsInv(first, sys, a.k, Begun(a.command, a.maxRetries), sys.snapshots, logicOf);
    } else {
      ReplaceKeepsInv(first, sys, a.k, Cached(a.command, a.maxRetries, a.id, Loading, 0), sys.snapshots, logicOf);
    }
  }

  lemma InvFacts(first: Store, sys: System, logicOf: SnapshotId -> Logic)
    requires Inv(first, sys, logicOf)
    ensures SnapshotsFaithful(sys.store, sys.snapshots, logicOf)
    ensures forall k :: k in sys.sessions ==> SessionInv(sys.store, sys.sessions[k], logicOf)
    ensures CountsInv(sys.sessions, sys.lost, sys.log) && RunSerially(first, sys.log) == Some(sys.store)
  {
  }

  lemma OtherStepKeepsInv(first: Store, sys: System, a: Action, logicOf: SnapshotId -> Logic)
    requires Inv(first, sys, logicOf) && Enabled(sys, a, logicOf)
    requires !a.BeginPlain? && !a.BeginCached? && !a.AppendStep? && !a.LoseAppend?
    ensures Inv(first, Perform(sys, a), logicOf)
  {
    hide Inv, SnapshotsFaithful, CountsInv, PlainInv, CachedInv, MovedPlain, MovedCached, Saved, RunSerially;
    InvFacts(first, sys, logicOf);
    EnabledIsOpen(sys, a, logicOf);
    var p := sys.sessions[a.k];
    if p.Plain? {
      PlainStepKeeps(sys.store, p, a);
    } else {
      CachedStepKeeps(sys.store, sys.snapshots, p, a, logicOf);
    }
    if a.SaveStep? { SavedFaithful(sys.store, sys.snapshots, p, a.refused, logicOf); }
    ReplaceKeepsInv(first, sys, a.k, Moved(sys.store, sys.snapshots, p, a),
                    if a.SaveStep? then SavedBy(sys.snapshots, p, a.refused) else sys.snapshots, logicOf);
  }

  /** Every enabled step of every session keeps the invariant. */
  lemma StepKeepsInv(first: Store, sys: System, a: Action, logicOf: SnapshotId -> Logic)
    requires Inv(first, sys, logicOf) && Enabled(sys, a, logicOf)
    ensures Inv(first, Perform(sys, a), logicOf)
  {
    hide Inv, Perform, Enabled;
    if a.BeginPlain? || a.BeginCached? {
      BeginKeepsInv(first, sys, a, logicOf);
    } else if a.AppendStep? || a.LoseAppend? {
      AppendKeepsInv(first, sys, a, logicOf);
    } else {
      OtherStepKeepsInv(first, sys, a, logicOf);
    }
  }

  lemma {:induction false} RunKeepsInv(first: System, run: Run, logicOf: SnapshotId -> Logic)
    requires Inv(first.store, first, logicOf) && Possible(first, run, logicOf)
    ensures Inv(first.store, EndOf(first, run), logicOf)
  {
    hide Inv, Perform, Enabled;
    if run.Do? {
      RunKeepsInv(first, run.before, logicOf);
      StepKeepsInv(first.store, EndOf(first, run.before), run.action, logicOf);
    }
  }

  /** The system before anybody starts. */
  ghost predicate Fresh(sys: System, logicOf: SnapshotId -> Logic) {
    sys.sessions == map[] && sys.lost == {} && sys.log == [] && SnapshotsFaithful(sys.store, sys.snapshots, logicOf)
  }

  lemma FreshKeepsInv(first: System, run: Run, logicOf: SnapshotId -> Logic)
    requires Fresh(first, logicOf) && Possible(first, run, logicOf)
    ensures Inv(first.store, EndOf(first, run), logicOf)
  {
    hide Possible, EndOf, FaithfulSnapshot;
    RunKeepsInv(first, run, logicOf);
  }

  // ------------------------------------------------------------- the theorems

  /** Serializability.  After any interleaving of any number of plain and cached executions,
      the store is what running the committed commands one at a time, alone, in commit order
      gives.  No session commits twice; one that reports success committed; one that
      committed reported success, or saw the store fail, or panicked. */
  lemma Serializable(first: System, run: Run, logicOf: SnapshotId -> Logic)
    requires Fresh(first, logicOf) && Possible(first, run, logicOf)
    ensures var last := EndOf(first, run);
            && RunSerially(first.store, last.log) == Some(last.store)
            && (forall k: nat :: CommitsBy(last.log, k) <= 1)
            && (forall k: nat :: k in last.sessions && Succeeded(last.sessions[k]) ==> CommitsBy(last.log, k) == 1)
            && (forall k: nat :: CommitsBy(last.log, k) == 1 ==>
                  && k in last.sessions
                  && (Succeeded(last.sessions[k]) || FailedByStore(last.sessions[k]) || Panicked(last.sessions[k])))
  {
    hide Possible, EndOf, Inv, RunSerially, CommitsBy;
    FreshKeepsInv(first, run, logicOf);
    InvFacts(first.store, EndOf(first, run), logicOf);
  }

  /** No append of the run landed without its session's learning of it. */
  predicate NothingLost(run: Run) {
    run.Do? ==> !run.action.LoseAppend? && NothingLost(run.before)
  }

  lemma {:induction false} NothingLostStays(first: System, run: Run)
    requires NothingLost(run) && first.lost == {}
    ensures EndOf(first, run).lost == {}
  {
    if run.Do? { NothingLostStays(first, run.before); }
  }

  /** If no acknowledgement is lost, a session has one commit exactly if it reported success,
      or panicked because that was its last possible attempt, and none otherwise. */
  lemma ExactlyTheSuccessesCommit(first: System, run: Run, logicOf: SnapshotId -> Logic, k: nat)
    requires Fresh(first, logicOf) && Possible(first, run, logicOf) && NothingLost(run)
    ensures var last := EndOf(first, run);
            CommitsBy(last.log, k) ==
            if k in last.sessions && (Succeeded(last.sessions[k]) || Panicked(last.sessions[k])) then 1 else 0
  {
    hide Possible, Inv, RunSerially, CommitsBy, Perform;
    FreshKeepsInv(first, run, logicOf);
    InvFacts(first.store, EndOf(first, run), logicOf);
    NothingLostStays(first, run);
  }

  /** No execution reaches an arm of its shell that the source calls unreachable, and none
      panics except after a commit at the last number its attempt counter can hold, which
      takes the largest retry setting. */
  lemma PanicsOnlyOnLastAttempt(first: System, run: Run, logicOf: SnapshotId -> Logic, k: nat)
    requires Fresh(first, logicOf) && Possible(first, run, logicOf) && k in EndOf(first, run).sessions
    ensures var last, p := EndOf(first, run), EndOf(first, run).sessions[k];
            && (p.Plain? && p.shell.Dispatching? ==> !p.shell.step.WaitForResult?)
            && (Panicked(p) ==> p.maxRetries == U32_MAX && CommitsBy(last.log, k) == 1)
  {
    hide Possible, EndOf, Inv, RunSerially, CommitsBy, WellFormed, Tracks, PhaseInv;
    FreshKeepsInv(first, run, logicOf);
    InvFacts(first.store, EndOf(first, run), logicOf);
    assert SessionInv(EndOf(first, run).store, EndOf(first, run).sessions[k], logicOf);
  }

  /** Every stored snapshot is faithful to the store at every moment of every run. */
  lemma StoredSnapshotsStayFaithful(first: System, run: Run, logicOf: SnapshotId -> Logic)
    requires Fresh(first, logicOf) && Possible(first, run, logicOf)
    ensures SnapshotsFaithful(EndOf(first, run).store, EndOf(first, run).snapshots, logicOf)
  {
    hide Possible, EndOf;
    FreshKeepsInv(first, run, logicOf);
  }

  /** One step replaces a stored version vector only by one that covers it. */
  lemma StepNeverRegresses(sys: System, a: Action, id: SnapshotId)
    requires id in sys.snapshots
    ensures id in Perform(sys, a).snapshots
    ensures Covers(Perform(sys, a).snapshots[id].versions, sys.snapshots[id].versions)
  {
    hide Moved, AppendAll;
    if a.SaveStep? && a.k in sys.sessions {
      var p := sys.sessions[a.k];
      assert Perform(sys, a).snapshots == SavedBy(sys.snapshots, p, a.refused);
    } else {
      assert Perform(sys, a).snapshots == sys.snapshots;
    }
  }

  /** Over a whole run, stale and racing saves included, a stored version vector never loses a
      stream or goes down. */
  lemma {:induction false} VersionVectorsNeverRegress(first: System, run: Run, id: SnapshotId)
    requires id in first.snapshots
    ensures id in EndOf(first, run).snapshots
    ensures Covers(EndOf(first, run).snapshots[id].versions, first.snapshots[id].versions)
    ensures var (earlier, now) := (first.snapshots[id].versions, EndOf(first, run).snapshots[id].versions);
            forall s :: s in earlier ==> s in now && earlier[s] <= now[s]
  {
    hide Perform;
    if run.Do? {
      VersionVectorsNeverRegress(first, run.before, id);
      StepNeverRegresses(EndOf(first, run.before), run.action, id);
    }
  }
}
