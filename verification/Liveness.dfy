/** Executors that are left alone.  From any reachable system a session at the beginning of an
    attempt, plain or cached, can be run to its end by its own steps, and then it has done what
    its command does when run alone on the store that it found. */
module Liveness {
  import opened Streams
  import opened Writes
  import opened Replay
  import opened Pipeline
  import opened Snapshots
  import opened MemoryStore
  import opened Execute
  import opened Reconstruct
  import opened CachedExecute
  import opened Serializability

  /** The session is over, and the system holds what running the command alone gives. */
  ghost predicate DoneAlone(c: Command, s: Store, p: Session, after: Store)
    requires WellFormed(c.logic)
  {
    && Settled(p)
    && (match RunAlone(c, s)
        case Some(u) => (Succeeded(p) || Panicked(p)) && after == u
        case None => !Succeeded(p) && !Panicked(p) && after == s)
  }

  /** One more action at the end of a run. */
  lemma RunOn(first: System, run: Run, a: Action, logicOf: SnapshotId -> Logic)
    requires Possible(first, run, logicOf) && Enabled(EndOf(first, run), a, logicOf)
    ensures Possible(first, Do(run, a), logicOf) && EndOf(first, Do(run, a)) == Perform(EndOf(first, run), a)
  {
    hide Enabled, Perform;
  }

  lemma ReachableSession(first: System, run: Run, logicOf: SnapshotId -> Logic, k: nat)
    requires Fresh(first, logicOf) && Possible(first, run, logicOf) && k in EndOf(first, run).sessions
    ensures var sys := EndOf(first, run);
            SessionInv(sys.store, sys.sessions[k], logicOf) && SnapshotsFaithful(sys.store, sys.snapshots, logicOf)
  {
    hide Possible, EndOf, Inv;
    FreshKeepsInv(first, run, logicOf);
    InvFacts(first.store, EndOf(first, run), logicOf);
  }

  // ------------------------------------------------------------- plain sessions

  /** All that the session has read in this attempt is still current. */
  ghost predicate PlainCurrent(s: Store, p: Session)
    requires p.Plain?
  {
    && WellFormed(p.command.logic)
    && (match p.shell
        case Dispatching(step) => step != Yield(Sleep) && StepIsCurrent(p.command, s, p.machine, step)
        case PumpingEvents(rest) =>
          p.machine.phase.AwaitingStreamRead? && ReadingAll(s, p.machine, p.machine.phase.current, |rest|))
  }

  ghost function PlainStage(p: Session): nat
    requires p.Plain?
  {
    if p.shell.PumpingEvents? then 2 else StepRank(p.shell.step)
  }

  ghost function PlainLeft(p: Session): nat
    requires p.Plain?
  {
    ToRead(p.command, p.machine.phase)
  }

  /** Opening a stream comes before having its events in hand. */
  ghost function PlainTurn(p: Session): nat
    requires p.Plain?
  {
    if p.shell.PumpingEvents? then 0 else 1
  }

  ghost function PlainHand(p: Session): nat
    requires p.Plain?
  {
    if p.shell.PumpingEvents? then |p.shell.rest| else 0
  }

  /** `q` is nearer to its end than `p`. */
  ghost predicate Nearer(p: Session, q: Session)
    requires p.Plain? && q.Plain?
  {
    || PlainStage(q) < PlainStage(p)
    || (PlainStage(q) == PlainStage(p)
        && (|| PlainLeft(q) < PlainLeft(p)
            || (PlainLeft(q) == PlainLeft(p)
                && (PlainTurn(q) < PlainTurn(p) || (PlainTurn(q) == PlainTurn(p) && PlainHand(q) < PlainHand(p))))))
  }

  /** The session's next step when nothing stands in its way. */
  function NextPlain(k: nat, p: Session): Action
    requires p.Plain?
  {
    if p.shell.PumpingEvents? then (if p.shell.rest == [] then EndStreamStep(k) else DeliverEvent(k, None))
    else if p.shell.step.Yield? && p.shell.step.effect.AppendEvents? then AppendStep(k, None)
    else OpenStreamStep(k, None)
  }

  lemma PlainStepOn(s: Store, p: Session, k: nat)
    requires p.Plain? && PlainInv(s, p) && PlainCurrent(s, p) && !Settled(p)
    requires !CanAppend(p)
    ensures var a := NextPlain(k, p);
            var q := MovedPlain(s, p, a);
            && (a.OpenStreamStep? ==> CanOpen(p)) && (a.DeliverEvent? ==> CanPump(p) && RestOf(p) != [])
            && (a.EndStreamStep? ==> CanPump(p) && RestOf(p) == [])
            && q.Plain? && q.command == p.command && PlainCurrent(s, q)
            && Nearer(p, q)
  {
    hide WellFormed, Tracks, Current, Justified, RunAlone, VersionsMatch, Refuses;
    if p.shell.PumpingEvents? {
      PumpingFacts(p.command, s, p.machine, p.machine.phase.current, p.shell.rest);
      if p.shell.rest == [] {
        EndIsCurrent(p.command, s, p.maxRetries, p.machine);
        EndTracks(p.command, s, p.maxRetries, p.machine);
        if MovedPlain(s, p, EndStreamStep(k)).machine.phase.AwaitingStreamRead? {
          NextReadIsNew(p.command, s, p.maxRetries, p.machine, MovedPlain(s, p, EndStreamStep(k)).machine);
        }
      } else {
        ReadingOn(p.command, s, p.maxRetries, p.machine, p.machine.phase.current, p.shell.rest);
        PumpOne(p.command, s, p.maxRetries, p.machine, p.machine.phase.current, p.shell.rest);
      }
    }
  }

  /** A current append lands. */
  lemma PlainAppendLands(s: Store, p: Session, k: nat)
    requires p.Plain? && PlainInv(s, p) && PlainCurrent(s, p) && CanAppend(p)
    ensures AppendAllowed(s, WritesOf(p), None)
    ensures var q := MovedPlain(s, p, AppendStep(k, None));
            DoneAlone(p.command, s, q, AppendAll(s, WritesOf(p).entries))
  {
    hide WellFormed, Tracks, Justified, RunAlone, VersionsMatch, AppendAll;
    CheckedWritesRunAlone(p.command, s, WritesOf(p));
  }

  lemma SettledIsDone(s: Store, p: Session)
    requires p.Plain? && PlainInv(s, p) && PlainCurrent(s, p) && Settled(p)
    ensures DoneAlone(p.command, s, p, s)
  {
    hide Tracks, RunAlone;
  }

  /** A plain session that is current can be run to its end alone. */
  lemma {:induction false} PlainFinishesAlone(first: System, run: Run, logicOf: SnapshotId -> Logic, k: nat)
    returns (run': Run)
    requires Fresh(first, logicOf) && Possible(first, run, logicOf) && k in EndOf(first, run).sessions
    requires var p := EndOf(first, run).sessions[k]; p.Plain? && PlainCurrent(EndOf(first, run).store, p)
    ensures var (sys, last) := (EndOf(first, run), EndOf(first, run'));
            && Possible(first, run', logicOf) && k in last.sessions
            && DoneAlone(sys.sessions[k].command, sys.store, last.sessions[k], last.store)
    decreases PlainStage(EndOf(first, run).sessions[k]), PlainLeft(EndOf(first, run).sessions[k]),
      PlainTurn(EndOf(first, run).sessions[k]), PlainHand(EndOf(first, run).sessions[k])
  {
    hide Fresh, Possible, EndOf, PlainInv, PlainCurrent, DoneAlone, MovedPlain, Settled, AppendAllowed, RunAlone,
      AppendAll, SnapshotsFaithful;
    var sys := EndOf(first, run);
    var p := sys.sessions[k];
    ReachableSession(first, run, logicOf, k);
    if Settled(p) {
      SettledIsDone(sys.store, p);
      run' := run;
    } else {
      var a := NextPlain(k, p);
      if CanAppend(p) {
        PlainAppendLands(sys.store, p, k);
        RunOn(first, run, a, logicOf);
        run' := Do(run, a);
      } else {
        PlainStepOn(sys.store, p, k);
        RunOn(first, run, a, logicOf);
        run' := PlainFinishesAlone(first, Do(run, a), logicOf, k);
      }
    }
  }

  /** A new plain session that is left alone does what its command does alone. */
  lemma NewPlainSessionFinishes(first: System, run: Run, logicOf: SnapshotId -> Logic, k: nat, c: Command,
                                maxRetries: u32)
    returns (run': Run)
    requires Fresh(first, logicOf) && Possible(first, run, logicOf) && k !in EndOf(first, run).sessions
               && WellFormed(c.logic)
    ensures var (sys, last) := (EndOf(first, run), EndOf(first, run'));
            && Possible(first, run', logicOf) && k in last.sessions
               && DoneAlone(c, sys.store, last.sessions[k], last.store)
  {
    hide Fresh, Possible, EndOf, DoneAlone, WellFormed, StepIsCurrent;
    var a := BeginPlain(k, c, maxRetries);
    RunOn(first, run, a, logicOf);
    InitIsCurrent(c, EndOf(first, run).store, 0);
    InitTracks(c, EndOf(first, run).store, 0);
    NotAsleep(c, EndOf(first, run).store, StepOf(c, Machine(Init, 0)).0, StepOf(c, Machine(Init, 0)).1);
    run' := PlainFinishesAlone(first, Do(run, a), logicOf, k);
  }

  lemma NotAsleep(c: Command, s: Store, m: Machine, step: PipelineStep)
    requires m == StepOf(c, Machine(Init, 0)).0 && step == StepOf(c, Machine(Init, 0)).1
    ensures step != Yield(Sleep)
  {
  }

  /** So does one that wakes up to try again. */
  lemma RetryingPlainSessionFinishes(first: System, run: Run, logicOf: SnapshotId -> Logic, k: nat) returns (run': Run)
    requires Fresh(first, logicOf) && Possible(first, run, logicOf) && k in EndOf(first, run).sessions
    requires EndOf(first, run).sessions[k].Plain? && CanWake(EndOf(first, run).sessions[k])
    ensures var (sys, last) := (EndOf(first, run), EndOf(first, run'));
            && Possible(first, run', logicOf) && k in last.sessions && WellFormed(sys.sessions[k].command.logic)
            && DoneAlone(sys.sessions[k].command, sys.store, last.sessions[k], last.store)
  {
    hide Fresh, Possible, EndOf, DoneAlone, WellFormed, StepIsCurrent, StepOf, SnapshotsFaithful;
    var sys := EndOf(first, run);
    var p := sys.sessions[k];
    ReachableSession(first, run, logicOf, k);
    RunOn(first, run, WakeUp(k), logicOf);
    InitIsCurrent(p.command, sys.store, p.machine.attempt);
    InitTracks(p.command, sys.store, p.machine.attempt);
    WakesUpCurrent(sys.store, p, k);
    run' := PlainFinishesAlone(first, Do(run, WakeUp(k)), logicOf, k);
  }

  lemma WakesUpCurrent(s: Store, p: Session, k: nat)
    requires p.Plain? && PlainInv(s, p) && CanWake(p)
    requires StepIsCurrent(p.command, s, StepOf(p.command, Machine(Init, p.machine.attempt)).0,
                           StepOf(p.command, Machine(Init, p.machine.attempt)).1)
    ensures PlainCurrent(s, MovedPlain(s, p, WakeUp(k)))
  {
    hide WellFormed, StepIsCurrent, Tracks;
  }

  // ------------------------------------------------------------- cached sessions

  /** The checkpoints before number `i` were found without a tail, and have none now. */
  ghost predicate CaughtTo(l: Logic, s: Store, snap: Snapshot, i: nat, t: Trace) {
    IsSnapshotOf(l, s, snap, t) && Current(s, Upto(t, i))
  }

  ghost predicate TailCurrent(l: Logic, s: Store, snap: Snapshot, i: nat, rest: seq<Event>, state: State, count: nat,
                              t: Trace) {
    var u := Upto(t, i + 1);
    && u.Then? && u.before == Upto(t, i)
    && CaughtTo(l, s, snap, i, t) && TailInHand(l, s, snap, i, u, rest, state, count)
    && u.version + count + |rest| == |Stream(s, u.stream)|
  }

  ghost predicate StreamCurrent(l: Logic, s: Store, p: ReplayProgress, rest: seq<Event>, state: State, count: nat,
                                t: Trace) {
    StreamInHand(l, s, p, t, rest, state, count) && Current(s, t) && count + |rest| == |Stream(s, p.queue[0])|
  }

  ghost predicate ProgressCurrent(l: Logic, s: Store, p: ReplayProgress, t: Trace) {
    Represents(l, s, p, t) && Current(s, t)
  }

  ghost predicate ResultCurrent(l: Logic, s: Store, r: Reconstruction, t: Trace) {
    Reconstructed(l, s, r, t) && Current(s, t)
  }

  /** All that the session holds in this attempt is still current. */
  ghost predicate CachedCurrent(c: Command, s: Store, ph: CachedPhase)
    requires WellFormed(c.logic)
  {
    match ph
    case Loading => true
    case CatchingUp(snap, i) => i < |snap.checkpoints| && exists t :: CaughtTo(c.logic, s, snap, i, t)
    case FoldingTail(snap, i, rest, state, count) => exists t :: TailCurrent(c.logic, s, snap, i, rest, state, count, t)
    case Replaying(p, _) => p.queue != [] && exists t :: ProgressCurrent(c.logic, s, p, t)
    case FoldingStream(p, _, rest, state, count) => exists t :: StreamCurrent(c.logic, s, p, rest, state, count, t)
    case Saving(r) => exists t :: ResultCurrent(c.logic, s, r, t)
    case Appending(w) => Justified(c, s, w) && VersionsMatch(s, w.expected)
    case Over(o) => o.Failure? && RunAlone(c, s).None?
    case _ => false
  }

  ghost function CachedStage(ph: CachedPhase): nat {
    match ph
    case Loading => 5
    case CatchingUp(_, _) => 4
    case FoldingTail(_, _, _, _, _) => 4
    case Replaying(_, _) => 3
    case FoldingStream(_, _, _, _, _) => 3
    case Saving(_) => 2
    case Appending(_) => 1
    case _ => 0
  }

  ghost function CachedLeft(l: Logic, ph: CachedPhase): nat {
    match ph
    case CatchingUp(snap, i) => if i <= |snap.checkpoints| then |snap.checkpoints| - i else 0
    case FoldingTail(snap, i, _, _, _) => if i <= |snap.checkpoints| then |snap.checkpoints| - i else 0
    case Replaying(p, _) => |l.universe - p.visited|
    case FoldingStream(p, _, _, _, _) => |l.universe - p.visited|
    case _ => 0
  }

  ghost function CachedTurn(ph: CachedPhase): nat {
    if ph.FoldingTail? || ph.FoldingStream? then 0 else 1
  }

  ghost function CachedHand(ph: CachedPhase): nat {
    if ph.FoldingTail? || ph.FoldingStream? then |ph.rest| else 0
  }

  ghost predicate CachedNearer(l: Logic, p: CachedPhase, q: CachedPhase) {
    || CachedStage(q) < CachedStage(p)
    || (CachedStage(q) == CachedStage(p)
        && (|| CachedLeft(l, q) < CachedLeft(l, p)
            || (CachedLeft(l, q) == CachedLeft(l, p)
                && (CachedTurn(q) < CachedTurn(p)
                    || (CachedTurn(q) == CachedTurn(p) && CachedHand(q) < CachedHand(p))))))
  }

  lemma CaughtCurrent(c: Command, s: Store, snap: Snapshot, i: nat, t: Trace)
    requires WellFormed(c.logic) && CaughtTo(c.logic, s, snap, i, t) && i <= |snap.checkpoints|
    ensures CachedCurrent(c, s, Caught(snap, i))
    ensures CachedStage(Caught(snap, i)) <= 4
    ensures CachedStage(Caught(snap, i)) == 4 ==> CachedLeft(c.logic, Caught(snap, i)) == |snap.checkpoints| - i
  {
    hide WellFormed, IsSnapshotOf, Current, Reconstructed;
    if i == |snap.checkpoints| {
      CaughtUpDone(c.logic, s, snap, t, true);
      assert ResultCurrent(c.logic, s, Reconstruction(snap.state, snap.versions, None), t);
    } else {
      assert CaughtTo(c.logic, s, snap, i, t);
    }
  }

  lemma ContinuedCurrent(c: Command, s: Store, p: ReplayProgress, scratch: bool, t: Trace)
    requires WellFormed(c.logic) && ProgressCurrent(c.logic, s, p, t)
    ensures CachedCurrent(c, s, Continued(p, scratch))
    ensures CachedStage(Continued(p, scratch)) <= 3
    ensures CachedStage(Continued(p, scratch)) == 3 ==>
              CachedLeft(c.logic, Continued(p, scratch)) == |c.logic.universe - p.visited|
  {
    hide WellFormed, Current;
    NothingToSkip(c.logic, s, p, t);
    assert p.(queue := p.queue) == p;
    if p.queue == [] {
      assert ResultCurrent(c.logic, s, ResultOf(p, scratch), t);
    }
  }

  lemma LoadedCurrent(c: Command, s: Store, stored: Option<Snapshot>)
    requires WellFormed(c.logic) && (stored.Some? ==> FaithfulSnapshot(c.logic, s, stored.value))
    ensures CachedCurrent(c, s, Loaded(c.logic, stored)) && CachedStage(Loaded(c.logic, stored)) <= 4
  {
    hide WellFormed, OrderIsValid, CachedCurrent, Continued, Caught, Represents;
    if stored.Some? && OrderIsValid(c.logic, stored.value) {
      var t :| IsSnapshotOf(c.logic, s, stored.value, t);
      CaughtUpStart(c.logic, s, stored.value, t, true);
      CaughtCurrent(c, s, stored.value, 0, t);
    } else {
      ScratchRepresents(c.logic, s);
      ContinuedCurrent(c, s, ReplayProgress(c.logic.initial, c.logic.declared, {}, Elements(c.logic.declared), map[],
                                            []), true, Unread);
    }
  }

  lemma OpenedCurrent(c: Command, s: Store, ph: CachedPhase)
    requires WellFormed(c.logic) && CachedCurrent(c, s, ph) && (ph.CatchingUp? || ph.Replaying?)
    ensures CachedCurrent(c, s, Opened(s, ph)) && CachedNearer(c.logic, ph, Opened(s, ph))
  {
    hide WellFormed, IsSnapshotOf, Current, TailInHand, Represents, FoldedSlice, NextAre;
    if ph.CatchingUp? {
      var t :| CaughtTo(c.logic, s, ph.snap, ph.i, t);
      TailOpenedCurrent(c.logic, s, ph.snap, ph.i, t);
    } else {
      var t :| ProgressCurrent(c.logic, s, ph.p, t);
      StreamOpenedCurrent(c.logic, s, ph.p, t);
    }
  }

  lemma TailOpenedCurrent(l: Logic, s: Store, snap: Snapshot, i: nat, t: Trace)
    requires CaughtTo(l, s, snap, i, t) && i < |snap.checkpoints|
    ensures var c := snap.checkpoints[i];
            && c.stream in c.versions
            && TailCurrent(l, s, snap, i, EventsAfter(s, c.stream, c.versions[c.stream]), c.state, 0, t)
  {
    hide Current, FoldedSlice, NextAre, TailInHand, After, VersionsOf;
    CheckpointAt(l, s, t, i);
    TailIsOpened(l, s, snap, i, t);
    UptoBefore(t, i);
    TailIsEmptyYet(l, s, Upto(t, i + 1), snap.checkpoints, i);
  }

  lemma StreamOpenedCurrent(l: Logic, s: Store, p: ReplayProgress, t: Trace)
    requires ProgressCurrent(l, s, p, t) && p.queue != []
    ensures StreamCurrent(l, s, p, Stream(s, p.queue[0]), p.state, 0, t)
  {
    hide Current, Represents;
    var id := p.queue[0];
    assert Stream(s, id)[0..0] == [] && Stream(s, id)[0..|Stream(s, id)|] == Stream(s, id);
  }

  lemma FoldedCurrent(c: Command, s: Store, ph: CachedPhase)
    requires WellFormed(c.logic) && CachedCurrent(c, s, ph) && (ph.FoldingTail? || ph.FoldingStream?) && ph.rest != []
    ensures CachedCurrent(c, s, Folded(c.logic, ph)) && CachedNearer(c.logic, ph, Folded(c.logic, ph))
  {
    hide WellFormed, FoldedSlice, NextAre, Represents, TailCurrent;
    var next := Folded(c.logic, ph);
    if ph.FoldingTail? {
      var t :| TailCurrent(c.logic, s, ph.snap, ph.i, ph.rest, ph.state, ph.count, t);
      TailFoldedCurrent(c.logic, s, ph.snap, ph.i, ph.rest, ph.state, ph.count, t);
    } else {
      var t :| StreamCurrent(c.logic, s, ph.p, ph.rest, ph.state, ph.count, t);
      SliceOneMore(c.logic, s, ph.p.queue[0], 0, ph.count, ph.p.state, ph.state, ph.rest);
      assert StreamCurrent(c.logic, s, ph.p, next.rest, next.state, next.count, t);
    }
  }

  lemma TailFoldedCurrent(l: Logic, s: Store, snap: Snapshot, i: nat, rest: seq<Event>, state: State, count: nat,
                          t: Trace)
    requires TailCurrent(l, s, snap, i, rest, state, count, t) && rest != []
    ensures TailCurrent(l, s, snap, i, rest[1..], l.apply(state, rest[0]), count + 1, t)
  {
    hide FoldedSlice, NextAre, CaughtTo, CheckpointAfter, Upto, After;
    var u := Upto(t, i + 1);
    SliceOneMore(l, s, u.stream, u.version, count, After(l, s, u).state, state, rest);
  }

  lemma FoldEndedCurrent(c: Command, s: Store, ph: CachedPhase)
    requires WellFormed(c.logic) && CachedCurrent(c, s, ph) && (ph.FoldingTail? || ph.FoldingStream?) && ph.rest == []
    ensures CachedCurrent(c, s, FoldEnded(c.logic, ph)) && CachedNearer(c.logic, ph, FoldEnded(c.logic, ph))
  {
    hide WellFormed, FoldedSlice, NextAre, Represents, IsSnapshotOf, CheckpointAfter, Continued, Caught, Advanced,
      Advance;
    if ph.FoldingTail? {
      var t :| TailCurrent(c.logic, s, ph.snap, ph.i, ph.rest, ph.state, ph.count, t);
      TailEndedCurrent(c, s, ph.snap, ph.i, ph.state, ph.count, t);
    } else {
      var t :| StreamCurrent(c.logic, s, ph.p, ph.rest, ph.state, ph.count, t);
      StreamEndedCurrent(c, s, ph.p, ph.scratch, ph.state, ph.count, t);
    }
  }

  lemma TailEndedCurrent(c: Command, s: Store, snap: Snapshot, i: nat, state: State, count: nat, t: Trace)
    requires WellFormed(c.logic) && TailCurrent(c.logic, s, snap, i, [], state, count, t)
    ensures i < |snap.checkpoints|
    ensures count == 0 ==>
              var q := Caught(snap, i + 1);
              && CachedCurrent(c, s, q) && CachedStage(q) <= 4
              && (CachedStage(q) == 4 ==> CachedLeft(c.logic, q) == |snap.checkpoints| - i - 1)
    ensures count > 0 ==>
              && Resumable(c.logic, snap, i)
              && (var q := Continued(Advanced(c.logic, snap, i, state, count), false);
                  CachedCurrent(c, s, q) && CachedStage(q) <= 3)
  {
    hide WellFormed, FoldedSlice, NextAre, IsSnapshotOf, Continued, Caught, Advanced, CachedCurrent, Represents;
    var u := Upto(t, i + 1);
    assert i < |snap.checkpoints| && u.Then?;
    if count == 0 {
      CurrentExtends(s, Upto(t, i), u);
      CaughtCurrent(c, s, snap, i + 1, t);
    } else {
      AdvancedRepresents(c.logic, s, snap, i, u, state, count);
      ContinuedCurrent(c, s, Advanced(c.logic, snap, i, state, count), false, u.(version := u.version + count));
    }
  }

  lemma StreamEndedCurrent(c: Command, s: Store, p: ReplayProgress, scratch: bool, state: State, count: nat, t: Trace)
    requires WellFormed(c.logic) && StreamCurrent(c.logic, s, p, [], state, count, t)
    ensures p.queue != []
    ensures var q := Continued(Advance(c.logic, p, state, count), scratch);
            && CachedCurrent(c, s, q) && CachedStage(q) <= 3
            && (CachedStage(q) == 3 ==> CachedLeft(c.logic, q) < |c.logic.universe - p.visited|)
  {
    hide FoldedSlice, NextAre, Continued, CachedCurrent;
    ReadNext(c.logic, s, p, t, state, count);
    ContinuedCurrent(c, s, Advance(c.logic, p, state, count), scratch, Then(t, p.queue[0], count));
    FaithfulShape(c.logic, s, t);
    HeadUnvisited(c.logic, p.queue, p.scheduled);
    var left, fewer := c.logic.universe - p.visited, c.logic.universe - (p.visited + {p.queue[0]});
    assert p.queue[0] in left && p.queue[0] !in fewer;
    SmallerSet(fewer, left);
  }

  lemma AfterSaveCurrent(c: Command, s: Store, r: Reconstruction)
    requires WellFormed(c.logic) && CachedCurrent(c, s, Saving(r))
    ensures CachedCurrent(c, s, AfterSave(c, r)) && CachedStage(AfterSave(c, r)) <= 1
  {
    hide WellFormed, FullReplay, VersionsMatch;
    var t :| ResultCurrent(c.logic, s, r, t);
    CurrentTraceIsFullReplay(c.logic, s, t);
    FullReplayIsCurrent(c.logic, s);
    var after := AfterSave(c, r);
    if after.Appending? {
      assert JustifiedBy(c, s, after.writes, t);
    }
  }

  function NextCached(k: nat, ph: CachedPhase): Action {
    match ph
    case Loading => LoadSnapshot(k, None)
    case CatchingUp(_, _) => OpenStreamStep(k, None)
    case Replaying(_, _) => OpenStreamStep(k, None)
    case Saving(_) => SaveStep(k, None)
    case Appending(_) => AppendStep(k, None)
    case _ => if (ph.FoldingTail? || ph.FoldingStream?) && ph.rest != [] then DeliverEvent(k, None)
        else EndStreamStep(k)
  }

  lemma CachedStepOn(s: Store, snapshots: map<SnapshotId, Snapshot>, p: Session, k: nat, logicOf: SnapshotId -> Logic)
    requires p.Cached? && CachedInv(s, p, logicOf) && SnapshotsFaithful(s, snapshots, logicOf)
    requires CachedCurrent(p.command, s, p.phase) && !Settled(p) && !p.phase.Appending?
    ensures var q := MovedCached(s, snapshots, p, NextCached(k, p.phase));
            && q.Cached? && q.command == p.command && CachedCurrent(p.command, s, q.phase)
            && CachedNearer(p.command.logic, p.phase, q.phase)
  {
    hide WellFormed, PhaseInv, Opened, Folded, FoldEnded, Loaded, FaithfulSnapshot, CachedCurrent, AfterSave;
    CurrentPhases(p.command, s, p.phase);
    match p.phase {
      case Loading => LoadedCurrent(p.command, s, if p.id in snapshots then Some(snapshots[p.id]) else None);
      case CatchingUp(_, _) => OpenedCurrent(p.command, s, p.phase);
      case Replaying(_, _) => OpenedCurrent(p.command, s, p.phase);
      case Saving(r) => AfterSaveCurrent(p.command, s, r);
      case FoldingTail(_, _, rest, _, _) =>
        if rest == [] { FoldEndedCurrent(p.command, s, p.phase); } else { FoldedCurrent(p.command, s, p.phase); }
      case FoldingStream(_, _, rest, _, _) =>
        if rest == [] { FoldEndedCurrent(p.command, s, p.phase); } else { FoldedCurrent(p.command, s, p.phase); }
      case _ =>
    }
  }

  lemma CurrentPhases(c: Command, s: Store, ph: CachedPhase)
    requires WellFormed(c.logic) && CachedCurrent(c, s, ph)
    ensures !ph.Sleeping? && !ph.Panicking? && (ph.Over? ==> ph.outcome.Failure? && RunAlone(c, s).None?)
    ensures ph.Appending? ==> Justified(c, s, ph.writes) && VersionsMatch(s, ph.writes.expected)
  {
  }

  lemma CachedAppendLands(s: Store, snapshots: map<SnapshotId, Snapshot>, p: Session, k: nat)
    requires p.Cached? && WellFormed(p.command.logic) && CachedCurrent(p.command, s, p.phase) && p.phase.Appending?
    ensures AppendAllowed(s, WritesOf(p), None)
    ensures DoneAlone(p.command, s, MovedCached(s, snapshots, p, AppendStep(k, None)),
                      AppendAll(s, WritesOf(p).entries))
  {
    hide WellFormed, Justified, RunAlone, VersionsMatch, AppendAll, CachedCurrent;
    CurrentPhases(p.command, s, p.phase);
    CheckedWritesRunAlone(p.command, s, WritesOf(p));
  }

  /** A cached session that is current can be run to its end alone. */
  lemma {:induction false} CachedFinishesAlone(first: System, run: Run, logicOf: SnapshotId -> Logic, k: nat)
    returns (run': Run)
    requires Fresh(first, logicOf) && Possible(first, run, logicOf) && k in EndOf(first, run).sessions
    requires var p := EndOf(first, run).sessions[k];
             p.Cached? && WellFormed(p.command.logic) && CachedCurrent(p.command, EndOf(first, run).store, p.phase)
    ensures var (sys, last) := (EndOf(first, run), EndOf(first, run'));
            && Possible(first, run', logicOf) && k in last.sessions
            && DoneAlone(sys.sessions[k].command, sys.store, last.sessions[k], last.store)
    decreases CachedStage(EndOf(first, run).sessions[k].phase),
      CachedLeft(EndOf(first, run).sessions[k].command.logic, EndOf(first, run).sessions[k].phase),
      CachedTurn(EndOf(first, run).sessions[k].phase), CachedHand(EndOf(first, run).sessions[k].phase)
  {
    hide Fresh, Possible, EndOf, CachedInv, CachedCurrent, DoneAlone, MovedCached, AppendAllowed, RunAlone, AppendAll,
      SnapshotsFaithful, WellFormed, CachedStage, CachedLeft, CachedTurn, CachedHand;
    var sys := EndOf(first, run);
    var p := sys.sessions[k];
    ReachableSession(first, run, logicOf, k);
    CurrentPhases(p.command, sys.store, p.phase);
    if Settled(p) {
      OverIsDone(p.command, sys.store, p);
      run' := run;
    } else {
      var a := NextCached(k, p.phase);
      if p.phase.Appending? {
        CachedAppendLands(sys.store, sys.snapshots, p, k);
        RunOn(first, run, a, logicOf);
        run' := Do(run, a);
      } else {
        CachedStepOn(sys.store, sys.snapshots, p, k, logicOf);
        RunOn(first, run, a, logicOf);
        run' := CachedFinishesAlone(first, Do(run, a), logicOf, k);
      }
    }
  }

  lemma OverIsDone(c: Command, s: Store, p: Session)
    requires WellFormed(c.logic) && p.Cached? && p.phase.Over? && p.phase.outcome.Failure? && RunAlone(c, s).None?
    ensures DoneAlone(c, s, p, s)
  {
    hide RunAlone;
  }

  /** A cached session that is about to load, new or retrying, does alone what its command does. */
  lemma LoadingSessionFinishes(first: System, run: Run, logicOf: SnapshotId -> Logic, k: nat) returns (run': Run)
    requires Fresh(first, logicOf) && Possible(first, run, logicOf) && k in EndOf(first, run).sessions
    requires EndOf(first, run).sessions[k].Cached? && EndOf(first, run).sessions[k].phase.Loading?
    ensures var (sys, last) := (EndOf(first, run), EndOf(first, run'));
            && Possible(first, run', logicOf) && k in last.sessions && WellFormed(sys.sessions[k].command.logic)
            && DoneAlone(sys.sessions[k].command, sys.store, last.sessions[k], last.store)
  {
    hide Fresh, Possible, EndOf, DoneAlone, WellFormed, SnapshotsFaithful;
    ReachableSession(first, run, logicOf, k);
    run' := CachedFinishesAlone(first, run, logicOf, k);
  }

  /** So does one that wakes up to try again. */
  lemma RetryingCachedSessionFinishes(first: System, run: Run, logicOf: SnapshotId -> Logic, k: nat) returns (run': Run)
    requires Fresh(first, logicOf) && Possible(first, run, logicOf) && k in EndOf(first, run).sessions
    requires EndOf(first, run).sessions[k].Cached? && CanWake(EndOf(first, run).sessions[k])
    ensures var (sys, last) := (EndOf(first, run), EndOf(first, run'));
            && Possible(first, run', logicOf) && k in last.sessions && WellFormed(sys.sessions[k].command.logic)
            && DoneAlone(sys.sessions[k].command, sys.store, last.sessions[k], last.store)
  {
    hide Fresh, Possible, EndOf, DoneAlone, WellFormed;
    RunOn(first, run, WakeUp(k), logicOf);
    run' := LoadingSessionFinishes(first, Do(run, WakeUp(k)), logicOf, k);
  }

  // ------------------------------------------------------------- conflicts

  function AttemptOf(p: Session): u32 {
    if p.Plain? then p.machine.attempt else p.attempt
  }

  function OutcomeIs(p: Session, o: PipelineOutcome): bool {
    if p.Plain? then p.shell == Dispatching(Done(o)) else p.phase == Over(o)
  }

  /** An append whose versions moved can only end in a conflict or a failure of the store.  A
      conflict is retried while retries are left, and then reported as what it is. */
  lemma ConflictIsRetried(first: System, run: Run, logicOf: SnapshotId -> Logic, k: nat, e: StoreError)
    requires Fresh(first, logicOf) && Possible(first, run, logicOf) && k in EndOf(first, run).sessions
    requires Enabled(EndOf(first, run), AppendStep(k, Some(e)), logicOf) && e.VersionConflict?
    ensures var (sys, next) := (EndOf(first, run), Perform(EndOf(first, run), AppendStep(k, Some(e))));
            var (p, q) := (sys.sessions[k], next.sessions[k]);
            && !VersionsMatch(sys.store, WritesOf(p).expected) && next.store == sys.store && next.log == sys.log
            && (if AttemptOf(p) < p.maxRetries
                then CanWake(q) && AttemptOf(q) == AttemptOf(p) + 1 && q.maxRetries == p.maxRetries
                else OutcomeIs(q, Failure(ConcurrencyError(p.maxRetries))))
  {
    hide Fresh, Possible, EndOf, SnapshotsFaithful, WellFormed, Justified, IsConflict, VersionsMatch;
    var sys := EndOf(first, run);
    ReachableSession(first, run, logicOf, k);
    ConflictFacts(sys.store, WritesOf(sys.sessions[k]).expected, e);
  }
}
