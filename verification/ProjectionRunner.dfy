/** The transactional projection runner: one run of one process, at the mercy of its database,
    its projector and whatever other leaders and writers do meanwhile. */
module ProjectionRunner {
  import opened Streams
  import opened Delivery
  import opened ProjectionTables

  datatype Decision = Retry | Skip | Stop | Fatal

  datatype EnvelopeResult = Processed | Skipped | Suppressed | Stopped

  datatype RunError =
    | LeadershipBusy
    | LeadershipLost
    | SourceIdentityMismatch
    | SelectionIdentityMismatch
    | SourceFailed
    | ProgressStore
    | ProgressAt(position: nat)
    | Decode(position: nat)
    | Application(position: nat)
    | RetryExhausted(position: nat, attempts: u32)
    | TooManyRetries
    | CommitIndeterminate(position: nat)
    | AfterCommitFailed(position: nat)
    | ResetFailed
    | ResetIndeterminate

  datatype Config = Config(batchSize: nat, maxRetries: u32, batch: bool)

  /** The constraints that building a configuration enforces. */
  predicate Accepted(c: Config) {
    c.batchSize > 0 && c.maxRetries < U32_MAX
  }

  /** What the k-th access meets: does it fail, has a commit with a lost acknowledgement landed
      all the same, does an application fail and what has it written by then, what does the
      projector decide, what is committed to the source and by other leaders beforehand. */
  datatype World = World(
    fails: nat -> bool,
    landed: nat -> bool,
    spoiled: nat -> Option<ReadModel>,
    decision: nat -> Decision,
    cancelled: nat -> bool,
    arrivals: nat -> seq<Envelope>,
    others: nat -> seq<bool>)

  function IdentityMismatch(p: Projection, progress: Option<Progress>): (r: Option<RunError>)
    ensures r.None? <==> Ours(p, progress)
  {
    if progress.None? then None
    else if progress.value.source != p.source then Some(SourceIdentityMismatch)
    else if progress.value.selection != p.selection.id then Some(SelectionIdentityMismatch)
    else None
  }

  /** Nothing fails, nobody interferes, and every event decodes and applies. */
  ghost predicate Calm(w: World, p: Projection) {
    && (forall k: nat :: !w.fails(k) && w.spoiled(k).None? && w.others(k) == [])
    && forall e :: p.decodes(e)
  }

  /** Some access from `from` on and before `to` failed. */
  ghost predicate FailedIn(w: World, from: nat, to: nat) {
    exists k: nat :: from <= k < to && w.fails(k)
  }

  /** Another leader committed meanwhile. */
  ghost predicate InterferedIn(w: World, from: nat, to: nat) {
    exists k: nat :: from <= k < to && w.others(k) != []
  }

  /** Nothing failed and nobody interfered. */
  ghost predicate Clean(w: World, from: nat, to: nat) {
    !FailedIn(w, from, to) && !InterferedIn(w, from, to)
  }

  lemma CleanPart(w: World, from: nat, to: nat, from': nat, to': nat)
    requires from' <= from && to <= to'
    ensures Clean(w, from', to') ==> Clean(w, from, to)
    ensures FailedIn(w, from, to) ==> FailedIn(w, from', to')
    ensures InterferedIn(w, from, to) ==> InterferedIn(w, from', to')
  {
  }

  /** An application failed, and the projector decided so. */
  ghost predicate DecidedIn(w: World, d: Decision, from: nat, to: nat) {
    exists k: nat :: from <= k < to && w.spoiled(k).Some? && w.decision(k) == d
  }

  /** An access failed: the connection's, the source's, the progress row's, or the commit's. */
  predicate Environmental(e: RunError) {
    || e.LeadershipLost? || e.SourceFailed? || e.ProgressStore? || e.ProgressAt? || e.CommitIndeterminate?
    || e.AfterCommitFailed? || e.ResetIndeterminate?
  }

  /** Every error has a cause that its name says. */
  ghost predicate Explained(p: Projection, w: World, maxRetries: u32, from: nat, to: nat, e: RunError) {
    match e
    case LeadershipBusy => false
    case SourceIdentityMismatch => false
    case SelectionIdentityMismatch => false
    case Decode(_) => exists e: Envelope :: !p.decodes(e)
    case Application(_) => DecidedIn(w, Fatal, from, to)
    case RetryExhausted(_, attempts) => attempts == maxRetries + 1 && DecidedIn(w, Retry, from, to)
    case TooManyRetries => false
    case ResetFailed => exists k: nat :: from <= k < to && w.spoiled(k).Some?
    case _ => FailedIn(w, from, to)
  }

  lemma ExplainedWider(p: Projection, w: World, maxRetries: u32, from: nat, to: nat, from': nat, to': nat, e: RunError)
    requires Explained(p, w, maxRetries, from, to, e) && from' <= from && to <= to'
    ensures Explained(p, w, maxRetries, from', to', e)
  {
  }

  lemma DecidedWider(w: World, d: Decision, from: nat, to: nat, from': nat, to': nat)
    requires DecidedIn(w, d, from, to) && from' <= from && to <= to'
    ensures DecidedIn(w, d, from', to')
  {
  }

  lemma FailureExplains(p: Projection, w: World, maxRetries: u32, from: nat, to: nat, e: RunError)
    requires Environmental(e) && FailedIn(w, from, to)
    ensures Explained(p, w, maxRetries, from, to, e)
  {
  }

  /** The database holding the read model, with its advisory lock. */
  class Destination {
    var tables: Tables
    var locked: bool
    ghost var trail: seq<Handled>

    constructor (initial: ReadModel)
      ensures tables == Tables(initial, None) && trail == [] && !locked
    {
      tables, trail, locked := Tables(initial, None), [], false;
    }

    /** The commit of one transaction. */
    method Commit(tx: Tables, ghost entry: Handled)
      modifies this`tables, this`trail
      ensures tables == tx && trail == old(trail) + [entry]
    {
      tables, trail := tx, trail + [entry];
    }

    /** A session-level lock that does not wait. */
    method AcquireLeader() returns (acquired: bool)
      modifies this`locked
      ensures acquired == !old(locked) && locked
    {
      acquired := !locked;
      locked := true;
    }

    method CommitReset(tx: Tables)
      modifies this`tables, this`trail
      ensures tables == tx && trail == []
    {
      tables, trail := tx, [];
    }
  }

  /** How many accesses it takes to start a transaction and read the progress row. */
  const OPENING: nat := 3

  /** A run that holds the projector's leadership on its own connection. */
  class ProjectionLeader {
    const destination: Destination
    const source: ProjectionSource
    const projection: Projection
    const world: World
    ghost const run: nat
    var tick: nat

    constructor (destination: Destination, source: ProjectionSource, projection: Projection, world: World,
                 ghost run: nat)
      ensures this.destination == destination && this.source == source && this.projection == projection
      ensures this.world == world && this.run == run && tick == 0
    {
      this.destination, this.source, this.projection, this.world := destination, source, projection, world;
      this.run, tick := run, 0;
    }

    ghost function Now(): Picture
      reads this, destination, source
    {
      Picture(source.Value(), destination.tables, destination.trail)
    }

    ghost predicate SourceValid()
      reads this, source
    {
      source.Valid() && source.frontier in source.events.Keys + {0} && source.id == projection.source
    }

    ghost predicate Valid()
      reads this, destination, source
    {
      SourceValid() && Exact(projection, Now())
    }

    ghost function Mine(): Tally
      reads this, destination
    {
      TallyOf(destination.trail, run)
    }

    method Access() returns (ok: bool)
      modifies this`tick
      ensures ok == !world.fails(old(tick)) && tick == old(tick) + 1
    {
      ok := !world.fails(tick);
      tick := tick + 1;
    }

    /** Other processes get in first: writers append, another leader commits. */
    method Meanwhile()
      requires Valid()
      modifies this`tick, source`events, destination`tables, destination`trail
      ensures Valid() && Later(old(Now()), Now()) && Mine() == old(Mine())
      ensures tick == old(tick) + 1
      ensures world.others(old(tick)) == [] ==>
                destination.tables == old(destination.tables) && destination.trail == old(destination.trail)
    {
      ghost var before := Now();
      source.Commit(world.arrivals(tick));
      ExactGrown(projection, before, source.Value());
      var others := world.others(tick);
      tick := tick + 1;
      var i := 0;
      while i < |others|
        invariant Valid() && Later(before, Now()) && Mine() == old(Mine()) && tick == old(tick) + 1
        invariant others == [] ==>
                    destination.tables == old(destination.tables) && destination.trail == old(destination.trail)
      {
        ghost var middle := Now();
        AnotherLeaderCommits(others[i]);
        LaterTransitive(before, middle, Now());
        i := i + 1;
      }
    }

    /** The next selected event that nobody has handled, up to the frontier. */
    method FindNext() returns (n: Option<nat>)
      requires Valid()
      ensures n.Some? ==> NextUp(projection, Now(), n.value) && n.value > Reached(destination.tables.progress)
    {
      var k := Reached(destination.tables.progress);
      while k < source.frontier
        invariant Settled(projection, Now(), k) && Reached(destination.tables.progress) <= k
      {
        if Chosen(source.events, projection.selection, k + 1) {
          return Some(k + 1);
        }
        k := k + 1;
      }
      return None;
    }

    /** Somebody else handles the next selected event, if there is one. */
    method AnotherLeaderCommits(applied: bool)
      requires Valid()
      modifies destination`tables, destination`trail
      ensures Valid() && Later(old(Now()), Now()) && Mine() == old(Mine())
    {
      ghost var before := Now();
      var next := FindNext();
      if next.None? { return; }
      var n := next.value;
      CommitFacts(projection, before, n, applied, run + 1, run);
      var model := if applied then projection.effect(destination.tables.model, source.events[n])
          else destination.tables.model;
      destination.Commit(Tables(model, Some(Progress(projection.source, projection.selection.id, n))),
                         Handled(n, applied, run + 1));
      assert Now() == Committed(projection, before, n, applied, run + 1);
    }

    /** Starts a transaction and re-reads the progress row: the committed tables if `position`
        is still ahead of them, nothing if it was handled already. */
    method OpenIfPending(position: nat) returns (r: Result<Option<Tables>, RunError>)
      requires Valid() && position > 0
      modifies this`tick, source`events, destination`tables, destination`trail
      ensures Valid() && Later(old(Now()), Now()) && Mine() == old(Mine())
      ensures r == Ok(None) ==> position <= Reached(destination.tables.progress)
      ensures r.Ok? && r.value.Some? ==>
                r.value.value == destination.tables && position > Reached(destination.tables.progress)
      ensures r.Err? ==> r.error in {LeadershipLost, ProgressAt(position)}
      ensures old(tick) < tick && (r.Err? ==> FailedIn(world, old(tick), tick))
      ensures !InterferedIn(world, old(tick), tick) ==> destination.tables == old(destination.tables)
      ensures r.Ok? && r.value.Some? ==> tick == old(tick) + OPENING
      ensures Calm(world, projection) ==> r.Ok? && destination.tables == old(destination.tables)
    {
      hide Settled, Chosen, TallyOf, Rebuild, Positions, SelectedIn, Exact, Later;
      Meanwhile();
      ExactIsOurs(projection, Now());
      var ok := Access();
      if !ok { return Err(LeadershipLost); }
      var tx := destination.tables;
      ok := Access();
      var refusal := if ok then IdentityMismatch(projection, tx.progress) else Some(ProgressAt(position));
      if refusal.Some? {
        assert !ok;
        var e := RollBack(refusal.value);
        return Err(e);
      }
      if position > Reached(tx.progress) { return Ok(Some(tx)); }
      ok := Access();
      if !ok { return Err(LeadershipLost); }
      return Ok(None);
    }

    method RollBack(error: RunError) returns (e: RunError)
      modifies this`tick
      ensures e in {error, LeadershipLost} && tick == old(tick) + 1
      ensures e == error || world.fails(old(tick))
    {
      var ok := Access();
      e := if ok then error else LeadershipLost;
    }

    /** Moves the progress row and commits.  A lost acknowledgement leaves it open whether the
        transaction took effect; any other failure leaves the tables alone. */
    method AdvanceAndCommit(tx: Tables, position: nat, applied: bool) returns (r: Result<(), RunError>)
      requires Valid() && NextUp(projection, Now(), position)
      requires position > Reached(destination.tables.progress)
      requires tx.model == Advanced(projection, Now(), position, applied).model
      modifies this`tick, destination`tables, destination`trail
      ensures Valid() && Later(old(Now()), Now())
      ensures r.Ok? ==> Now() == Committed(projection, old(Now()), position, applied, run)
      ensures r.Ok? ==> Mine() == Counted(old(Mine()), Handled(position, applied, run), run)
      ensures r.Err? ==> Mine() in {old(Mine()), Counted(old(Mine()), Handled(position, applied, run), run)}
      ensures r.Err? ==> r.error in {LeadershipLost, ProgressAt(position), CommitIndeterminate(position)}
      ensures old(tick) < tick && (r.Err? ==> FailedIn(world, old(tick), tick))
      ensures r.Err? ==> Now() == old(Now()) || (r.error == CommitIndeterminate(position)
                           && Now() == Committed(projection, old(Now()), position, applied, run))
      ensures Calm(world, projection) ==> r.Ok?
    {
      hide Exact, Later, Settled, Chosen, TallyOf, Rebuild, Counted;
      ghost var before := Now();
      LaterItself(before);
      var ok := Access();
      if !ok {
        var e := RollBack(ProgressAt(position));
        return Err(e);
      }
      var row := tx.(progress := Some(Progress(source.id, projection.selection.id, position)));
      var landed := world.landed(tick);
      ok := Access();
      if ok || landed {
        CommitFacts(projection, before, position, applied, run, run);
        destination.Commit(row, Handled(position, applied, run));
        assert Now() == Committed(projection, before, position, applied, run);
      }
      return if ok then Ok(()) else Err(CommitIndeterminate(position));
    }

    /** Commits the decision to pass over an event. */
    method SkipPosition(position: nat) returns (r: Result<EnvelopeResult, RunError>)
      requires Valid() && NextUp(projection, Now(), position)
      modifies this`tick, source`events, destination`tables, destination`trail
      ensures Valid() && Later(old(Now()), Now())
      ensures r.Ok? ==> r.value.Skipped? || r.value.Suppressed?
      ensures r.Err? ==> r.error in {LeadershipLost, ProgressAt(position), CommitIndeterminate(position)}
      ensures HandledOrFailed(r, position, Now())
      ensures Accounted(r, position, old(Mine()), Mine())
      ensures old(tick) < tick && (r.Err? ==> Environmental(r.error) && FailedIn(world, old(tick), tick))
      ensures r == Ok(Suppressed) && position > Reached(old(destination.tables.progress)) ==>
                InterferedIn(world, old(tick), tick)
      ensures Calm(world, projection) ==> r.Ok?
    {
      hide Exact, Later, Settled, Chosen, TallyOf;
      var pending := OpenIfPending(position);
      if pending.Err? { return Err(pending.error); }
      if pending.value.None? { return Ok(Suppressed); }
      ghost var before := Now();
      NextUpLater(projection, old(Now()), before, position);
      var committed := AdvanceAndCommit(pending.value.value, position, false);
      LaterTransitive(old(Now()), before, Now());
      return if committed.Ok? then Ok(Skipped) else Err(committed.error);
    }
  }

  /** Every result but a stop or an error means that the position is durably handled. */
  ghost predicate HandledOrFailed(r: Result<EnvelopeResult, RunError>, position: nat, now: Picture) {
    r.Ok? && !r.value.Stopped? ==> position <= Reached(now.tables.progress)
  }

  /** A run's counts are exactly its own commits, except where the acknowledgement was lost. */
  ghost predicate Accounted(r: Result<EnvelopeResult, RunError>, position: nat, t: Tally, u: Tally) {
    match r
    case Ok(Processed) => u == t.(processed := t.processed + 1)
    case Ok(Skipped) => u == t.(skipped := t.skipped + 1)
    case Ok(_) => u == t
    case Err(CommitIndeterminate(_)) =>
      u in {t, t.(processed := t.processed + 1), t.(skipped := t.skipped + 1)}
    case Err(AfterCommitFailed(_)) => u == t.(processed := t.processed + 1)
    case Err(_) => u == t
  }

  /** When the `i`th application of an envelope takes place, if it is opened at once each time. */
  function Trial(start: nat, i: nat): nat {
    start + OPENING + i * (1 + OPENING)
  }

  /** Every application before the last failed and was to be retried; the last one decides. */
  ghost predicate AsDecided(w: World, config: Config, decodes: bool, start: nat, position: nat,
                            r: Result<EnvelopeResult, RunError>, tries: nat)
  {
    if !decodes then r == Err(Decode(position)) && tries == 0
    else
      && 1 <= tries <= config.maxRetries + 1
      && (forall i :: 0 <= i < tries - 1 ==> Retried(w, start, i))
      && (var k := Trial(start, tries - 1);
          if w.spoiled(k).None? then r == Ok(Processed)
          else
            match w.decision(k)
            case Retry =>
              && tries == config.maxRetries + 1
              && r.Err? && r.error.RetryExhausted? && r.error.position == position && r.error.attempts == tries
            case Skip => r == Ok(Skipped)
            case Stop => r == Ok(Stopped)
            case Fatal => r == Err(Application(position)))
  }

  ghost predicate Retried(w: World, start: nat, i: nat) {
    w.spoiled(Trial(start, i)).Some? && w.decision(Trial(start, i)) == Retry
  }

  /** `k` failures that are to be retried and then a good application make a processed event. */
  lemma RetriesUntilApplied(w: World, config: Config, start: nat, position: nat, r: Result<EnvelopeResult, RunError>,
                            tries: nat, k: nat)
    requires AsDecided(w, config, true, start, position, r, tries) && k <= config.maxRetries
    requires (forall i :: 0 <= i < k ==> Retried(w, start, i)) && w.spoiled(Trial(start, k)).None?
    ensures r == Ok(Processed) && tries == k + 1
  {
    hide Trial;
    assert tries - 1 > k ==> Retried(w, start, k);
    assert tries - 1 < k ==> Retried(w, start, tries - 1);
  }

  /** The applications before number `n` are past, and now it is its turn. */
  ghost predicate AtTrial(w: World, start: nat, now: nat, n: nat) {
    start <= now && (Clean(w, start, now) ==> now == Trial(start, n) && forall i :: 0 <= i < n ==> Retried(w, start, i))
  }

  lemma AttemptEnds(p: Projection, w: World, config: Config, start: nat, from: nat, to: nat, position: nat,
                    attempt: u32, t: Tried)
    requires Decided(w, from, to, config, position, attempt, t) && t.Over? && from < to
    requires 1 <= attempt <= config.maxRetries + 1 && AtTrial(w, start, from, attempt - 1)
    ensures t.result.Err? ==> Explained(p, w, config.maxRetries, start, to, t.result.error)
    ensures t.result == Ok(Stopped) ==> DecidedIn(w, Stop, start, to)
    ensures Clean(w, start, to) ==> AsDecided(w, config, true, start, position, t.result, attempt)
  {
    hide Clean;
    CleanPart(w, start, from, start, to);
    CleanPart(w, from, to, start, to);
    CleanHas(w, from, to);
  }

  lemma CleanHas(w: World, from: nat, to: nat)
    ensures Clean(w, from, to) ==> !FailedIn(w, from, to) && !InterferedIn(w, from, to)
    ensures Clean(w, from, to) && from < to ==> !w.fails(from)
  {
  }

  lemma AttemptGoesOn(w: World, config: Config, start: nat, from: nat, to: nat, position: nat, attempt: u32, t: Tried)
    requires Decided(w, from, to, config, position, attempt, t) && t.Again? && to == from + 1 + OPENING
    requires 1 <= attempt <= config.maxRetries && AtTrial(w, start, from, attempt - 1)
    ensures AtTrial(w, start, to, attempt)
  {
    hide Clean;
    CleanPart(w, start, from, start, to);
    CleanPart(w, from, to, start, to);
    CleanHas(w, from, to);
  }

  /** Handles one envelope: at most `maxRetries + 1` applications, each in a transaction of its
      own that is dropped unless it commits. */
  method ProcessEnvelope(leader: ProjectionLeader, config: Config, envelope: Envelope)
    returns (r: Result<EnvelopeResult, RunError>, ghost tries: nat)
    requires leader.Valid() && Accepted(config)
    requires NextUp(leader.projection, leader.Now(), envelope.position)
    requires leader.source.events[envelope.position] == envelope
    modifies leader`tick, leader.source`events, leader.destination`tables, leader.destination`trail
    ensures leader.Valid() && Later(old(leader.Now()), leader.Now())
    ensures HandledOrFailed(r, envelope.position, leader.Now())
    ensures Accounted(r, envelope.position, old(leader.Mine()), leader.Mine())
    ensures tries <= config.maxRetries + 1
    ensures r.Err? && r.error.RetryExhausted? ==> tries == r.error.attempts == config.maxRetries + 1
    ensures r != Err(TooManyRetries)
    ensures r == Ok(Stopped) ==> envelope.position > Reached(leader.destination.tables.progress)
    ensures r.Err? && r.error.Decode? ==> !leader.projection.decodes(envelope) && tries == 0
    ensures old(leader.tick) < leader.tick
    ensures r.Err? ==> Explained(leader.projection, leader.world, config.maxRetries, old(leader.tick), leader.tick,
                                 r.error)
    ensures r == Ok(Stopped) ==> DecidedIn(leader.world, Stop, old(leader.tick), leader.tick)
    ensures envelope.position > Reached(old(leader.destination.tables.progress))
            && Clean(leader.world, old(leader.tick), leader.tick) ==>
              AsDecided(leader.world, config, leader.projection.decodes(envelope), old(leader.tick), envelope.position,
                        r, tries)
    ensures Calm(leader.world, leader.projection) ==> r.Ok? && !r.value.Stopped? && tries <= 1
  {
    hide Exact, Later, Settled, Chosen, Explained, AsDecided, FailedIn, Clean, Decided, AtTrial, DecidedIn;
    var position := envelope.position;
    tries := 0;
    ghost var before, start := leader.Now(), leader.tick;
    LaterItself(before);
    var pending := leader.OpenIfPending(position);
    OpeningExplained(leader.projection, leader.world, config, leader.projection.decodes(envelope), start, leader.tick,
                     position);
    if pending.Err? { return Err(pending.error), tries; }
    if pending.value.None? { return Ok(Suppressed), tries; }
    var tx := pending.value.value;
    ghost var now := leader.Now();
    NextUpLater(leader.projection, before, now, position);
    if !leader.projection.decodes(envelope) {
      ghost var begun := leader.tick;
      var e := leader.RollBack(Decode(position));
      NotDecoded(leader.projection, leader.world, config, start, begun, envelope, e);
      return Err(e), tries;
    }
    r, tries := ApplyUntilDecided(leader, config, envelope, tx, start);
    LaterTransitive(before, now, leader.Now());
  }

  /** Applies the envelope in one transaction after the other until the projector, or an error,
      makes an end of it. */
  method ApplyUntilDecided(leader: ProjectionLeader, config: Config, envelope: Envelope, first: Tables,
                           ghost start: nat)
    returns (r: Result<EnvelopeResult, RunError>, ghost tries: nat)
    requires leader.Valid() && Accepted(config)
    requires NextUp(leader.projection, leader.Now(), envelope.position)
    requires leader.source.events[envelope.position] == envelope
    requires first == leader.destination.tables && envelope.position > Reached(first.progress)
    requires start < leader.tick && AtTrial(leader.world, start, leader.tick, 0)
    modifies leader`tick, leader.source`events, leader.destination`tables, leader.destination`trail
    ensures leader.Valid() && Later(old(leader.Now()), leader.Now())
    ensures HandledOrFailed(r, envelope.position, leader.Now())
    ensures Accounted(r, envelope.position, old(leader.Mine()), leader.Mine())
    ensures tries <= config.maxRetries + 1
    ensures r.Err? && r.error.RetryExhausted? ==> tries == r.error.attempts == config.maxRetries + 1
    ensures r.Err? ==> !r.error.TooManyRetries? && !r.error.Decode?
    ensures r == Ok(Stopped) ==> envelope.position > Reached(leader.destination.tables.progress)
    ensures start < leader.tick
    ensures r.Err? ==> Explained(leader.projection, leader.world, config.maxRetries, start, leader.tick, r.error)
    ensures r == Ok(Stopped) ==> DecidedIn(leader.world, Stop, start, leader.tick)
    ensures Clean(leader.world, start, leader.tick) ==>
              AsDecided(leader.world, config, true, start, envelope.position, r, tries)
    ensures Calm(leader.world, leader.projection) ==> r.Ok? && !r.value.Stopped? && tries <= 1
  {
    hide Exact, Later, Settled, Chosen, Explained, AsDecided, FailedIn, Clean, Decided, AtTrial, DecidedIn, NextUp,
      Accounted, HandledOrFailed;
    var position := envelope.position;
    tries := 0;
    var tx := first;
    ghost var before := leader.Now();
    LaterItself(before);
    var attempt: u32 := 1;
    while true
      invariant leader.Valid() && Later(before, leader.Now()) && leader.Mine() == TallyOf(before.trail, leader.run)
      invariant tx == leader.destination.tables && position > Reached(tx.progress)
      invariant 1 <= attempt <= config.maxRetries + 1 && tries == attempt - 1
      invariant start < leader.tick && AtTrial(leader.world, start, leader.tick, attempt - 1)
      invariant Calm(leader.world, leader.projection) ==> attempt == 1
      decreases config.maxRetries + 1 - attempt
    {
      tries := attempt;
      ghost var now, from := leader.Now(), leader.tick;
      NextUpLater(leader.projection, before, now, position);
      var tried := Attempt(leader, config, envelope, tx, attempt);
      LaterTransitive(before, now, leader.Now());
      if tried.Over? {
        AttemptEnds(leader.projection, leader.world, config, start, from, leader.tick, position, attempt, tried);
        r := tried.result;
        return;
      }
      AttemptGoesOn(leader.world, config, start, from, leader.tick, position, attempt, tried);
      tx, attempt := tried.tx, attempt + 1;
    }
  }

  /** What holds when the first transaction for an envelope was to be opened. */
  lemma OpeningExplained(p: Projection, w: World, config: Config, decodes: bool, start: nat, now: nat, position: nat)
    requires start < now
    ensures FailedIn(w, start, now) ==>
              && Explained(p, w, config.maxRetries, start, now, LeadershipLost)
              && Explained(p, w, config.maxRetries, start, now, ProgressAt(position))
              && !Clean(w, start, now)
    ensures InterferedIn(w, start, now) ==> !Clean(w, start, now)
    ensures now == start + OPENING ==> AtTrial(w, start, now, 0)
  {
  }

  lemma NotDecoded(p: Projection, w: World, config: Config, start: nat, begun: nat, envelope: Envelope, e: RunError)
    requires !p.decodes(envelope) && start < begun
               && (e == Decode(envelope.position) || (e == LeadershipLost && w.fails(begun)))
    ensures Explained(p, w, config.maxRetries, start, begun + 1, e)
    ensures Clean(w, start, begun + 1) ==> AsDecided(w, config, false, start, envelope.position, Err(e), 0)
  {
  }

  datatype Tried = Over(result: Result<EnvelopeResult, RunError>) | Again(tx: Tables)

  /** What the projector's verdict on an application leads to, between two moments: errors come
      of failing accesses, and the event is left to others only if others committed. */
  ghost predicate Decided(w: World, from: nat, to: nat, config: Config, position: nat, attempt: u32, t: Tried) {
    && (t.Over? && t.result == Ok(Suppressed) ==> InterferedIn(w, from, to))
    && (if w.spoiled(from).None? then
          t.Over? && (if t.result.Ok? then t.result.value.Processed?
            else Environmental(t.result.error) && FailedIn(w, from, to))
        else if w.fails(from) then t == Over(Err(LeadershipLost))
        else
          match w.decision(from)
          case Retry =>
            if attempt > config.maxRetries then t == Over(Err(RetryExhausted(position, attempt)))
            else t.Over? ==>
              || t.result == Ok(Suppressed)
              || (t.result.Err? && t.result.error in {LeadershipLost, ProgressAt(position)} && FailedIn(w, from, to))
          case Skip =>
            && t.Over?
            && (if t.result.Ok? then t.result.value.Skipped? || t.result.value.Suppressed?
                else Environmental(t.result.error) && FailedIn(w, from, to))
          case Stop => t == Over(Ok(Stopped))
          case Fatal => t == Over(Err(Application(position))))
  }

  /** One application and what follows from it. */
  method Attempt(leader: ProjectionLeader, config: Config, envelope: Envelope, tx: Tables, attempt: u32)
    returns (t: Tried)
    requires leader.Valid() && Accepted(config) && 1 <= attempt <= config.maxRetries + 1
    requires NextUp(leader.projection, leader.Now(), envelope.position)
    requires leader.source.events[envelope.position] == envelope
    requires tx == leader.destination.tables && envelope.position > Reached(tx.progress)
    modifies leader`tick, leader.source`events, leader.destination`tables, leader.destination`trail
    ensures leader.Valid() && Later(old(leader.Now()), leader.Now())
    ensures t.Over? ==> HandledOrFailed(t.result, envelope.position, leader.Now())
    ensures t.Over? ==> Accounted(t.result, envelope.position, old(leader.Mine()), leader.Mine())
    ensures t.Over? && t.result.Err? && t.result.error.RetryExhausted? ==>
              attempt == t.result.error.attempts == config.maxRetries + 1
    ensures t.Over? && t.result.Err? ==> !t.result.error.TooManyRetries? && !t.result.error.Decode?
    ensures t == Over(Ok(Stopped)) ==> envelope.position > Reached(leader.destination.tables.progress)
    ensures t.Again? ==> attempt <= config.maxRetries && leader.Mine() == old(leader.Mine())
    ensures t.Again? ==> t.tx == leader.destination.tables && envelope.position > Reached(t.tx.progress)
    ensures old(leader.tick) < leader.tick && (t.Again? ==> leader.tick == old(leader.tick) + 1 + OPENING)
    ensures Decided(leader.world, old(leader.tick), leader.tick, config, envelope.position, attempt, t)
    ensures Calm(leader.world, leader.projection) ==> t.Over? && t.result.Ok? && !t.result.value.Stopped?
  {
    hide Exact, Later, Settled, Committed, TallyOf, FailedIn, InterferedIn, NextUp, Environmental;
    LaterItself(leader.Now());
    var position := envelope.position;
    ghost var from := leader.tick;
    var spoiled := leader.world.spoiled(leader.tick);
    if spoiled.None? {
      NextIsThere(leader.projection, leader.Now(), position);
      var r := CommitEffect(leader, tx.(model := leader.projection.effect(tx.model, envelope)), position);
      return Over(r);
    }
    // the failed application may have written anything; its transaction is dropped here
    var decision := leader.world.decision(leader.tick);
    var ok := leader.Access();
    if !ok { return Over(Err(LeadershipLost)); }
    match decision {
      case Retry =>
        if attempt > config.maxRetries { return Over(Err(RetryExhausted(position, attempt))); }
        if attempt == U32_MAX { return Over(Err(TooManyRetries)); }
        t := Reopen(leader, position);
        CleanPart(leader.world, from + 1, leader.tick, from, leader.tick);
      case Skip =>
        var r := leader.SkipPosition(position);
        CleanPart(leader.world, from + 1, leader.tick, from, leader.tick);
        return Over(r);
      case Stop => return Over(Ok(Stopped));
      case Fatal => return Over(Err(Application(position)));
    }
  }

  lemma NextIsThere(p: Projection, now: Picture, n: nat)
    requires NextUp(p, now, n)
    ensures n > 0 && n in now.feed.events
  {
  }

  /** A new transaction for an event that is to be tried again. */
  method Reopen(leader: ProjectionLeader, position: nat) returns (t: Tried)
    requires leader.Valid() && position > Reached(leader.destination.tables.progress)
    modifies leader`tick, leader.source`events, leader.destination`tables, leader.destination`trail
    ensures leader.Valid() && Later(old(leader.Now()), leader.Now()) && leader.Mine() == old(leader.Mine())
    ensures old(leader.tick) < leader.tick
    ensures t.Again? ==>
              && t.tx == leader.destination.tables && position > Reached(t.tx.progress)
              && leader.tick == old(leader.tick) + OPENING
    ensures t.Over? ==>
              || (&& t.result == Ok(Suppressed) && position <= Reached(leader.destination.tables.progress)
                  && InterferedIn(leader.world, old(leader.tick), leader.tick))
              || (&& t.result.Err? && t.result.error in {LeadershipLost, ProgressAt(position)}
                  && FailedIn(leader.world, old(leader.tick), leader.tick))
  {
    hide Exact, Later, FailedIn, InterferedIn;
    var pending := leader.OpenIfPending(position);
    if pending.Err? { return Over(Err(pending.error)); }
    return if pending.value.None? then Over(Ok(Suppressed)) else Again(pending.value.value);
  }

  method CommitEffect(leader: ProjectionLeader, tx: Tables, position: nat) returns (r: Result<EnvelopeResult, RunError>)
    requires leader.Valid() && NextUp(leader.projection, leader.Now(), position)
    requires position > Reached(leader.destination.tables.progress)
    requires tx.model == Advanced(leader.projection, leader.Now(), position, true).model
    modifies leader`tick, leader.destination`tables, leader.destination`trail
    ensures leader.Valid() && Later(old(leader.Now()), leader.Now())
    ensures HandledOrFailed(r, position, leader.Now())
    ensures Accounted(r, position, old(leader.Mine()), leader.Mine())
    ensures r.Ok? ==> r.value == Processed
    ensures r.Err? ==> r.error in {LeadershipLost, ProgressAt(position), CommitIndeterminate(position),
                                   AfterCommitFailed(position)}
    ensures old(leader.tick) < leader.tick
    ensures r.Err? ==> Environmental(r.error) && FailedIn(leader.world, old(leader.tick), leader.tick)
    ensures Calm(leader.world, leader.projection) ==> r.Ok?
  {
    hide Exact, Later, Settled, Chosen, NextUp, TallyOf, Rebuild;
    var committed := leader.AdvanceAndCommit(tx, position, true);
    if committed.Err? { return Err(committed.error); }
    var ok := leader.Access();
    return if ok then Ok(Processed) else Err(AfterCommitFailed(position));
  }

  // ------------------------------------------------------------- draining to the frontier

  datatype DrainOutcome = CaughtUp(through: Option<nat>) | StoppedAt(position: nat)

  function Tallied(t: Tally, r: EnvelopeResult): Tally {
    match r
    case Processed => t.(processed := t.processed + 1)
    case Skipped => t.(skipped := t.skipped + 1)
    case _ => t
  }

  /** The first `done` envelopes of the page read from `seen` are settled. */
  ghost predicate OnPage(p: Projection, seen: Feed, now: Picture, page: seq<Envelope>, done: nat, from: nat,
                         through: nat)
  {
    var s := SelectedIn(seen.events, p.selection, from, through);
    && done <= |page| <= |s| && through <= seen.frontier && from <= through
    && (forall i :: 0 <= i < |page| ==> s[i] in seen.events && page[i] == seen.events[s[i]])
    && WellPlaced(seen)
    && Grown(seen, now.feed)
    && Settled(p, now, if done == 0 then from else s[done - 1])
  }

  lemma OnPageNext(p: Projection, seen: Feed, now: Picture, page: seq<Envelope>, done: nat, from: nat, through: nat)
    requires OnPage(p, seen, now, page, done, from, through) && done < |page|
    ensures NextUp(p, now, page[done].position) && now.feed.events[page[done].position] == page[done]
    ensures from < page[done].position <= through
    ensures page[done].position == SelectedIn(seen.events, p.selection, from, through)[done]
  {
    var s := SelectedIn(seen.events, p.selection, from, through);
    var n := s[done];
    SelectedExactly(seen.events, p.selection, from, through);
    assert n in s;
    assert Chosen(seen.events, p.selection, n) && Chosen(now.feed.events, p.selection, n);
    forall k | Reached(now.tables.progress) < k <= n - 1 ensures !Chosen(now.feed.events, p.selection, k) {
      var low := if done == 0 then from else s[done - 1];
      if low < k { NextOnPage(seen.events, p.selection, from, through, done, k); }
    }
  }

  /** Nothing that was committed by then lies beyond `through`. */
  ghost predicate Covers(through: nat, before: Picture) {
    forall n :: n in before.feed.events ==> n <= through
  }

  lemma SettledReaches(p: Projection, now: Picture, after: nat)
    requires Settled(p, now, after)
    ensures after <= now.feed.frontier
  {
  }

  lemma ProgressIsSettled(p: Projection, now: Picture)
    requires Exact(p, now)
    ensures Settled(p, now, Reached(now.tables.progress))
  {
  }

  /** What a cycle claims of its own beginning holds of any earlier moment. */
  lemma DrainedSince(r: Result<DrainOutcome, RunError>, p: Projection, a: Picture, b: Picture, c: Picture)
    requires Later(a, b) && Drained(r, p, b, c)
    ensures Drained(r, p, a, c)
  {
  }

  lemma LaterReaches(a: Picture, b: Picture)
    requires Later(a, b)
    ensures a.feed.frontier <= b.feed.frontier
  {
  }

  lemma CalmAccess(w: World, p: Projection, tick: nat)
    ensures Calm(w, p) ==> !w.fails(tick)
  {
  }

  /** The source's frontier, once the others have had their say. */
  method CaptureFrontier(leader: ProjectionLeader) returns (r: Result<Option<nat>, RunError>)
    requires leader.Valid()
    modifies leader`tick, leader.source`events, leader.source`frontier, leader.destination`tables,
      leader.destination`trail
    ensures leader.Valid() && Later(old(leader.Now()), leader.Now()) && leader.Mine() == old(leader.Mine())
    ensures r.Err? ==> r.error == SourceFailed
    ensures old(leader.tick) < leader.tick && (r.Err? ==> FailedIn(leader.world, old(leader.tick), leader.tick))
    ensures r == Ok(None) ==> old(leader.source.events) == map[]
    ensures r.Ok? && r.value.Some? ==>
              r.value.value == leader.source.frontier && Covers(r.value.value, old(leader.Now()))
    ensures Calm(leader.world, leader.projection) ==> r.Ok?
  {
    hide Exact, Settled, Chosen, TallyOf, Calm;
    leader.Meanwhile();
    CalmAccess(leader.world, leader.projection, leader.tick);
    var ok := leader.Access();
    if !ok { return Err(SourceFailed); }
    ghost var before := leader.Now();
    var w := leader.source.HighWatermark();
    ExactGrown(leader.projection, before, leader.source.Value());
    return Ok(w);
  }

  lemma PageBegins(p: Projection, seen: Feed, now: Picture, page: seq<Envelope>, after: nat, through: nat)
    requires WellPlaced(seen) && now.feed == seen && after <= through <= seen.frontier && Settled(p, now, after)
    requires var s := SelectedIn(seen.events, p.selection, after, through);
             |page| <= |s| && (page == [] ==> s == [])
             && forall i :: 0 <= i < |page| ==> s[i] in seen.events && page[i] == seen.events[s[i]]
    ensures OnPage(p, seen, now, page, 0, after, through)
    ensures page == [] ==> Settled(p, now, through)
  {
    SelectedExactly(seen.events, p.selection, after, through);
  }

  method ReadPage(leader: ProjectionLeader, config: Config, after: nat, through: nat)
    returns (r: Result<seq<Envelope>, RunError>, ghost seen: Feed)
    requires leader.Valid() && Accepted(config) && after <= through <= leader.source.frontier
    requires Settled(leader.projection, leader.Now(), after)
    modifies leader`tick, leader.source`events, leader.destination`tables, leader.destination`trail
    ensures leader.Valid() && Later(old(leader.Now()), leader.Now()) && leader.Mine() == old(leader.Mine())
    ensures r.Err? ==> r.error == SourceFailed
    ensures old(leader.tick) < leader.tick && (r.Err? ==> FailedIn(leader.world, old(leader.tick), leader.tick))
    ensures r.Ok? ==> OnPage(leader.projection, seen, leader.Now(), r.value, 0, after, through)
    ensures r == Ok([]) ==> Settled(leader.projection, leader.Now(), through)
    ensures Calm(leader.world, leader.projection) ==> r.Ok?
  {
    hide Exact, Later, Settled, SelectedIn, Chosen, OnPage;
    leader.Meanwhile();
    SettledLater(leader.projection, old(leader.Now()), leader.Now(), after);
    LaterReaches(old(leader.Now()), leader.Now());
    seen := leader.source.Value();
    var ok := leader.Access();
    if !ok { return Err(SourceFailed), seen; }
    var page := leader.source.ReadEnvelopes(leader.projection.selection, after, through, config.batchSize);
    PageBegins(leader.projection, seen, leader.Now(), page, after, through);
    return Ok(page), seen;
  }

  /** Everything that was committed when the cycle began gets handled, unless the run ends early. */
  ghost predicate Drained(r: Result<DrainOutcome, RunError>, p: Projection, before: Picture, now: Picture) {
    match r
    case Ok(CaughtUp(Some(through))) =>
      Settled(p, now, through) && Covers(through, before)
    case Ok(CaughtUp(None)) => before.feed.events == map[]
    case Ok(StoppedAt(position)) => NextUp(p, now, position) && position > Reached(now.tables.progress)
    case Err(e) => e != TooManyRetries
  }

  /** Handles envelope `i` of a page. */
  method ProcessOne(leader: ProjectionLeader, config: Config, page: seq<Envelope>, ghost seen: Feed, i: nat,
                    ghost from: nat, ghost through: nat, counts: Tally)
    returns (r: Result<EnvelopeResult, RunError>, counts': Tally)
    requires leader.Valid() && Accepted(config) && counts == leader.Mine() && i < |page|
    requires OnPage(leader.projection, seen, leader.Now(), page, i, from, through)
    modifies leader`tick, leader.source`events, leader.destination`tables, leader.destination`trail
    ensures leader.Valid() && Later(old(leader.Now()), leader.Now())
    ensures r.Ok? ==> counts' == leader.Mine()
    ensures from < page[i].position <= through
    ensures r.Ok? && !r.value.Stopped? ==> OnPage(leader.projection, seen, leader.Now(), page, i + 1, from, through)
    ensures r.Ok? && r.value.Stopped? ==>
              && NextUp(leader.projection, leader.Now(), page[i].position)
              && page[i].position > Reached(leader.destination.tables.progress)
    ensures old(leader.tick) < leader.tick && (r.Err? ==> r.error != TooManyRetries)
    ensures r.Err? ==> Explained(leader.projection, leader.world, config.maxRetries, old(leader.tick), leader.tick,
                                 r.error)
    ensures r == Ok(Stopped) ==> DecidedIn(leader.world, Stop, old(leader.tick), leader.tick)
    ensures Calm(leader.world, leader.projection) ==> r.Ok? && !r.value.Stopped?
  {
    hide Exact, SelectedIn, Calm, Chosen, Explained, DecidedIn, AsDecided, Clean, FailedIn;
    ghost var now := leader.Now();
    OnPageNext(leader.projection, seen, now, page, i, from, through);
    ghost var tries;
    r, tries := ProcessEnvelope(leader, config, page[i]);
    NextUpLater(leader.projection, now, leader.Now(), page[i].position);
    GrownTransitive(seen, now.feed, leader.Now().feed);
    counts' := if r.Ok? then Tallied(counts, r.value) else counts;
  }

  lemma OnPageSettled(p: Projection, seen: Feed, now: Picture, page: seq<Envelope>, done: nat, from: nat, through: nat)
    requires OnPage(p, seen, now, page, done, from, through) && done > 0
    ensures Settled(p, now, page[done - 1].position)
  {
    SelectedExactly(seen.events, p.selection, from, through);
    assert SelectedIn(seen.events, p.selection, from, through)[done - 1] in seen.events;
  }

  method ProcessPage(leader: ProjectionLeader, config: Config, page: seq<Envelope>, ghost seen: Feed, after: nat,
                     ghost through: nat, counts: Tally)
    returns (r: Result<Option<nat>, RunError>, after': nat, counts': Tally)
    requires leader.Valid() && Accepted(config) && counts == leader.Mine() && page != []
    requires OnPage(leader.projection, seen, leader.Now(), page, 0, after, through)
    modifies leader`tick, leader.source`events, leader.destination`tables, leader.destination`trail
    ensures leader.Valid() && Later(old(leader.Now()), leader.Now())
    ensures r.Ok? ==> counts' == leader.Mine()
    ensures r == Ok(None) ==> after < after' <= through && Settled(leader.projection, leader.Now(), after')
    ensures r.Ok? && r.value.Some? ==>
              && NextUp(leader.projection, leader.Now(), r.value.value)
              && r.value.value > Reached(leader.destination.tables.progress)
    ensures old(leader.tick) <= leader.tick && (r.Err? ==> r.error != TooManyRetries)
    ensures r.Err? ==> Explained(leader.projection, leader.world, config.maxRetries, old(leader.tick), leader.tick,
                                 r.error)
    ensures r.Ok? && r.value.Some? ==> DecidedIn(leader.world, Stop, old(leader.tick), leader.tick)
    ensures Calm(leader.world, leader.projection) ==> r == Ok(None)
  {
    hide Exact, Later, Settled, NextUp, OnPage, Calm, Explained, DecidedIn;
    after', counts' := after, counts;
    ghost var begun := leader.Now();
    LaterItself(begun);
    var i := 0;
    while i < |page|
      invariant 0 <= i <= |page|
      invariant i > 0 ==> after' == page[i - 1].position && after < after' <= through
      invariant leader.Valid() && Later(begun, leader.Now()) && counts' == leader.Mine()
      invariant OnPage(leader.projection, seen, leader.Now(), page, i, after, through)
      invariant old(leader.tick) <= leader.tick
    {
      ghost var now, tick := leader.Now(), leader.tick;
      after' := page[i].position;
      var result;
      result, counts' := ProcessOne(leader, config, page, seen, i, after, through, counts');
      LaterTransitive(begun, now, leader.Now());
      if result.Err? {
        ExplainedWider(leader.projection, leader.world, config.maxRetries, tick, leader.tick, old(leader.tick),
                       leader.tick, result.error);
        return Err(result.error), after', counts';
      }
      if result.value.Stopped? {
        DecidedWider(leader.world, Stop, tick, leader.tick, old(leader.tick), leader.tick);
        return Ok(Some(after')), after', counts';
      }
      i := i + 1;
    }
    OnPageSettled(leader.projection, seen, leader.Now(), page, |page|, after, through);
    return Ok(None), after', counts';
  }

  method DrainCycle(leader: ProjectionLeader, config: Config, after: nat, counts: Tally)
    returns (r: Result<DrainOutcome, RunError>, after': nat, counts': Tally)
    requires leader.Valid() && Accepted(config) && counts == leader.Mine()
    requires Settled(leader.projection, leader.Now(), after)
    modifies leader`tick, leader.source`events, leader.source`frontier, leader.destination`tables,
      leader.destination`trail
    ensures leader.Valid() && Later(old(leader.Now()), leader.Now())
    ensures r.Ok? ==> counts' == leader.Mine()
    ensures r.Ok? && r.value.CaughtUp? ==> Settled(leader.projection, leader.Now(), after')
    ensures Drained(r, leader.projection, old(leader.Now()), leader.Now())
    ensures old(leader.tick) <= leader.tick
    ensures r.Err? ==> Explained(leader.projection, leader.world, config.maxRetries, old(leader.tick), leader.tick,
                                 r.error)
    ensures r.Ok? && r.value.StoppedAt? ==> DecidedIn(leader.world, Stop, old(leader.tick), leader.tick)
    ensures Calm(leader.world, leader.projection) ==> r.Ok? && r.value.CaughtUp?
  {
    hide Exact, Later, Settled, NextUp, OnPage, Calm, Covers, Explained, DecidedIn, FailedIn;
    after', counts' := after, counts;
    ghost var first := leader.Now();
    var captured := CaptureFrontier(leader);
    SettledLater(leader.projection, old(leader.Now()), leader.Now(), after);
    if captured.Err? {
      FailureExplains(leader.projection, leader.world, config.maxRetries, old(leader.tick), leader.tick,
                      captured.error);
      return Err(captured.error), after', counts';
    }
    if captured.value.None? { return Ok(CaughtUp(None)), after', counts'; }
    var through := captured.value.value;
    ghost var begun := leader.Now();
    LaterItself(begun);
    SettledReaches(leader.projection, begun, after');
    while true
      invariant leader.Valid() && Later(begun, leader.Now()) && counts' == leader.Mine()
      invariant Settled(leader.projection, leader.Now(), after') && after' <= through <= leader.source.frontier
      invariant old(leader.tick) <= leader.tick
      decreases through - after'
    {
      ghost var turn, tick := leader.Now(), leader.tick;
      var page, seen := ReadPage(leader, config, after', through);
      SettledLater(leader.projection, turn, leader.Now(), after');
      LaterTransitive(begun, turn, leader.Now());
      LaterTransitive(first, begun, leader.Now());
      if page.Err? {
        FailureExplains(leader.projection, leader.world, config.maxRetries, tick, leader.tick, page.error);
        ExplainedWider(leader.projection, leader.world, config.maxRetries, tick, leader.tick, old(leader.tick),
                       leader.tick, page.error);
        return Err(page.error), after', counts';
      }
      if page.value == [] {
        return Ok(CaughtUp(Some(through))), after', counts';
      }
      ghost var read, tick' := leader.Now(), leader.tick;
      var stopped;
      stopped, after', counts' := ProcessPage(leader, config, page.value, seen, after', through, counts');
      LaterTransitive(begun, read, leader.Now());
      LaterTransitive(first, begun, leader.Now());
      LaterReaches(begun, leader.Now());
      if stopped.Err? {
        ExplainedWider(leader.projection, leader.world, config.maxRetries, tick', leader.tick, old(leader.tick),
                       leader.tick, stopped.error);
        return Err(stopped.error), after', counts';
      }
      if stopped.value.Some? {
        DecidedWider(leader.world, Stop, tick', leader.tick, old(leader.tick), leader.tick);
        return Ok(StoppedAt(stopped.value.value)), after', counts';
      }
    }
  }

  // ------------------------------------------------------------- whole runs

  datatype RunOutcome =
    | Finished(counts: Tally, through: Option<nat>)
    | Halted(counts: Tally, position: nat)
    | Cancelled(counts: Tally)

  /** The projection is exact, or its progress row belongs to another source or selection. */
  ghost predicate ExactIfOurs(p: Projection, now: Picture) {
    Ours(p, now.tables.progress) ==> Exact(p, now)
  }

  method LoadValidatedProgress(leader: ProjectionLeader) returns (r: Result<nat, RunError>)
    modifies leader`tick
    ensures r.Ok? ==> Ours(leader.projection, leader.destination.tables.progress)
                      && r.value == Reached(leader.destination.tables.progress)
    ensures Calm(leader.world, leader.projection) ==>
              (r.Ok? <==> Ours(leader.projection, leader.destination.tables.progress))
    ensures r.Err? ==> r.error in {LeadershipLost, ProgressStore, SourceIdentityMismatch, SelectionIdentityMismatch}
    ensures old(leader.tick) < leader.tick
    ensures r.Err? ==> (if Environmental(r.error) then FailedIn(leader.world, old(leader.tick), leader.tick)
                        else !Ours(leader.projection, leader.destination.tables.progress))
  {
    var ok := leader.Access();
    if !ok { return Err(LeadershipLost); }
    ok := leader.Access();
    var progress := leader.destination.tables.progress;
    var refusal := if ok then IdentityMismatch(leader.projection, progress) else Some(ProgressStore);
    if refusal.Some? {
      var e := leader.RollBack(refusal.value);
      return Err(e);
    }
    ok := leader.Access();
    return if ok then Ok(Reached(progress)) else Err(LeadershipLost);
  }

  /** What a run may claim when it ends. */
  ghost predicate RunClaims(r: Result<RunOutcome, RunError>, p: Projection, before: Picture, now: Picture,
                            mine: Tally) {
    match r
    case Ok(Finished(counts, through)) =>
      counts == mine && Drained(Ok(CaughtUp(through)), p, before, now)
    case Ok(Halted(counts, position)) =>
      counts == mine && NextUp(p, now, position) && position > Reached(now.tables.progress)
    case Ok(Cancelled(counts)) => counts == mine && exists through :: Drained(Ok(CaughtUp(through)), p, before, now)
    case Err(e) => e != TooManyRetries
  }

  method Release(leader: ProjectionLeader, outcome: RunOutcome) returns (r: Result<RunOutcome, RunError>)
    modifies leader`tick
    ensures r in {Ok(outcome), Err(LeadershipLost)} && leader.tick == old(leader.tick) + 1
    ensures r.Err? ==> leader.world.fails(old(leader.tick))
    ensures Calm(leader.world, leader.projection) ==> r.Ok?
  {
    var ok := leader.Access();
    return if ok then Ok(outcome) else Err(LeadershipLost);
  }

  /** One cycle of a run that began at `begun`. */
  method DrainOnce(leader: ProjectionLeader, config: Config, after: nat, counts: Tally, ghost begun: Picture,
                   ghost start: nat)
    returns (r: Result<DrainOutcome, RunError>, after': nat, counts': Tally)
    requires leader.Valid() && Accepted(config) && counts == leader.Mine()
    requires Settled(leader.projection, leader.Now(), after) && Later(begun, leader.Now()) && start <= leader.tick
    modifies leader`tick, leader.source`events, leader.source`frontier, leader.destination`tables,
      leader.destination`trail
    ensures leader.Valid() && Later(begun, leader.Now()) && start <= leader.tick
    ensures r.Ok? ==> counts' == leader.Mine()
    ensures r.Ok? && r.value.CaughtUp? ==> Settled(leader.projection, leader.Now(), after')
    ensures Drained(r, leader.projection, begun, leader.Now())
    ensures r.Err? ==>
              && r.error != TooManyRetries
              && Explained(leader.projection, leader.world, config.maxRetries, start, leader.tick, r.error)
    ensures r.Ok? && r.value.StoppedAt? ==> DecidedIn(leader.world, Stop, start, leader.tick)
    ensures Calm(leader.world, leader.projection) ==> r.Ok? && r.value.CaughtUp?
  {
    hide Exact, Later, NextUp, Settled, Calm, Covers, Explained, DecidedIn, Drained;
    ghost var turn, tick := leader.Now(), leader.tick;
    r, after', counts' := DrainCycle(leader, config, after, counts);
    DrainedSince(r, leader.projection, begun, turn, leader.Now());
    LaterTransitive(begun, turn, leader.Now());
    NeverTooMany(r, leader.projection, begun, leader.Now());
    if r.Err? {
      ExplainedWider(leader.projection, leader.world, config.maxRetries, tick, leader.tick, start, leader.tick,
                     r.error);
    } else if r.value.StoppedAt? {
      DecidedWider(leader.world, Stop, tick, leader.tick, start, leader.tick);
    }
  }

  /** Gives leadership up after the last cycle and says what became of the run. */
  method Conclude(leader: ProjectionLeader, config: Config, last: DrainOutcome, counts: Tally, ghost begun: Picture,
                  ghost start: nat)
    returns (r: Result<RunOutcome, RunError>)
    requires counts == leader.Mine() && start <= leader.tick
               && Drained(Ok(last), leader.projection, begun, leader.Now())
    requires last.StoppedAt? ==> DecidedIn(leader.world, Stop, start, leader.tick)
    modifies leader`tick
    ensures start <= leader.tick
    ensures RunClaims(r, leader.projection, begun, leader.Now(), leader.Mine())
    ensures r.Err? ==>
              Explained(leader.projection, leader.world, config.maxRetries, start, leader.tick, r.error)
    ensures r.Ok? ==>
              && (r.value.Halted? <==> last.StoppedAt?)
              && (last.CaughtUp? ==> (r.value.Finished? <==> config.batch))
              && (r.value.Halted? ==> DecidedIn(leader.world, Stop, start, leader.tick))
    ensures Calm(leader.world, leader.projection) ==> r.Ok?
  {
    hide Exact, NextUp, Settled, Calm, Covers, Explained, DecidedIn, FailedIn, Drained;
    ReleaseExplained(leader.projection, leader.world, config.maxRetries, start, leader.tick);
    NeverTooMany(Ok(last), leader.projection, begun, leader.Now());
    match last {
      case StoppedAt(position) =>
        DecidedWider(leader.world, Stop, start, leader.tick, start, leader.tick + 1);
        r := Release(leader, Halted(counts, position));
      case CaughtUp(through) =>
        r := Release(leader, if config.batch then Finished(counts, through) else Cancelled(counts));
    }
  }

  /** One run, from loading progress to its outcome.  `polls` is how many idle waits pass before
      the one in which cancellation is observed in continuous mode. */
  method RunWithLeader(leader: ProjectionLeader, config: Config, polls: nat) returns (r: Result<RunOutcome, RunError>)
    requires leader.SourceValid() && Accepted(config) && leader.Mine() == Tally(0, 0)
    requires ExactIfOurs(leader.projection, leader.Now())
    modifies leader`tick, leader.source`events, leader.source`frontier, leader.destination`tables,
      leader.destination`trail
    ensures leader.SourceValid() && Later(old(leader.Now()), leader.Now())
    ensures ExactIfOurs(leader.projection, leader.Now())
    ensures old(Exact(leader.projection, leader.Now())) ==> Exact(leader.projection, leader.Now())
    ensures RunClaims(r, leader.projection, old(leader.Now()), leader.Now(), leader.Mine())
    ensures !Ours(leader.projection, old(leader.destination.tables.progress)) ==>
              r.Err? && leader.Now() == old(leader.Now())
    ensures r.Err? && Ours(leader.projection, old(leader.destination.tables.progress)) ==>
              Explained(leader.projection, leader.world, config.maxRetries, old(leader.tick), leader.tick, r.error)
    ensures r.Ok? && r.value.Halted? ==> DecidedIn(leader.world, Stop, old(leader.tick), leader.tick)
    ensures old(leader.tick) <= leader.tick
    ensures r.Ok? ==> if r.value.Halted? then true else (r.value.Finished? <==> config.batch)
    ensures Calm(leader.world, leader.projection)
              && Ours(leader.projection, old(leader.destination.tables.progress)) ==>
              r.Ok? && !r.value.Halted? && (config.batch ==> r.value.Finished?)
  {
    hide Exact, Later, NextUp, Settled, Calm, Covers, Explained, DecidedIn, FailedIn, Drained;
    ghost var begun, start := leader.Now(), leader.tick;
    LaterItself(begun);
    var loaded := LoadValidatedProgress(leader);
    if loaded.Err? {
      if Environmental(loaded.error) {
        FailureExplains(leader.projection, leader.world, config.maxRetries, start, leader.tick, loaded.error);
      }
      return Err(loaded.error);
    }
    var after, counts, polled := loaded.value, Tally(0, 0), 0;
    ProgressIsSettled(leader.projection, begun);
    while true
      invariant leader.Valid() && Later(begun, leader.Now()) && counts == leader.Mine()
      invariant Settled(leader.projection, leader.Now(), after) && polled <= polls && start <= leader.tick
      decreases polls - polled
    {
      var cycle;
      cycle, after, counts := DrainOnce(leader, config, after, counts, begun, start);
      if cycle.Err? { return Err(cycle.error); }
      if cycle.value.StoppedAt? || config.batch || polled == polls {
        r := Conclude(leader, config, cycle.value, counts, begun, start);
        return;
      }
      polled := polled + 1;
    }
  }

  lemma NeverTooMany(r: Result<DrainOutcome, RunError>, p: Projection, before: Picture, now: Picture)
    requires Drained(r, p, before, now)
    ensures r.Err? ==> r.error != TooManyRetries
    ensures r.Ok? && r.value.StoppedAt? ==>
              NextUp(p, now, r.value.position) && r.value.position > Reached(now.tables.progress)
  {
  }

  lemma ReleaseExplained(p: Projection, w: World, maxRetries: u32, start: nat, now: nat)
    requires start <= now
    ensures w.fails(now) ==> Explained(p, w, maxRetries, start, now + 1, LeadershipLost)
  {
    if w.fails(now) { assert FailedIn(w, start, now + 1); }
  }

  /** A run number no entry of the trail carries. */
  function FreshRun(trail: seq<Handled>): nat {
    if trail == [] then 0
    else
      var before, last := FreshRun(trail[..|trail| - 1]), trail[|trail| - 1].run;
      if last < before then before else last + 1
  }

  lemma {:induction false} FreshRunTally(trail: seq<Handled>, run: nat)
    requires run >= FreshRun(trail)
    ensures TallyOf(trail, run) == Tally(0, 0)
  {
    if trail != [] { FreshRunTally(trail[..|trail| - 1], run); }
  }

  /** A reset fails with an access, or because the projector could not reinitialise its model. */
  ghost predicate ResetExplained(w: World, from: nat, to: nat, e: RunError) {
    if e.ResetFailed? then exists k: nat :: from <= k < to && w.spoiled(k).Some?
    else Environmental(e) && FailedIn(w, from, to)
  }

  /** Reinitialises the read model and deletes the progress row in one transaction. */
  method ResetWithLeader(leader: ProjectionLeader) returns (r: Result<(), RunError>)
    requires leader.SourceValid() && ExactIfOurs(leader.projection, leader.Now())
    modifies leader`tick, leader.destination`tables, leader.destination`trail
    ensures ExactIfOurs(leader.projection, leader.Now())
    ensures r.Ok? ==>
              && leader.destination.tables == Tables(leader.projection.initial, None)
              && leader.destination.trail == []
    ensures r.Err? && r.error != ResetIndeterminate ==> leader.Now() == old(leader.Now())
    ensures r == Err(ResetIndeterminate) ==>
              leader.Now() in {old(leader.Now()),
                               Picture(old(leader.Now()).feed, Tables(leader.projection.initial, None), [])}
    ensures !Ours(leader.projection, old(leader.destination.tables.progress)) ==>
              r.Err? && leader.Now() == old(leader.Now())
    ensures old(leader.tick) < leader.tick
    ensures r.Err? && Ours(leader.projection, old(leader.destination.tables.progress)) ==>
              ResetExplained(leader.world, old(leader.tick), leader.tick, r.error)
    ensures (&& Calm(leader.world, leader.projection)
             && Ours(leader.projection, old(leader.destination.tables.progress))) ==> r.Ok?
  {
    var p := leader.projection;
    var ok := leader.Access();
    if !ok { return Err(LeadershipLost); }
    var tx := leader.destination.tables;
    ok := leader.Access();
    var refusal := if ok then IdentityMismatch(p, tx.progress) else Some(ProgressStore);
    if refusal.Some? {
      var e := leader.RollBack(refusal.value);
      return Err(e);
    }
    var spoiled := leader.world.spoiled(leader.tick);
    tx := tx.(model := if spoiled.None? then p.initial else spoiled.value);
    if spoiled.Some? {
      var e := leader.RollBack(ResetFailed);
      return Err(e);
    }
    ok := leader.Access();
    if !ok {
      var e := leader.RollBack(ProgressStore);
      return Err(e);
    }
    tx := tx.(progress := None);
    var landed := leader.world.landed(leader.tick);
    ok := leader.Access();
    if ok || landed {
      ResetIsExact(p, leader.source.Value());
      leader.destination.CommitReset(tx);
    }
    return if ok then Ok(()) else Err(ResetIndeterminate);
  }

  // ------------------------------------------------------------- a destination's life

  datatype Job =
    | Project(config: Config, world: World, polls: nat)
    | Reset(world: World)
    | ResetAndReplay(config: Config, world: World, polls: nat)

  predicate JobAccepted(j: Job) {
    j.Reset? || Accepted(j.config)
  }

  ghost predicate Fit(destination: Destination, source: ProjectionSource, p: Projection)
    reads destination, source
  {
    && source.Valid() && source.frontier in source.events.Keys + {0} && source.id == p.source
    && Exact(p, Picture(source.Value(), destination.tables, destination.trail))
  }

  /** What a finished job reports; a reset that is not followed by a run has no counts. */
  datatype JobOutcome = Ran(run: RunOutcome) | WasReset

  function MaxRetries(j: Job): u32 {
    if j.Reset? then 0 else j.config.maxRetries
  }

  predicate Drains(o: Result<JobOutcome, RunError>) {
    o.Ok? && o.value.Ran? && o.value.run.Finished?
  }

  /** Runs one job under leadership, which ends with it however the job ends. */
  method Execute(destination: Destination, source: ProjectionSource, p: Projection, job: Job)
    returns (r: Result<JobOutcome, RunError>)
    requires Fit(destination, source, p) && JobAccepted(job)
    modifies source`events, source`frontier, destination
    ensures Fit(destination, source, p) && destination.locked == old(destination.locked)
    ensures old(destination.locked) ==> r == Err(LeadershipBusy) && destination.tables == old(destination.tables)
    ensures r.Err? && !old(destination.locked) ==>
              exists end :: Explained(p, job.world, MaxRetries(job), 0, end, r.error)
    ensures r.Ok? && r.value.Ran? ==>
              && !job.Reset?
              && (r.value.run.Halted? ==> exists end :: DecidedIn(job.world, Stop, 0, end))
              && (!r.value.run.Halted? ==> (r.value.run.Finished? <==> job.config.batch))
    ensures var before, now := old(Picture(source.Value(), destination.tables, destination.trail)),
                               Picture(source.Value(), destination.tables, destination.trail);
            && (job.Project? ==> Later(before, now))
            && (Drains(r) ==> Drained(Ok(CaughtUp(r.value.run.through)), p, before, now))
    ensures r.Ok? ==> (r.value.WasReset? <==> job.Reset?)
    ensures r == Ok(WasReset) ==> destination.tables == Tables(p.initial, None) && destination.trail == []
    ensures !old(destination.locked) && Calm(job.world, p) ==> r.Ok? && (r.value.Ran? ==> !r.value.run.Halted?)
    ensures !old(destination.locked) && Calm(job.world, p) && !job.Reset? && job.config.batch ==> Drains(r)
  {
    hide Exact, Calm, Explained, DecidedIn, Drained, Later, TallyOf;
    FitFacts(destination, source, p);
    LaterItself(Picture(source.Value(), destination.tables, destination.trail));
    var acquired := destination.AcquireLeader();
    if !acquired { return Err(LeadershipBusy); }
    FreshRunTally(destination.trail, FreshRun(destination.trail));
    var leader := new ProjectionLeader(destination, source, p, job.world, FreshRun(destination.trail));
    r := RunJob(leader, job);
    if r.Err? { assert Explained(p, job.world, MaxRetries(job), 0, leader.tick, r.error); }
    destination.locked := false;
  }

  /** The job itself, by the one who leads. */
  method RunJob(leader: ProjectionLeader, job: Job) returns (r: Result<JobOutcome, RunError>)
    requires leader.SourceValid() && JobAccepted(job) && leader.world == job.world && leader.tick == 0
    requires Exact(leader.projection, leader.Now()) && leader.Mine() == Tally(0, 0)
    modifies leader`tick, leader.source`events, leader.source`frontier, leader.destination`tables,
      leader.destination`trail
    ensures leader.SourceValid() && Exact(leader.projection, leader.Now())
    ensures r.Err? ==> Explained(leader.projection, job.world, MaxRetries(job), 0, leader.tick, r.error)
    ensures r.Ok? && r.value.Ran? ==>
              && !job.Reset?
              && (r.value.run.Halted? ==> DecidedIn(job.world, Stop, 0, leader.tick))
              && (!r.value.run.Halted? ==> (r.value.run.Finished? <==> job.config.batch))
    ensures job.Project? ==> Later(old(leader.Now()), leader.Now())
    ensures Drains(r) ==> Drained(Ok(CaughtUp(r.value.run.through)), leader.projection, old(leader.Now()), leader.Now())
    ensures r.Ok? ==> (r.value.WasReset? <==> job.Reset?)
    ensures r == Ok(WasReset) ==>
              leader.destination.tables == Tables(leader.projection.initial, None) && leader.destination.trail == []
    ensures Calm(job.world, leader.projection) ==>
              r.Ok? && (r.value.Ran? ==> !r.value.run.Halted?) && (!job.Reset? && job.config.batch ==> Drains(r))
  {
    hide Exact, Calm, Explained, DecidedIn;
    var (p, w) := (leader.projection, leader.world);
    ExactIsOurs(p, leader.Now());
    match job {
      case Project(config, _, polls) =>
        r := RunTo(leader, config, polls);
      case Reset(_) =>
        var reset := ResetWithLeader(leader);
        r := if reset.Ok? then Ok(WasReset) else Err(reset.error);
        if reset.Err? { ResetIsExplained(p, w, MaxRetries(job), leader.tick, reset.error); }
      case ResetAndReplay(config, _, polls) =>
        var reset := ResetWithLeader(leader);
        if reset.Err? {
          ResetIsExplained(p, w, MaxRetries(job), leader.tick, reset.error);
          r := Err(reset.error);
        } else {
          r := RunTo(leader, config, polls);
        }
    }
  }

  lemma FitFacts(destination: Destination, source: ProjectionSource, p: Projection)
    requires Fit(destination, source, p)
    ensures Ours(p, destination.tables.progress)
  {
  }

  lemma ExactIsOurs(p: Projection, now: Picture)
    requires Exact(p, now)
    ensures Ours(p, now.tables.progress)
  {
  }

  lemma ResetIsExplained(p: Projection, w: World, maxRetries: u32, to: nat, e: RunError)
    requires ResetExplained(w, 0, to, e)
    ensures Explained(p, w, maxRetries, 0, to, e)
  {
  }

  method RunTo(leader: ProjectionLeader, config: Config, polls: nat) returns (r: Result<JobOutcome, RunError>)
    requires leader.SourceValid() && Accepted(config) && leader.Mine() == Tally(0, 0)
    requires Exact(leader.projection, leader.Now())
    modifies leader`tick, leader.source`events, leader.source`frontier, leader.destination`tables,
      leader.destination`trail
    ensures leader.SourceValid() && Later(old(leader.Now()), leader.Now()) && Exact(leader.projection, leader.Now())
    ensures Drains(r) ==> Drained(Ok(CaughtUp(r.value.run.through)), leader.projection, old(leader.Now()), leader.Now())
    ensures r.Ok? ==> r.value.Ran?
    ensures r.Err? ==> Explained(leader.projection, leader.world, config.maxRetries, 0, leader.tick, r.error)
    ensures r.Ok? ==>
              && (r.value.run.Halted? ==> DecidedIn(leader.world, Stop, 0, leader.tick))
              && (!r.value.run.Halted? ==> (r.value.run.Finished? <==> config.batch))
    ensures Calm(leader.world, leader.projection) ==> r.Ok? && !r.value.run.Halted? && (config.batch ==> Drains(r))
  {
    hide Exact, Later, Calm, Explained, DecidedIn, Drained;
    ghost var start := leader.tick;
    ExactIsOurs(leader.projection, leader.Now());
    var outcome := RunWithLeader(leader, config, polls);
    if outcome.Err? {
      ExplainedWider(leader.projection, leader.world, config.maxRetries, start, leader.tick, 0, leader.tick,
                     outcome.error);
    } else if outcome.value.Halted? {
      DecidedWider(leader.world, Stop, start, leader.tick, 0, leader.tick);
    }
    return if outcome.Ok? then Ok(Ran(outcome.value)) else Err(outcome.error);
  }

  /** Any sequence of runs, crashes, takeovers and resets keeps the projection exact; without
      resets nothing that was handled is ever taken back. */
  method Lifetime(destination: Destination, source: ProjectionSource, p: Projection, jobs: seq<Job>)
    requires Fit(destination, source, p) && !destination.locked
    requires forall j :: j in jobs ==> JobAccepted(j)
    modifies source`events, source`frontier, destination
    ensures Fit(destination, source, p) && !destination.locked
    ensures (forall j :: j in jobs ==> j.Project?) ==>
              Later(old(Picture(source.Value(), destination.tables, destination.trail)),
                    Picture(source.Value(), destination.tables, destination.trail))
  {
    ghost var first := Picture(source.Value(), destination.tables, destination.trail);
    var i := 0;
    while i < |jobs|
      invariant 0 <= i <= |jobs| && Fit(destination, source, p) && !destination.locked
      invariant (forall j :: j in jobs ==> j.Project?) ==>
                  Later(first, Picture(source.Value(), destination.tables, destination.trail))
    {
      ghost var now := Picture(source.Value(), destination.tables, destination.trail);
      assert jobs[i] in jobs;
      var _ := Execute(destination, source, p, jobs[i]);
      if forall j :: j in jobs ==> j.Project? {
        LaterTransitive(first, now, Picture(source.Value(), destination.tables, destination.trail));
      }
      i := i + 1;
    }
  }
}
