/** The checkpoint-based projection pipeline: effects are applied outside any transaction and
    a checkpoint is saved after each one, so a crash may repeat work but never lose it. */
module LegacyProjection {
  import opened Streams
  import opened Delivery
  import opened ProjectionTables

  const PAGE_SIZE: nat := 1000

  datatype Strategy = Fatal | Skip | Retry

  datatype Verdict = Applied | Failed(strategy: Strategy)

  datatype Effect =
    | ReadEvents(after: Option<nat>)
    | LoadCheckpoint
    | SaveCheckpoint(position: nat)
    | Sleep

  datatype EffectResult =
    | EventsRead(events: Result<seq<Envelope>, ()>)
    | CheckpointLoaded(checkpoint: Result<Option<nat>, ()>)
    | CheckpointSaved(saved: Result<(), ()>)
    | Slept

  datatype Step = Yield(effect: Effect) | Done(result: Result<(), string>) | Panic(message: string)

  datatype Phase =
    | LoadingCheckpoint
    | AwaitingCheckpoint
    | PollEvents(last: Option<nat>, failures: nat)
    | AwaitingEvents(last: Option<nat>, failures: nat)
    | ProcessingEvents(events: seq<Envelope>, index: nat, retries: nat, last: Option<nat>)
    | AwaitingCheckpointSave(events: seq<Envelope>, index: nat, last: Option<nat>)
    | AwaitingSkipCheckpointSave(events: seq<Envelope>, index: nat, last: Option<nat>)
    | AwaitingEventRetrySleep(events: seq<Envelope>, index: nat, retries: nat, last: Option<nat>)
    | AwaitingPollFailureSleep(last: Option<nat>, failures: nat)
    | AwaitingPollSleep(last: Option<nat>)
    | Completed

  // ------------------------------------------------------------- pages and coverage

  function At(position: Option<nat>): nat {
    if position.Some? then position.value else 0
  }

  /** `n` is the first selected position after `low`. */
  ghost predicate Follows(f: Feed, sel: Selection, low: nat, n: nat) {
    && low < n <= f.frontier && Chosen(f.events, sel, n)
    && forall k :: low < k < n ==> !Chosen(f.events, sel, k)
  }

  /** From `index` on, the page continues after `low` without leaving out anything selected. */
  ghost predicate Ahead(f: Feed, sel: Selection, page: seq<Envelope>, index: nat, low: nat) {
    && index <= |page|
    && (index < |page| ==> Follows(f, sel, low, page[index].position))
    && (forall i :: index < i < |page| ==> Follows(f, sel, page[i - 1].position, page[i].position))
  }

  /** Every selected event up to `n` was applied or explicitly skipped at least once. */
  ghost predicate Covered(f: Feed, sel: Selection, trail: seq<Handled>, n: nat) {
    n <= f.frontier && forall k :: 0 < k <= n && Chosen(f.events, sel, k) ==> k in Positions(trail)
  }

  lemma FollowsGrown(f: Feed, g: Feed, sel: Selection, low: nat, n: nat)
    requires Follows(f, sel, low, n) && Grown(f, g)
    ensures Follows(g, sel, low, n)
  {
    forall k | low < k < n ensures !Chosen(g.events, sel, k) {
      assert !Chosen(f.events, sel, k);
    }
  }

  lemma AheadGrown(f: Feed, g: Feed, sel: Selection, page: seq<Envelope>, index: nat, low: nat)
    requires Ahead(f, sel, page, index, low) && Grown(f, g)
    ensures Ahead(g, sel, page, index, low)
  {
    if index < |page| { FollowsGrown(f, g, sel, low, page[index].position); }
    forall i | index < i < |page| ensures Follows(g, sel, page[i - 1].position, page[i].position) {
      FollowsGrown(f, g, sel, page[i - 1].position, page[i].position);
    }
  }

  lemma CoveredGrown(f: Feed, g: Feed, sel: Selection, trail: seq<Handled>, n: nat)
    requires Covered(f, sel, trail, n) && Grown(f, g)
    ensures Covered(g, sel, trail, n)
  {
    forall k | 0 < k <= n && Chosen(g.events, sel, k) ensures k in Positions(trail) {
      assert Chosen(f.events, sel, k);
    }
  }

  /** If the source adds events wherever it likes, what was covered stays covered exactly when no
      selected one turns up at or below the checkpoint; a run never looks there again. */
  lemma CoveredIffNothingLate(f: Feed, g: Feed, sel: Selection, trail: seq<Handled>, n: nat)
    requires Covered(f, sel, trail, n) && f.frontier <= g.frontier
    requires forall k :: k in f.events ==> k in g.events && g.events[k] == f.events[k]
    requires forall k :: k in Positions(trail) ==> k in f.events
    ensures Covered(g, sel, trail, n) <==> forall k :: 0 < k <= n && k !in f.events ==> !Chosen(g.events, sel, k)
  {
    forall k | 0 < k <= n && k in f.events && Chosen(g.events, sel, k) ensures k in Positions(trail) {
      assert Chosen(f.events, sel, k);
    }
    if Covered(g, sel, trail, n) {
      forall k | 0 < k <= n && k !in f.events ensures !Chosen(g.events, sel, k) {
        assert k !in Positions(trail);
      }
    }
  }

  lemma PositionsSnoc(trail: seq<Handled>, h: Handled)
    ensures Positions(trail + [h]) == Positions(trail) + [h.position]
  {
    assert (trail + [h])[..|trail + [h]| - 1] == trail;
  }

  /** Handling the next selected event moves coverage up to it. */
  lemma CoveredNext(f: Feed, sel: Selection, trail: seq<Handled>, low: nat, h: Handled)
    requires Covered(f, sel, trail, low) && Follows(f, sel, low, h.position)
    ensures Covered(f, sel, trail + [h], h.position)
  {
    PositionsSnoc(trail, h);
  }

  lemma CoveredStill(f: Feed, sel: Selection, trail: seq<Handled>, h: Handled, n: nat)
    requires Covered(f, sel, trail, n)
    ensures Covered(f, sel, trail + [h], n)
  {
    PositionsSnoc(trail, h);
  }

  /** What lies above the checkpoint is the last handled event alone, and it is the next one
      a run starting from the checkpoint meets; positions never go down.  So after a crash
      only the last handled event can be handled again. */
  ghost predicate OnlyLastUnsaved(f: Feed, sel: Selection, trail: seq<Handled>, saved: nat) {
    && (forall i, j :: 0 <= i < j < |trail| ==> trail[i].position <= trail[j].position)
    && (forall i :: 0 <= i < |trail| ==> trail[i].position <= saved || trail[i].position == trail[|trail| - 1].position)
    && (trail != [] && trail[|trail| - 1].position > saved ==> Follows(f, sel, saved, trail[|trail| - 1].position))
  }

  lemma OnlyLastGrown(f: Feed, g: Feed, sel: Selection, trail: seq<Handled>, saved: nat)
    requires OnlyLastUnsaved(f, sel, trail, saved) && Grown(f, g)
    ensures OnlyLastUnsaved(g, sel, trail, saved)
  {
    if trail != [] && trail[|trail| - 1].position > saved {
      FollowsGrown(f, g, sel, saved, trail[|trail| - 1].position);
    }
  }

  /** The first selected position is unique, so a repeated event is the last one again. */
  lemma OnlyLastNext(f: Feed, sel: Selection, trail: seq<Handled>, saved: nat, h: Handled)
    requires OnlyLastUnsaved(f, sel, trail, saved) && Follows(f, sel, saved, h.position)
    ensures OnlyLastUnsaved(f, sel, trail + [h], saved)
  {
    if trail != [] && trail[|trail| - 1].position > saved {
      var n := trail[|trail| - 1].position;
      assert n == h.position by {
        assert Chosen(f.events, sel, n) && Chosen(f.events, sel, h.position);
      }
    }
  }

  lemma OnlyLastSaved(f: Feed, sel: Selection, trail: seq<Handled>, saved: nat)
    requires OnlyLastUnsaved(f, sel, trail, saved) && trail != [] && saved <= trail[|trail| - 1].position
    ensures OnlyLastUnsaved(f, sel, trail, trail[|trail| - 1].position)
  {
  }

  // ------------------------------------------------------------- what survives a crash

  /** The checkpoint row and, as history, everything projectors ever did; `flawless` as long as
      every save was acknowledged. */
  datatype Durable = Durable(saved: Option<nat>, trail: seq<Handled>, flawless: bool)

  /** Durable safety: what the checkpoint claims has been done. */
  ghost predicate Safe(f: Feed, sel: Selection, d: Durable) {
    && Covered(f, sel, d.trail, At(d.saved))
    && (d.flawless ==> OnlyLastUnsaved(f, sel, d.trail, At(d.saved)))
  }

  class CheckpointStore {
    var saved: Option<nat>
    ghost var trail: seq<Handled>
    ghost var flawless: bool

    constructor ()
      ensures saved == None && trail == [] && flawless
    {
      saved, trail, flawless := None, [], true;
    }

    ghost function Value(): Durable
      reads this
    {
      Durable(saved, trail, flawless)
    }
  }

  // ------------------------------------------------------------- one run

  datatype Settings = Settings(
    hasStore: bool,
    batch: bool,
    maxPollFailures: nat,
    maxRetries: nat,
    verdict: nat -> Verdict,
    selection: Selection)

  ghost function Left(p: Phase): nat {
    if p.ProcessingEvents? && p.index <= |p.events| then |p.events| - p.index else 0
  }

  predicate IsSaving(p: Phase) {
    p.AwaitingCheckpointSave? || p.AwaitingSkipCheckpointSave?
  }

  /** The phases in which the machine is to be stepped, not resumed. */
  predicate Ready(p: Phase) {
    p.LoadingCheckpoint? || p.PollEvents? || p.ProcessingEvents?
  }

  /** The kind of result that a waiting phase takes; saves and sleeps take any. */
  predicate Takes(p: Phase, result: EffectResult) {
    match p
    case AwaitingCheckpoint => result.CheckpointLoaded?
    case AwaitingEvents(_, _) => result.EventsRead?
    case _ => !Ready(p) && !p.Completed?
  }

  predicate HasEvents(p: Phase) {
    p.ProcessingEvents? || p.AwaitingEventRetrySleep? || IsSaving(p)
  }

  predicate HasLast(p: Phase) {
    !p.LoadingCheckpoint? && !p.AwaitingCheckpoint? && !p.Completed?
  }

  /** The event under way, if any. */
  function Next(p: Phase): nat {
    if HasEvents(p) && !IsSaving(p) && p.index < |p.events| then p.events[p.index].position else 0
  }

  /** Position `last` is where the run has got to: covered, at or above the checkpoint. */
  ghost predicate HasReached(c: Settings, f: Feed, d: Durable, last: Option<nat>) {
    && Covered(f, c.selection, d.trail, At(last))
    && At(d.saved) <= At(last)
    && (d.flawless ==> At(d.saved) == At(last))
    && (!c.hasStore ==> d.saved == None && !d.flawless)
  }

  /** The save of an event's position is pending: everything up to it has been done. */
  ghost predicate Saving(c: Settings, f: Feed, d: Durable, last: Option<nat>) {
    && Covered(f, c.selection, d.trail, At(last))
    && At(d.saved) <= At(last)
    && c.hasStore && last.Some?
    && d.trail != [] && d.trail[|d.trail| - 1].position == At(last)
  }

  ghost predicate Bounded(c: Settings, tried: multiset<nat>) {
    forall n :: tried[n] <= c.maxRetries + 1
  }

  /** Events beyond `last` have not been tried, but for `next`. */
  ghost predicate Untried(tried: multiset<nat>, last: Option<nat>, next: nat) {
    forall n :: n > At(last) && n != next ==> tried[n] == 0
  }

  ghost predicate Paged(c: Settings, f: Feed, p: Phase, tried: multiset<nat>)
    requires HasEvents(p)
  {
    && Ahead(f, c.selection, p.events, p.index + (if IsSaving(p) then 1 else 0), At(p.last))
    && (p.AwaitingEventRetrySleep? ==> p.index < |p.events|)
    && (!IsSaving(p) && p.index < |p.events| ==> tried[p.events[p.index].position] == p.retries <= c.maxRetries)
  }

  /** What a run keeps: durable safety, and a phase that fits the history. */
  ghost predicate Good(c: Settings, f: Feed, p: Phase, tried: multiset<nat>, d: Durable) {
    && Safe(f, c.selection, d) && Bounded(c, tried)
    && (p.LoadingCheckpoint? || p.AwaitingCheckpoint? ==> c.hasStore && tried == multiset{})
    && (HasLast(p) ==> Untried(tried, p.last, Next(p)))
    && (HasLast(p) ==> if IsSaving(p) then Saving(c, f, d, p.last) else HasReached(c, f, d, p.last))
    && (HasEvents(p) ==> Paged(c, f, p, tried))
    && (p.PollEvents? || p.AwaitingEvents? || p.AwaitingPollFailureSleep? ==> p.failures <= c.maxPollFailures)
  }

  /** The effect asked for is the one the phase awaits. */
  ghost predicate Asks(p: Phase, step: Step) {
    match step
    case Yield(ReadEvents(after)) => p.AwaitingEvents? && p.last == after
    case Yield(LoadCheckpoint) => p.AwaitingCheckpoint?
    case Yield(SaveCheckpoint(n)) => IsSaving(p) && p.last == Some(n)
    case Yield(Sleep) => p.AwaitingEventRetrySleep? || p.AwaitingPollFailureSleep? || p.AwaitingPollSleep?
    case Done(_) => p.Completed?
    case Panic(_) => false
  }

  /** What the result reports is so: the stored checkpoint, a page of the feed, or that the save
      under way either landed or is counted as failed. */
  ghost predicate Answers(c: Settings, f: Feed, p: Phase, d: Durable, result: EffectResult) {
    match p
    case AwaitingCheckpoint => result.CheckpointLoaded? && result.checkpoint.Ok? ==> result.checkpoint.value == d.saved
    case AwaitingEvents(last, _) =>
      result.EventsRead? && result.events.Ok? ==> Ahead(f, c.selection, result.events.value, 0, At(last))
    case _ => IsSaving(p) && d.flawless ==> d.saved == p.last
  }

  /** What a verdict on the event at `index` leads to when there is a checkpoint store. */
  ghost predicate Decided(c: Settings, v: Verdict, events: seq<Envelope>, index: nat, retries: nat, last: Option<nat>,
                          before: seq<Handled>, q: Phase, trail: seq<Handled>, step: Step)
    requires index < |events|
  {
    var position := events[index].position;
    match v
    case Applied =>
      && q == AwaitingCheckpointSave(events, index, Some(position))
      && trail == before + [Handled(position, true, 0)]
    case Failed(Skip) =>
      && q == AwaitingSkipCheckpointSave(events, index, Some(position))
      && trail == before + [Handled(position, false, 0)]
    case Failed(Fatal) => trail == before && step == Done(Err("projector apply failed"))
    case Failed(Retry) =>
      && trail == before
      && (if retries >= c.maxRetries then step == Done(Err("projector apply failed after max retries"))
          else q == AwaitingEventRetrySleep(events, index, retries + 1, last))
  }

  /** What is recorded of the events from `index` on and before `m`, by verdicts from number
      `calls` on. */
  function Entries(c: Settings, calls: nat, events: seq<Envelope>, index: nat, m: nat): (entries: seq<Handled>)
    requires index <= m <= |events|
    ensures |entries| == m - index
  {
    seq(m - index, i requires 0 <= i < m - index =>
      Handled(events[index + i].position, c.verdict(calls + i).Applied?, 0))
  }

  predicate Passes(v: Verdict) {
    v.Applied? || v.strategy.Skip?
  }

  /** Without a checkpoint store one step goes through the page: events up to `m` are applied or
      skipped, and there the page ends, or a verdict stops it. */
  ghost predicate Swept(c: Settings, calls: nat, events: seq<Envelope>, index: nat, retries: nat, last: Option<nat>,
                        before: seq<Handled>, q: Phase, trail: seq<Handled>, step: Step, calls': nat, m: nat)
  {
    && index <= m <= |events| && trail == before + Entries(c, calls, events, index, m)
    && (forall n: nat :: calls <= n < calls + m - index ==> Passes(c.verdict(n)))
    && (var reached := if m == index then last else Some(events[m - 1].position);
        var tried := if m == index then retries else 0;
        if m == |events| then calls' == calls + m - index && PageEnds(c, reached, q, step)
        else
          && calls' == calls + m - index + 1
          && (match c.verdict(calls + m - index)
              case Failed(Fatal) => step == Done(Err("projector apply failed"))
              case Failed(Retry) =>
                if tried >= c.maxRetries then step == Done(Err("projector apply failed after max retries"))
                else q == AwaitingEventRetrySleep(events, m, tried + 1, reached)
              case _ => false))
  }

  ghost predicate PageEnds(c: Settings, last: Option<nat>, q: Phase, step: Step) {
    if c.batch then step == Done(Ok(())) else q == AwaitingPollSleep(last) && step == Yield(Sleep)
  }

  /** What a step from `p` leads to; `calls` and `calls'` are how many verdicts have been given. */
  ghost predicate Stepped(c: Settings, p: Phase, calls: nat, before: seq<Handled>, q: Phase, trail: seq<Handled>,
                          step: Step, calls': nat) {
    match p
    case ProcessingEvents(events, index, retries, last) =>
      if index >= |events| then trail == before && calls' == calls && PageEnds(c, last, q, step)
      else if c.hasStore then
        Decided(c, c.verdict(calls), events, index, retries, last, before, q, trail, step) && calls' == calls + 1
      else
        exists m :: Swept(c, calls, events, index, retries, last, before, q, trail, step, calls', m)
    case LoadingCheckpoint => trail == before && calls' == calls && q == AwaitingCheckpoint
    case PollEvents(last, failures) => trail == before && calls' == calls && q == AwaitingEvents(last, failures)
    case _ => trail == before && calls' == calls && step.Panic?
  }

  /** One event more in front of what was swept. */
  lemma SweptOn(c: Settings, calls: nat, events: seq<Envelope>, index: nat, retries: nat, last: Option<nat>,
                before: seq<Handled>, q: Phase, trail: seq<Handled>, step: Step, calls': nat)
    requires index < |events| && Passes(c.verdict(calls)) && !c.hasStore
    requires var h := Handled(events[index].position, c.verdict(calls).Applied?, 0);
             Stepped(c, ProcessingEvents(events, index + 1, 0, Some(events[index].position)), calls + 1, before + [h],
                     q, trail, step, calls')
    ensures exists m :: Swept(c, calls, events, index, retries, last, before, q, trail, step, calls', m)
  {
    hide Entries, Passes;
    var h := Handled(events[index].position, c.verdict(calls).Applied?, 0);
    var position := Some(events[index].position);
    if index + 1 < |events| {
      var m: nat :| Swept(c, calls + 1, events, index + 1, 0, position, before + [h], q, trail, step, calls', m);
      SweptFront(c, calls, events, index, retries, last, before, q, trail, step, calls', m);
    } else {
      assert Swept(c, calls + 1, events, index + 1, 0, position, before + [h], q, trail, step, calls', index + 1) by {
        assert trail == before + [h] + Entries(c, calls + 1, events, index + 1, index + 1);
      }
      SweptFront(c, calls, events, index, retries, last, before, q, trail, step, calls', index + 1);
    }
  }

  lemma SweptFront(c: Settings, calls: nat, events: seq<Envelope>, index: nat, retries: nat, last: Option<nat>,
                   before: seq<Handled>, q: Phase, trail: seq<Handled>, step: Step, calls': nat, m: nat)
    requires index < |events| && Passes(c.verdict(calls))
    requires var h := Handled(events[index].position, c.verdict(calls).Applied?, 0);
             Swept(c, calls + 1, events, index + 1, 0, Some(events[index].position), before + [h], q, trail, step,
                   calls', m)
    ensures Swept(c, calls, events, index, retries, last, before, q, trail, step, calls', m)
  {
    hide Entries, Passes;
    var h := Handled(events[index].position, c.verdict(calls).Applied?, 0);
    EntriesOn(c, calls, events, index, m);
    assert before + [h] + Entries(c, calls + 1, events, index + 1, m) == before + Entries(c, calls, events, index, m);
  }

  lemma PassesFact(v: Verdict)
    ensures Passes(v) <==> v.Applied? || v.strategy.Skip?
  {
  }

  lemma SweptNothing(c: Settings, calls: nat, events: seq<Envelope>, index: nat, retries: nat, last: Option<nat>,
                     before: seq<Handled>, q: Phase, step: Step)
    requires index < |events| && !Passes(c.verdict(calls))
    requires c.verdict(calls) == Failed(Fatal) ==> step == Done(Err("projector apply failed"))
    requires c.verdict(calls) == Failed(Retry) && retries >= c.maxRetries ==>
               step == Done(Err("projector apply failed after max retries"))
    requires c.verdict(calls) == Failed(Retry) && retries < c.maxRetries ==>
               q == AwaitingEventRetrySleep(events, index, retries + 1, last)
    ensures Swept(c, calls, events, index, retries, last, before, q, before, step, calls + 1, index)
  {
    assert before + Entries(c, calls, events, index, index) == before;
  }

  lemma EntriesOn(c: Settings, calls: nat, events: seq<Envelope>, index: nat, m: nat)
    requires index < m <= |events|
    ensures Entries(c, calls, events, index, m)
         == [Handled(events[index].position, c.verdict(calls).Applied?, 0)] + Entries(c, calls + 1, events, index + 1,
           m)
  {
  }

  // ------------------------------------------------------------- the transitions

  lemma GoodFacts(c: Settings, f: Feed, p: Phase, tried: multiset<nat>, d: Durable)
    requires Good(c, f, p, tried, d)
    ensures Safe(f, c.selection, d) && Bounded(c, tried)
    ensures HasEvents(p) && !IsSaving(p) ==> HasReached(c, f, d, p.last)
  {
  }

  /** A finished run keeps what is durable. */
  lemma CompletedIsGood(c: Settings, f: Feed, p: Phase, tried: multiset<nat>, d: Durable)
    requires Good(c, f, p, tried, d)
    ensures Good(c, f, Completed, tried, d)
  {
  }

  lemma WaitingIsGood(c: Settings, f: Feed, p: Phase, tried: multiset<nat>, d: Durable)
    requires Good(c, f, p, tried, d)
    ensures p.LoadingCheckpoint? ==> Good(c, f, AwaitingCheckpoint, tried, d)
    ensures p.PollEvents? ==> Good(c, f, AwaitingEvents(p.last, p.failures), tried, d)
    ensures p.ProcessingEvents? && p.index >= |p.events| ==> Good(c, f, AwaitingPollSleep(p.last), tried, d)
    ensures p.AwaitingEventRetrySleep? ==> Good(c, f, ProcessingEvents(p.events, p.index, p.retries, p.last), tried, d)
    ensures p.AwaitingPollFailureSleep? ==> Good(c, f, PollEvents(p.last, p.failures), tried, d)
    ensures p.AwaitingPollSleep? ==> Good(c, f, PollEvents(p.last, 0), tried, d)
  {
    hide Covered, Follows, OnlyLastUnsaved;
  }

  lemma CheckpointIsGood(c: Settings, f: Feed, tried: multiset<nat>, d: Durable)
    requires Good(c, f, AwaitingCheckpoint, tried, d)
    ensures Good(c, f, PollEvents(d.saved, 0), tried, d)
  {
  }

  lemma PageIsGood(c: Settings, f: Feed, p: Phase, tried: multiset<nat>, d: Durable, events: seq<Envelope>)
    requires Good(c, f, p, tried, d) && p.AwaitingEvents? && Ahead(f, c.selection, events, 0, At(p.last))
    ensures Good(c, f, ProcessingEvents(events, 0, 0, p.last), tried, d)
  {
  }

  lemma FailedPollIsGood(c: Settings, f: Feed, p: Phase, tried: multiset<nat>, d: Durable)
    requires Good(c, f, p, tried, d) && p.AwaitingEvents? && p.failures < c.maxPollFailures
    ensures Good(c, f, AwaitingPollFailureSleep(p.last, p.failures + 1), tried, d)
  {
  }

  /** A failed save is logged and otherwise ignored. */
  lemma SavedIsGood(c: Settings, f: Feed, p: Phase, tried: multiset<nat>, d: Durable)
    requires Good(c, f, p, tried, d) && IsSaving(p) && (d.flawless ==> d.saved == p.last)
    ensures Good(c, f, ProcessingEvents(p.events, p.index + 1, 0, p.last), tried, d)
  {
  }

  /** The event under way is the next selected one, and the page goes on after it. */
  lemma EventIsNext(c: Settings, f: Feed, p: Phase, tried: multiset<nat>, d: Durable)
    requires Good(c, f, p, tried, d) && p.ProcessingEvents? && p.index < |p.events|
    ensures var n := p.events[p.index].position;
            && Follows(f, c.selection, At(p.last), n) && n > At(p.last)
            && Ahead(f, c.selection, p.events, p.index, At(p.last)) && Ahead(f, c.selection, p.events, p.index + 1, n)
            && tried[n] == p.retries <= c.maxRetries && Untried(tried, p.last, n)
  {
  }

  lemma TriedOnce(c: Settings, tried: multiset<nat>, last: Option<nat>, n: nat, retries: nat)
    requires Bounded(c, tried) && Untried(tried, last, n) && tried[n] == retries <= c.maxRetries
    ensures var again := tried + multiset{n};
            Bounded(c, again) && Untried(again, last, n) && again[n] == retries + 1
              && (n > At(last) ==> Untried(again, Some(n), 0))
  {
    var again := tried + multiset{n};
    assert forall k :: again[k] == if k == n then tried[k] + 1 else tried[k];
  }

  lemma RetryIsGood(c: Settings, f: Feed, p: Phase, tried: multiset<nat>, d: Durable)
    requires Good(c, f, p, tried, d) && p.ProcessingEvents? && p.index < |p.events|
    ensures var again := tried + multiset{p.events[p.index].position};
            && Good(c, f, Completed, again, d)
            && (p.retries < c.maxRetries ==>
                 Good(c, f, AwaitingEventRetrySleep(p.events, p.index, p.retries + 1, p.last), again, d))
  {
    hide Covered, Follows, OnlyLastUnsaved;
    EventIsNext(c, f, p, tried, d);
    TriedOnce(c, tried, p.last, p.events[p.index].position, p.retries);
  }

  /** The event has now been handled. */
  lemma RecordIsSafe(c: Settings, f: Feed, d: Durable, last: Option<nat>, h: Handled)
    requires Safe(f, c.selection, d) && HasReached(c, f, d, last) && Follows(f, c.selection, At(last), h.position)
    ensures var e := d.(trail := d.trail + [h]);
            Safe(f, c.selection, e) && Covered(f, c.selection, e.trail, h.position)
  {
    CoveredNext(f, c.selection, d.trail, At(last), h);
    CoveredStill(f, c.selection, d.trail, h, At(d.saved));
    if d.flawless { OnlyLastNext(f, c.selection, d.trail, At(d.saved), h); }
  }

  /** A handled event waits for its save, or the run goes straight on. */
  lemma HandledIsGood(c: Settings, f: Feed, p: Phase, tried: multiset<nat>, d: Durable, applied: bool)
    requires Good(c, f, p, tried, d) && p.ProcessingEvents? && p.index < |p.events|
    ensures var n := p.events[p.index].position;
            var again, e := tried + multiset{n}, d.(trail := d.trail + [Handled(n, applied, 0)]);
            if c.hasStore then
              && Good(c, f, AwaitingCheckpointSave(p.events, p.index, Some(n)), again, e)
              && Good(c, f, AwaitingSkipCheckpointSave(p.events, p.index, Some(n)), again, e)
            else
              Good(c, f, ProcessingEvents(p.events, p.index + 1, 0, Some(n)), again, e)
  {
    var n := p.events[p.index].position;
    EventIsNext(c, f, p, tried, d);
    TriedOnce(c, tried, p.last, n, p.retries);
    RecordIsSafe(c, f, d, p.last, Handled(n, applied, 0));
    PlacedIsGood(c, f, p, tried + multiset{n}, d, d.trail + [Handled(n, applied, 0)], n);
  }

  lemma PlacedIsGood(c: Settings, f: Feed, p: Phase, tried: multiset<nat>, d: Durable, trail: seq<Handled>, n: nat)
    requires p.ProcessingEvents? && p.index < |p.events| && p.events[p.index].position == n > At(p.last)
    requires HasReached(c, f, d, p.last) && Bounded(c, tried) && Untried(tried, Some(n), 0)
    requires Safe(f, c.selection, d.(trail := trail)) && Covered(f, c.selection, trail, n)
    requires trail != [] && trail[|trail| - 1].position == n && Ahead(f, c.selection, p.events, p.index + 1, n)
    ensures var e := d.(trail := trail);
            if c.hasStore then
              && Good(c, f, AwaitingCheckpointSave(p.events, p.index, Some(n)), tried, e)
              && Good(c, f, AwaitingSkipCheckpointSave(p.events, p.index, Some(n)), tried, e)
            else
              Good(c, f, ProcessingEvents(p.events, p.index + 1, 0, Some(n)), tried, e)
  {
    hide Covered, OnlyLastUnsaved;
    AheadIsBeyond(f, c.selection, p.events, p.index + 1, n);
  }

  lemma AheadIsBeyond(f: Feed, sel: Selection, page: seq<Envelope>, index: nat, low: nat)
    requires Ahead(f, sel, page, index, low)
    ensures index < |page| ==> page[index].position > low
  {
  }

  /** A save that may fail, and may have landed even so. */
  lemma SaveIsGood(c: Settings, f: Feed, p: Phase, tried: multiset<nat>, d: Durable, saved: bool, landed: bool)
    requires Good(c, f, p, tried, d) && IsSaving(p)
    ensures Good(c, f, p, tried, Durable(if saved || landed then p.last else d.saved, d.trail, d.flawless && saved))
  {
    hide Covered, Ahead;
    if d.flawless { OnlyLastSaved(f, c.selection, d.trail, At(d.saved)); }
  }

  /** New events change nothing the run relies on. */
  lemma GoodGrown(c: Settings, f: Feed, g: Feed, p: Phase, tried: multiset<nat>, d: Durable)
    requires Good(c, f, p, tried, d) && Grown(f, g)
    ensures Good(c, g, p, tried, d)
  {
    hide Covered, Ahead, Follows, OnlyLastUnsaved, Grown;
    CoveredGrown(f, g, c.selection, d.trail, At(d.saved));
    if d.flawless { OnlyLastGrown(f, g, c.selection, d.trail, At(d.saved)); }
    if HasLast(p) { CoveredGrown(f, g, c.selection, d.trail, At(p.last)); }
    if HasEvents(p) {
      AheadGrown(f, g, c.selection, p.events, p.index + (if IsSaving(p) then 1 else 0), At(p.last));
    }
  }

  // ------------------------------------------------------------- the machine

  /** One process's projection run. */
  class ProjectionPipeline {
    const store: CheckpointStore
    const settings: Settings
    var phase: Phase
    var calls: nat
    ghost var tried: multiset<nat>

    constructor (store: CheckpointStore, settings: Settings)
      ensures this.store == store && this.settings == settings && tried == multiset{}
      ensures phase == if settings.hasStore then LoadingCheckpoint else PollEvents(None, 0)
    {
      this.store, this.settings := store, settings;
      phase := if settings.hasStore then LoadingCheckpoint else PollEvents(None, 0);
      calls, tried := 0, multiset{};
    }

    ghost predicate Valid(f: Feed)
      reads this, store
    {
      Good(settings, f, phase, tried, store.Value())
    }

    method Step(ghost f: Feed) returns (step: Step)
      requires Valid(f)
      modifies this`phase, this`calls, this`tried, store`trail
      ensures Valid(f) && (step.Panic? <==> !Ready(old(phase)))
      ensures if step.Panic? then phase.Completed? else Asks(phase, step)
      ensures old(store.trail) <= store.trail
      ensures Stepped(settings, old(phase), old(calls), old(store.trail), phase, store.trail, step, calls)
      decreases Left(phase), 2
    {
      hide Good;
      WaitingIsGood(settings, f, phase, tried, store.Value());
      CompletedIsGood(settings, f, phase, tried, store.Value());
      match phase {
        case LoadingCheckpoint =>
          phase := AwaitingCheckpoint;
          step := Yield(LoadCheckpoint);
        case PollEvents(last, failures) =>
          phase := AwaitingEvents(last, failures);
          step := Yield(ReadEvents(last));
        case ProcessingEvents(events, index, retries, last) =>
          if index >= |events| {
            if settings.batch {
              phase := Completed;
              return Done(Ok(()));
            }
            phase := AwaitingPollSleep(last);
            return Yield(Sleep);
          }
          step := TryEvent(f, events, index, retries, last);
        case Completed =>
          step := Panic("step() called on completed pipeline");
        case _ =>
          phase := Completed;
          step := Panic("step() called while awaiting a result");
      }
    }

    method TryEvent(ghost f: Feed, events: seq<Envelope>, index: nat, retries: nat, last: Option<nat>)
      returns (step: Step)
      requires Valid(f) && phase == ProcessingEvents(events, index, retries, last) && index < |events|
      modifies this`phase, this`calls, this`tried, store`trail
      ensures Valid(f) && Asks(phase, step) && old(store.trail) <= store.trail
      ensures Stepped(settings, old(phase), old(calls), old(store.trail), phase, store.trail, step, calls)
      decreases |events| - index, 1
    {
      hide Good, Swept, Passes;
      ghost var before, n := store.trail, calls;
      var v := settings.verdict(calls);
      calls := calls + 1;
      RetryIsGood(settings, f, phase, tried, store.Value());
      match v {
        case Applied =>
          step := MoveOn(f, events, index, last, true);
        case Failed(Fatal) =>
          phase, tried := Completed, tried + multiset{events[index].position};
          step := Done(Err("projector apply failed"));
        case Failed(Skip) =>
          step := MoveOn(f, events, index, last, false);
        case Failed(Retry) =>
          tried := tried + multiset{events[index].position};
          if retries >= settings.maxRetries {
            phase := Completed;
            step := Done(Err("projector apply failed after max retries"));
          } else {
            phase := AwaitingEventRetrySleep(events, index, retries + 1, last);
            step := Yield(Sleep);
          }
      }
      if !settings.hasStore {
        if v.Applied? || v.strategy.Skip? {
          PassesFact(v);
          SweptOn(settings, n, events, index, retries, last, before, phase, store.trail, step, calls);
        } else {
          PassesFact(v);
          SweptNothing(settings, n, events, index, retries, last, before, phase, step);
        }
      }
    }

    /** The event at `index` is done, applied or skipped: save its position if there is a
        checkpoint store, otherwise go straight on. */
    method MoveOn(ghost f: Feed, events: seq<Envelope>, index: nat, last: Option<nat>, applied: bool)
      returns (step: Step)
      requires Valid(f) && phase.ProcessingEvents? && phase.events == events && phase.index == index < |events|
                 && phase.last == last
      modifies this`phase, this`calls, this`tried, store`trail
      ensures Valid(f) && Asks(phase, step)
      ensures var position, trail := events[index].position,
                old(store.trail) + [Handled(events[index].position, applied, 0)];
              && trail <= store.trail
              && (settings.hasStore ==> store.trail == trail && calls == old(calls))
              && (!settings.hasStore ==>
                    Stepped(settings, ProcessingEvents(events, index + 1, 0, Some(position)), old(calls), trail, phase,
                            store.trail, step, calls))
              && (settings.hasStore && applied ==> phase == AwaitingCheckpointSave(events, index, Some(position)))
              && (settings.hasStore && !applied ==> phase == AwaitingSkipCheckpointSave(events, index, Some(position)))
      decreases |events| - index, 0
    {
      hide Good, Stepped;
      var position := events[index].position;
      HandledIsGood(settings, f, phase, tried, store.Value(), applied);
      tried := tried + multiset{position};
      store.trail := store.trail + [Handled(position, applied, 0)];
      if settings.hasStore {
        phase := if applied then AwaitingCheckpointSave(events, index, Some(position))
                 else AwaitingSkipCheckpointSave(events, index, Some(position));
        return Yield(SaveCheckpoint(position));
      }
      phase := ProcessingEvents(events, index + 1, 0, Some(position));
      step := Step(f);
    }

    /** Takes a result of any kind in any phase; it panics exactly on a kind that the phase does
        not take, having touched nothing. */
    method Resume(ghost f: Feed, result: EffectResult) returns (step: Step)
      requires Valid(f) && Answers(settings, f, phase, store.Value(), result)
      modifies this`phase, this`calls, this`tried, store`trail
      ensures Valid(f) && old(store.trail) <= store.trail && (step.Panic? <==> !Takes(old(phase), result))
      ensures if step.Panic? then phase.Completed? && store.trail == old(store.trail) else Asks(phase, step)
      ensures Resumed(settings, old(phase), old(calls), old(store.saved), result, old(store.trail), phase, store.trail,
                      step, calls)
    {
      hide Good, Ahead;
      CompletedIsGood(settings, f, phase, tried, store.Value());
      if !Takes(phase, result) {
        phase := Completed;
        step := Panic("unexpected result");
      } else if phase.AwaitingCheckpoint? {
        step := ResumeCheckpoint(f, result.checkpoint);
      } else if phase.AwaitingEvents? {
        step := ResumeEvents(f, result.events);
      } else if IsSaving(phase) {
        SavedIsGood(settings, f, phase, tried, store.Value());
        phase := ProcessingEvents(phase.events, phase.index + 1, 0, phase.last);
        step := Step(f);
      } else {
        step := ResumeSleep(f);
      }
    }

    method ResumeCheckpoint(ghost f: Feed, checkpoint: Result<Option<nat>, ()>) returns (step: Step)
      requires Valid(f) && phase.AwaitingCheckpoint? && (checkpoint.Ok? ==> checkpoint.value == store.saved)
      modifies this`phase, this`calls, this`tried, store`trail
      ensures Valid(f) && Asks(phase, step) && store.trail == old(store.trail) && calls == old(calls)
      ensures checkpoint.Ok? ==> phase == AwaitingEvents(store.saved, 0)
      ensures if checkpoint.Ok? then step == Yield(ReadEvents(store.saved))
                else step == Done(Err("failed to load checkpoint"))
    {
      hide Good;
      CompletedIsGood(settings, f, phase, tried, store.Value());
      if checkpoint.Err? {
        phase := Completed;
        return Done(Err("failed to load checkpoint"));
      }
      CheckpointIsGood(settings, f, tried, store.Value());
      phase := PollEvents(checkpoint.value, 0);
      step := Step(f);
    }

    method ResumeEvents(ghost f: Feed, events: Result<seq<Envelope>, ()>) returns (step: Step)
      requires Valid(f) && phase.AwaitingEvents?
      requires events.Ok? ==> Ahead(f, settings.selection, events.value, 0, At(phase.last))
      modifies this`phase, this`calls, this`tried, store`trail
      ensures Valid(f) && Asks(phase, step) && old(store.trail) <= store.trail
      ensures events.Err? ==>
                && store.trail == old(store.trail) && calls == old(calls)
                && (if old(phase.failures) >= settings.maxPollFailures
                    then step == Done(Err("failed to read events after max retries"))
                    else phase == AwaitingPollFailureSleep(old(phase.last), old(phase.failures) + 1))
      ensures events.Ok? ==>
                Stepped(settings, ProcessingEvents(events.value, 0, 0, old(phase.last)), old(calls),
                        old(store.trail), phase, store.trail, step, calls)
    {
      hide Good, Ahead, Stepped;
      CompletedIsGood(settings, f, phase, tried, store.Value());
      if events.Err? {
        if phase.failures >= settings.maxPollFailures {
          phase := Completed;
          return Done(Err("failed to read events after max retries"));
        }
        FailedPollIsGood(settings, f, phase, tried, store.Value());
        phase := AwaitingPollFailureSleep(phase.last, phase.failures + 1);
        return Yield(Sleep);
      }
      PageIsGood(settings, f, phase, tried, store.Value(), events.value);
      phase := ProcessingEvents(events.value, 0, 0, phase.last);
      step := Step(f);
    }

    method ResumeSleep(ghost f: Feed) returns (step: Step)
      requires Valid(f) && Asks(phase, Yield(Sleep))
      modifies this`phase, this`calls, this`tried, store`trail
      ensures Valid(f) && Asks(phase, step) && old(store.trail) <= store.trail
      ensures Woken(settings, old(phase), old(calls), old(store.trail), phase, store.trail, step, calls)
    {
      hide Good, Decided;
      WaitingIsGood(settings, f, phase, tried, store.Value());
      if phase.AwaitingEventRetrySleep? {
        phase := ProcessingEvents(phase.events, phase.index, phase.retries, phase.last);
      } else {
        phase := PollEvents(phase.last, if phase.AwaitingPollFailureSleep? then phase.failures else 0);
      }
      step := Step(f);
    }

    /** The checkpoint row after a save that may fail, and may have landed even so. */
    method Save(ghost f: Feed, saved: bool, landed: bool)
      requires Valid(f) && IsSaving(phase)
      modifies store`saved, store`flawless
      ensures Valid(f) && (store.flawless ==> store.saved == phase.last)
      ensures At(old(store.saved)) <= At(store.saved)
      ensures saved ==> store.saved == phase.last && store.flawless == old(store.flawless)
      ensures store.saved in {old(store.saved), phase.last}
    {
      hide Covered, OnlyLastUnsaved, Ahead, Untried, Bounded, Safe, Paged;
      SaveIsGood(settings, f, phase, tried, store.Value(), saved, landed);
      if saved || landed {
        store.saved := phase.last;
      }
      store.flawless := store.flawless && saved;
    }
  }

  /** What the end of a sleep leads to. */
  ghost predicate Woken(c: Settings, p: Phase, calls: nat, before: seq<Handled>, q: Phase, trail: seq<Handled>,
                        step: Step, calls': nat) {
    match p
    case AwaitingEventRetrySleep(events, index, retries, last) =>
      Stepped(c, ProcessingEvents(events, index, retries, last), calls, before, q, trail, step, calls')
    case AwaitingPollFailureSleep(last, failures) => trail == before && q == AwaitingEvents(last, failures)
        && calls' == calls
    case AwaitingPollSleep(last) => trail == before && q == AwaitingEvents(last, 0) && calls' == calls
    case _ => true
  }

  /** What a result that the phase takes leads to. */
  ghost predicate Resumed(c: Settings, p: Phase, calls: nat, saved: Option<nat>, result: EffectResult,
                          before: seq<Handled>, q: Phase, trail: seq<Handled>, step: Step, calls': nat) {
    if !Takes(p, result) then trail == before
    else
      match p
      case AwaitingCheckpoint =>
        && trail == before && calls' == calls
        && (if result.checkpoint.Ok? then step == Yield(ReadEvents(saved)) && q == AwaitingEvents(saved, 0)
            else step == Done(Err("failed to load checkpoint")))
      case AwaitingEvents(last, failures) =>
        if result.events.Ok? then
          Stepped(c, ProcessingEvents(result.events.value, 0, 0, last), calls, before, q, trail, step, calls')
        else
          && trail == before && calls' == calls
          && (if failures >= c.maxPollFailures then step == Done(Err("failed to read events after max retries"))
              else q == AwaitingPollFailureSleep(last, failures + 1))
      case AwaitingCheckpointSave(events, index, last) =>
        Stepped(c, ProcessingEvents(events, index + 1, 0, last), calls, before, q, trail, step, calls')
      case AwaitingSkipCheckpointSave(events, index, last) =>
        Stepped(c, ProcessingEvents(events, index + 1, 0, last), calls, before, q, trail, step, calls')
      case _ => Woken(c, p, calls, before, q, trail, step, calls')
  }

  // ------------------------------------------------------------- the shell

  /** What the k-th effect meets. */
  datatype Weather = Weather(arrivals: nat -> seq<Envelope>, fails: nat -> bool, landed: nat -> bool)

  /** The first thousand of the selected events above `after`, or all if there are fewer. */
  ghost predicate IsPage(f: Feed, sel: Selection, after: nat, page: seq<Envelope>) {
    var s := SelectedIn(f.events, sel, after, f.frontier);
    && |page| == (if |s| <= PAGE_SIZE then |s| else PAGE_SIZE)
    && (forall i :: 0 <= i < |page| ==> s[i] in f.events && page[i] == f.events[s[i]])
    && (forall n :: n in f.events ==> n <= f.frontier)
  }

  /** One page of the legacy reader, out of everything that is committed now. */
  method ReadPage(source: ProjectionSource, sel: Selection, after: nat) returns (page: seq<Envelope>)
    requires source.Valid() && source.frontier in source.events.Keys + {0} && after <= source.frontier
    modifies source`frontier
    ensures source.Valid() && source.frontier in source.events.Keys + {0}
    ensures Grown(old(source.Value()), source.Value())
    ensures IsPage(source.Value(), sel, after, page) && Ahead(source.Value(), sel, page, 0, after)
  {
    var w := source.HighWatermark();
    if w.None? {
      SelectedNone(source.events, sel, after, source.frontier);
      return [];
    }
    page := source.ReadEnvelopes(sel, after, w.value, PAGE_SIZE);
    PageAhead(source.Value(), sel, page, after, w.value);
  }

  /** A page is empty only if nothing selected is committed above `after`. */
  lemma EmptyPageMeansNone(f: Feed, sel: Selection, after: nat)
    requires IsPage(f, sel, after, [])
    ensures forall n :: n > after ==> !Chosen(f.events, sel, n)
  {
    SelectedExactly(f.events, sel, after, f.frontier);
  }

  lemma PageAhead(f: Feed, sel: Selection, page: seq<Envelope>, after: nat, through: nat)
    requires WellPlaced(f) && through <= f.frontier && |page| <= |SelectedIn(f.events, sel, after, through)|
    requires forall i :: 0 <= i < |page| ==>
               var k := SelectedIn(f.events, sel, after, through)[i]; k in f.events && page[i] == f.events[k]
    ensures Ahead(f, sel, page, 0, after)
  {
    var s := SelectedIn(f.events, sel, after, through);
    SelectedExactly(f.events, sel, after, through);
    forall i | 0 <= i < |page|
      ensures page[i].position == s[i] && Follows(f, sel, if i == 0 then after else s[i - 1], s[i])
    {
      SelectedFollows(f, sel, after, through, i);
    }
    if page != [] { SelectedFollows(f, sel, after, through, 0); }
  }

  lemma SelectedFollows(f: Feed, sel: Selection, lo: nat, hi: nat, i: nat)
    requires hi <= f.frontier && i < |SelectedIn(f.events, sel, lo, hi)|
    ensures var s := SelectedIn(f.events, sel, lo, hi);
            Follows(f, sel, if i == 0 then lo else s[i - 1], s[i])
  {
    var s := SelectedIn(f.events, sel, lo, hi);
    SelectedExactly(f.events, sel, lo, hi);
    assert s[i] in s;
    forall k | (if i == 0 then lo else s[i - 1]) < k < s[i] ensures !Chosen(f.events, sel, k) {
      NextOnPage(f.events, sel, lo, hi, i, k);
    }
  }

  ghost predicate SourceValid(source: ProjectionSource)
    reads source
  {
    source.Valid() && source.frontier in source.events.Keys + {0}
  }

  /** What was read is the page after the position that the run has reached. */
  ghost predicate PageIsRead(f: Feed, c: Settings, p: Phase, result: EffectResult) {
    && p.AwaitingEvents? && result.EventsRead? && result.events.Ok?
    && IsPage(f, c.selection, At(p.last), result.events.value)
  }

  method DispatchRead(pipeline: ProjectionPipeline, source: ProjectionSource) returns (result: EffectResult)
    requires SourceValid(source) && pipeline.Valid(source.Value()) && pipeline.phase.AwaitingEvents?
    modifies source`frontier
    ensures SourceValid(source) && Grown(old(source.Value()), source.Value()) && pipeline.Valid(source.Value())
    ensures Answers(pipeline.settings, source.Value(), pipeline.phase, pipeline.store.Value(), result)
              && result.EventsRead?
    ensures PageIsRead(source.Value(), pipeline.settings, pipeline.phase, result)
  {
    hide Good, Ahead, Grown, WellPlaced, IsPage;
    ghost var before := source.Value();
    PositionIsVisible(pipeline.settings, before, pipeline.phase, pipeline.tried, pipeline.store.Value());
    var page := ReadPage(source, pipeline.settings.selection, At(pipeline.phase.last));
    GoodGrown(pipeline.settings, before, source.Value(), pipeline.phase, pipeline.tried, pipeline.store.Value());
    result := EventsRead(Ok(page));
  }

  lemma PositionIsVisible(c: Settings, f: Feed, p: Phase, tried: multiset<nat>, d: Durable)
    requires Good(c, f, p, tried, d) && p.AwaitingEvents?
    ensures At(p.last) <= f.frontier
  {
  }

  lemma GrownItself(f: Feed)
    ensures Grown(f, f)
  {
  }

  /** Carries out the effect that the pipeline yielded. */
  method Dispatch(pipeline: ProjectionPipeline, source: ProjectionSource, effect: Effect, w: Weather, tick: nat)
    returns (result: EffectResult)
    requires SourceValid(source) && pipeline.Valid(source.Value()) && Asks(pipeline.phase, Yield(effect))
    modifies source`events, source`frontier, pipeline.store`saved, pipeline.store`flawless
    ensures SourceValid(source) && Grown(old(source.Value()), source.Value()) && pipeline.Valid(source.Value())
    ensures Answers(pipeline.settings, source.Value(), pipeline.phase, pipeline.store.Value(), result)
              && Takes(pipeline.phase, result)
    ensures At(old(pipeline.store.saved)) <= At(pipeline.store.saved)
    ensures effect.SaveCheckpoint? && !w.fails(tick) ==> pipeline.store.saved == Some(effect.position)
    ensures old(pipeline.store.flawless) && !w.fails(tick) ==> pipeline.store.flawless
    ensures effect.ReadEvents? && !w.fails(tick) ==>
              PageIsRead(source.Value(), pipeline.settings, pipeline.phase, result)
    ensures effect.LoadCheckpoint? && !w.fails(tick) ==> result == CheckpointLoaded(Ok(pipeline.store.saved))
    ensures !effect.SaveCheckpoint? ==> pipeline.store.saved == old(pipeline.store.saved)
  {
    hide Good, Ahead, Grown, WellPlaced, IsPage, PageIsRead;
    ghost var before := source.Value();
    source.Commit(w.arrivals(tick));
    ghost var middle := source.Value();
    GoodGrown(pipeline.settings, before, middle, pipeline.phase, pipeline.tried, pipeline.store.Value());
    match effect {
      case ReadEvents(after) =>
        if w.fails(tick) { return EventsRead(Err(())); }
        result := DispatchRead(pipeline, source);
        GrownTransitive(before, middle, source.Value());
      case LoadCheckpoint =>
        result := CheckpointLoaded(if w.fails(tick) then Err(()) else Ok(pipeline.store.saved));
      case SaveCheckpoint(position) =>
        pipeline.Save(source.Value(), !w.fails(tick), w.landed(tick));
        result := CheckpointSaved(if w.fails(tick) then Err(()) else Ok(()));
      case Sleep =>
        result := Slept;
    }
  }

  // ------------------------------------------------------------- a batch run that nothing disturbs

  /** One pass over one page, in which every event is applied and no access fails. */
  ghost predicate Unhindered(c: Settings, w: Weather) {
    c.batch && (forall k: nat :: c.verdict(k) == Applied) && forall k: nat :: !w.fails(k)
  }

  function AllApplied(page: seq<Envelope>, n: nat): (entries: seq<Handled>)
    requires n <= |page|
    ensures |entries| == n && forall i :: 0 <= i < n ==> entries[i] == Handled(page[i].position, true, 0)
  {
    seq(n, i requires 0 <= i < n => Handled(page[i].position, true, 0))
  }

  /** Where such a run is when it asks for `step`, having had `tick` effects carried out. */
  ghost predicate OnTrack(c: Settings, p: Phase, step: Step, saved: Option<nat>, before: seq<Handled>,
                          trail: seq<Handled>, page: Option<seq<Envelope>>, tick: nat) {
    match step
    case Yield(LoadCheckpoint) => p == AwaitingCheckpoint && c.hasStore && page.None? && trail == before && tick == 0
    case Yield(ReadEvents(after)) =>
      p == AwaitingEvents(after, 0) && page.None? && trail == before && tick <= 1
        && after == (if c.hasStore then saved else None)
    case Yield(SaveCheckpoint(_)) =>
      && page.Some? && p.AwaitingCheckpointSave? && p.events == page.value && p.index < |p.events|
      && p.last == Some(p.events[p.index].position)
      && c.hasStore && trail == before + AllApplied(page.value, p.index + 1) && tick <= 2 + p.index
    case Done(r) => r == Ok(()) && page.Some? && trail == before + AllApplied(page.value, |page.value|)
    case _ => false
  }

  lemma StartsOnTrack(c: Settings, p: Phase, calls: nat, q: Phase, saved: Option<nat>, before: seq<Handled>,
                      trail: seq<Handled>, step: Step, calls': nat)
    requires p == (if c.hasStore then LoadingCheckpoint else PollEvents(None, 0)) && Asks(q, step)
    requires Stepped(c, p, calls, before, q, trail, step, calls')
    ensures OnTrack(c, q, step, saved, before, trail, None, 0)
  {
  }

  /** The page, from its event `index` on, when everything before was applied. */
  lemma PageOnTrack(c: Settings, w: Weather, page: seq<Envelope>, index: nat, last: Option<nat>, calls: nat, q: Phase,
                    saved: Option<nat>, before: seq<Handled>, trail: seq<Handled>, now: seq<Handled>, step: Step,
                    calls': nat, tick: nat)
    requires Unhindered(c, w) && index <= |page| && trail == before + AllApplied(page, index) && tick <= 2 + index
    requires Stepped(c, ProcessingEvents(page, index, 0, last), calls, trail, q, now, step, calls') && Asks(q, step)
    ensures OnTrack(c, q, step, saved, before, now, Some(page), tick)
    ensures c.hasStore ==> if index < |page| then q.AwaitingCheckpointSave? && q.index == index else step.Done?
  {
    if index < |page| {
      AllAppliedOn(page, index);
      if !c.hasStore {
        var m :| Swept(c, calls, page, index, 0, last, trail, q, now, step, calls', m);
        SweptAll(c, w, page, index, last, calls, q, before, trail, now, step, calls', m);
      }
    }
  }

  lemma AllAppliedOn(page: seq<Envelope>, n: nat)
    requires n < |page|
    ensures AllApplied(page, n + 1) == AllApplied(page, n) + [Handled(page[n].position, true, 0)]
  {
  }

  lemma SweptAll(c: Settings, w: Weather, page: seq<Envelope>, index: nat, last: Option<nat>, calls: nat, q: Phase,
                 before: seq<Handled>, trail: seq<Handled>, now: seq<Handled>, step: Step, calls': nat, m: nat)
    requires Unhindered(c, w) && index < |page| && trail == before + AllApplied(page, index)
    requires Swept(c, calls, page, index, 0, last, trail, q, now, step, calls', m)
    ensures m == |page| && step == Done(Ok(())) && now == before + AllApplied(page, |page|)
  {
    hide Entries, AllApplied;
    assert m == |page| by { assert c.verdict(calls + m - index) == Applied; }
    EntriesApplied(c, w, page, index, calls);
  }

  lemma EntriesApplied(c: Settings, w: Weather, page: seq<Envelope>, index: nat, calls: nat)
    requires Unhindered(c, w) && index <= |page|
    ensures AllApplied(page, |page|) == AllApplied(page, index) + Entries(c, calls, page, index, |page|)
  {
    var entries := Entries(c, calls, page, index, |page|);
    forall i: nat | i < |page| - index ensures entries[i] == Handled(page[index + i].position, true, 0) {
      assert c.verdict(calls + i) == Applied;
    }
  }

  /** One effect carried out and answered keeps such a run on its track. */
  lemma StaysOnTrack(c: Settings, w: Weather, p: Phase, effect: Effect, calls: nat, saved: Option<nat>,
                     stored: Option<nat>, before: seq<Handled>, trail: seq<Handled>, page: Option<seq<Envelope>>,
                     result: EffectResult, q: Phase, now: seq<Handled>, step: Step, calls': nat, tick: nat)
    returns (page': Option<seq<Envelope>>)
    requires Unhindered(c, w) && OnTrack(c, p, Yield(effect), saved, before, trail, page, tick) && Takes(p, result)
    requires effect.LoadCheckpoint? ==> result == CheckpointLoaded(Ok(stored)) && stored == saved
    requires effect.ReadEvents? ==> result.EventsRead? && result.events.Ok?
    requires Resumed(c, p, calls, stored, result, trail, q, now, step, calls') && Asks(q, step)
    ensures OnTrack(c, q, step, saved, before, now, page', tick + 1)
    ensures if effect.ReadEvents? then page' == Some(result.events.value) else page' == page
    ensures c.hasStore && page'.Some? ==>
              var done := if effect.ReadEvents? then 0 else p.index + 1;
              if done < |page'.value| then q.AwaitingCheckpointSave? && q.index == done
                  else step.Done? && done == |page'.value|
  {
    page' := if effect.ReadEvents? then Some(result.events.value) else page;
    if effect.ReadEvents? {
      var events := result.events.value;
      assert before + AllApplied(events, 0) == before;
      PageOnTrack(c, w, events, 0, p.last, calls, q, saved, before, trail, now, step, calls', tick + 1);
    } else if effect.SaveCheckpoint? {
      PageOnTrack(c, w, page.value, p.index + 1, p.last, calls, q, saved, before, trail, now, step, calls', tick + 1);
    }
  }

  ghost predicate AtStart(pipeline: ProjectionPipeline)
    reads pipeline
  {
    pipeline.phase == if pipeline.settings.hasStore then LoadingCheckpoint else PollEvents(None, 0)
  }

  /** What the checkpoint row holds once `n` events of the page have been saved. */
  function SavedBy(saved: Option<nat>, page: seq<Envelope>, n: nat): Option<nat>
    requires n <= |page|
  {
    if n == 0 then saved else Some(page[n - 1].position)
  }

  function PageStart(c: Settings, saved: Option<nat>): nat {
    if c.hasStore then At(saved) else 0
  }

  /** Such a run on its track, with its page and the checkpoint row. */
  ghost predicate Tracked(c: Settings, p: Phase, step: Step, first: Feed, read: Feed, now: Feed, start: Durable,
                          saved: Option<nat>, trail: seq<Handled>, page: Option<seq<Envelope>>, tick: nat)
  {
    && OnTrack(c, p, step, start.saved, start.trail, trail, page, tick)
    && Grown(first, read) && Grown(read, now)
    && (page.Some? ==> IsPage(read, c.selection, PageStart(c, start.saved), page.value))
    && (page.None? ==> saved == start.saved)
    && (page.Some? && c.hasStore ==>
          saved == SavedBy(start.saved, page.value,
                           if p.AwaitingCheckpointSave? && p.index <= |page.value| then p.index else |page.value|))
  }

  lemma StartIsTracked(c: Settings, p: Phase, first: Feed, start: Durable, saved: Option<nat>, trail: seq<Handled>,
                       step: Step)
    requires OnTrack(c, p, step, start.saved, start.trail, trail, None, 0) && saved == start.saved
    ensures Tracked(c, p, step, first, first, first, start, saved, trail, None, 0)
  {
    GrownItself(first);
  }

  lemma PageIsShort(f: Feed, sel: Selection, after: nat, page: seq<Envelope>)
    requires IsPage(f, sel, after, page)
    ensures |page| <= PAGE_SIZE
  {
  }

  lemma TrackEnds(c: Settings, p: Phase, step: Step, first: Feed, read: Feed, now: Feed, start: Durable, d: Durable,
                  page: Option<seq<Envelope>>, tick: nat)
    requires Tracked(c, p, step, first, read, now, start, d.saved, d.trail, page, tick) && Asks(p, step)
    ensures step.Done? ==> step.result == Ok(()) && page.Some? && PageHandled(c, first, read, now, page.value, start, d)
    ensures step.Yield? ==> tick < PAGE_SIZE + 2
  {
    hide Grown, IsPage;
    if page.Some? { PageIsShort(read, c.selection, PageStart(c, start.saved), page.value); }
  }

  /** One effect carried out and answered; with `stored` saved when the answer is taken up. */
  ghost predicate Turned(c: Settings, w: Weather, tick: nat, p: Phase, effect: Effect, calls: nat, saved: Option<nat>,
                         trail: seq<Handled>, next: Feed, result: EffectResult, stored: Option<nat>, q: Phase,
                         trail': seq<Handled>, step: Step, calls': nat) {
    && Asks(p, Yield(effect)) && Takes(p, result) && Asks(q, step)
    && Resumed(c, p, calls, stored, result, trail, q, trail', step, calls')
    && (!w.fails(tick) ==>
          && (effect.LoadCheckpoint? ==> result == CheckpointLoaded(Ok(stored)))
          && (effect.ReadEvents? ==> PageIsRead(next, c, p, result))
          && stored == if effect.SaveCheckpoint? then Some(effect.position) else saved)
  }

  /** One turn of the shell loop. */
  method Turn(pipeline: ProjectionPipeline, source: ProjectionSource, effect: Effect, w: Weather, tick: nat)
    returns (step: Step, ghost result: EffectResult, ghost stored: Option<nat>)
    requires SourceValid(source) && pipeline.Valid(source.Value()) && Asks(pipeline.phase, Yield(effect))
    modifies pipeline`phase, pipeline`calls, pipeline`tried, source`events, source`frontier, pipeline.store
    ensures SourceValid(source) && Grown(old(source.Value()), source.Value()) && pipeline.Valid(source.Value())
    ensures At(old(pipeline.store.saved)) <= At(pipeline.store.saved)
              && old(pipeline.store.trail) <= pipeline.store.trail
    ensures old(pipeline.store.flawless) && !w.fails(tick) ==> pipeline.store.flawless
    ensures Asks(pipeline.phase, step) && stored == pipeline.store.saved
    ensures Turned(pipeline.settings, w, tick, old(pipeline.phase), effect, old(pipeline.calls),
                   old(pipeline.store.saved),
                   old(pipeline.store.trail), source.Value(), result, stored, pipeline.phase, pipeline.store.trail,
                   step, pipeline.calls)
  {
    hide Good, Grown, Answers, Resumed, Stepped, PageIsRead, SourceValid;
    var answer := Dispatch(pipeline, source, effect, w, tick);
    result, stored := answer, pipeline.store.saved;
    step := pipeline.Resume(source.Value(), answer);
  }

  lemma TrackedOn(c: Settings, w: Weather, p: Phase, effect: Effect, calls: nat, first: Feed, read: Feed, now: Feed,
                  next: Feed, start: Durable, saved: Option<nat>, stored: Option<nat>, trail: seq<Handled>,
                  page: Option<seq<Envelope>>, result: EffectResult, q: Phase, trail': seq<Handled>, step: Step,
                  calls': nat, tick: nat)
    returns (page': Option<seq<Envelope>>, read': Feed)
    requires Unhindered(c, w) && Tracked(c, p, Yield(effect), first, read, now, start, saved, trail, page, tick)
    requires Grown(now, next) && Grown(first, next)
    requires Turned(c, w, tick, p, effect, calls, saved, trail, next, result, stored, q, trail', step, calls')
    ensures Tracked(c, q, step, first, read', next, start, stored, trail', page', tick + 1)
  {
    hide Grown, IsPage, Resumed;
    page' := StaysOnTrack(c, w, p, effect, calls, start.saved, stored, start.trail, trail, page, result, q, trail',
                          step, calls', tick);
    GrownTransitive(read, now, next);
    GrownItself(next);
    read' := if effect.ReadEvents? then next else read;
  }

  /** Everything that a batch run which nothing hinders has to show for itself. */
  ghost predicate PageHandled(c: Settings, first: Feed, read: Feed, now: Feed, page: seq<Envelope>, before: Durable,
                              after: Durable)
  {
    && Grown(first, read) && Grown(read, now)
    && IsPage(read, c.selection, PageStart(c, before.saved), page)
    && after.trail == before.trail + AllApplied(page, |page|)
    && (c.hasStore ==> after.saved == SavedBy(before.saved, page, |page|))
  }

  /** One run that a crash, or its end, stops after at most `steps` effects; it never panics.  A
      batch run that is given the steps, and in which nothing fails and every event is applied,
      handles exactly one page of what was committed when it was read, in order, and ends well. */
  method Run(pipeline: ProjectionPipeline, source: ProjectionSource, w: Weather, steps: nat)
    returns (outcome: Option<Result<(), string>>, ghost page: Option<seq<Envelope>>, ghost read: Feed)
    requires SourceValid(source) && pipeline.Valid(source.Value()) && Ready(pipeline.phase)
    modifies pipeline`phase, pipeline`calls, pipeline`tried, source`events, source`frontier, pipeline.store
    ensures SourceValid(source) && Grown(old(source.Value()), source.Value())
    ensures Safe(source.Value(), pipeline.settings.selection, pipeline.store.Value())
    ensures At(old(pipeline.store.saved)) <= At(pipeline.store.saved)
              && old(pipeline.store.trail) <= pipeline.store.trail
    ensures Bounded(pipeline.settings, pipeline.tried)
    ensures old(pipeline.store.flawless) && (forall k: nat :: !w.fails(k)) ==> pipeline.store.flawless
    ensures old(AtStart(pipeline)) && Unhindered(pipeline.settings, w) && steps >= PAGE_SIZE + 2 ==>
              && outcome == Some(Ok(())) && page.Some?
              && PageHandled(pipeline.settings, old(source.Value()), read, source.Value(), page.value,
                             old(pipeline.store.Value()), pipeline.store.Value())
  {
    hide Good, Grown, Safe, Bounded, Answers, Resumed, Stepped, Tracked, IsPage, PageIsRead, Takes, PageHandled,
      Unhindered, Turned, SourceValid;
    var tick := 0;
    ghost var first, start, phase0, calls0 := source.Value(), pipeline.store.Value(), pipeline.phase, pipeline.calls;
    ghost var smooth := AtStart(pipeline) && Unhindered(pipeline.settings, w);
    page, read := None, first;
    GrownItself(first);
    var step := pipeline.Step(source.Value());
    if smooth {
      StartIsTracked(pipeline.settings, pipeline.phase, first, start, pipeline.store.saved, pipeline.store.trail,
                     step) by {
      StartsOnTrack(pipeline.settings, phase0, calls0, pipeline.phase, start.saved, start.trail, pipeline.store.trail,
                    step, pipeline.calls);
      }
    }
    while tick < steps && step.Yield?
      invariant SourceValid(source) && Grown(first, source.Value())
      invariant pipeline.Valid(source.Value()) && Asks(pipeline.phase, step)
      invariant At(start.saved) <= At(pipeline.store.saved) && start.trail <= pipeline.store.trail
      invariant start.flawless && (forall k: nat :: !w.fails(k)) ==> pipeline.store.flawless
      invariant smooth ==>
                  Tracked(pipeline.settings, pipeline.phase, step, first, read, source.Value(), start,
                          pipeline.store.saved, pipeline.store.trail, page, tick)
    {
      ghost var now, p, calls, trail, saved := source.Value(), pipeline.phase, pipeline.calls, pipeline.store.trail,
        pipeline.store.saved;
      var effect := step.effect;
      ghost var result, stored;
      step, result, stored := Turn(pipeline, source, effect, w, tick);
      GrownTransitive(first, now, source.Value());
      if smooth {
        page, read := TrackedOn(pipeline.settings, w, p, effect, calls, first, read, now, source.Value(), start, saved,
                                stored, trail, page, result, pipeline.phase, pipeline.store.trail, step,
                                pipeline.calls, tick);
      }
      tick := tick + 1;
    }
    GoodFacts(pipeline.settings, source.Value(), pipeline.phase, pipeline.tried, pipeline.store.Value());
    outcome := if step.Done? then Some(step.result) else None;
    if smooth {
      TrackEnds(pipeline.settings, pipeline.phase, step, first, read, source.Value(), start, pipeline.store.Value(),
                page, tick);
    }
  }

  datatype Attempt = Attempt(settings: Settings, weather: Weather, steps: nat)

  /** Any number of runs against one checkpoint store, each ended by a crash or on its own. */
  method Lifetime(store: CheckpointStore, source: ProjectionSource, sel: Selection, attempts: seq<Attempt>)
    requires SourceValid(source) && Safe(source.Value(), sel, store.Value())
    modifies source`events, source`frontier, store
    ensures SourceValid(source) && Safe(source.Value(), sel, store.Value())
    ensures At(old(store.saved)) <= At(store.saved) && old(store.trail) <= store.trail
    ensures old(store.flawless) && (forall a, k: nat :: a in attempts ==> !a.weather.fails(k)) ==> store.flawless
  {
    hide Safe, Good;
    var i := 0;
    while i < |attempts|
      invariant 0 <= i <= |attempts|
      invariant SourceValid(source) && Safe(source.Value(), sel, store.Value())
      invariant At(old(store.saved)) <= At(store.saved) && old(store.trail) <= store.trail
      invariant old(store.flawless) && (forall a, k: nat :: a in attempts ==> !a.weather.fails(k)) ==> store.flawless
    {
      var a := attempts[i];
      assert a in attempts;
      var settings := a.settings.(hasStore := true, selection := sel);
      var pipeline := new ProjectionPipeline(store, settings);
      StartIsGood(settings, source.Value(), store.Value());
      var _, _, _ := Run(pipeline, source, a.weather, a.steps);
      i := i + 1;
    }
  }

  lemma StartIsGood(c: Settings, f: Feed, d: Durable)
    requires Safe(f, c.selection, d) && c.hasStore
    ensures Good(c, f, LoadingCheckpoint, multiset{}, d)
  {
  }
}
