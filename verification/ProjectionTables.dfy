/** The destination of a transactional projection: a read model and its progress row, which
    only ever change together, in one committed transaction. */
module ProjectionTables {
  import opened Streams
  import opened Delivery

  /** The application's read model; its content is left uninterpreted. */
  type ReadModel(!new)

  datatype Progress = Progress(source: string, selection: string, position: nat)

  datatype Tables = Tables(model: ReadModel, progress: Option<Progress>)

  datatype Projection = Projection(
    source: string,
    selection: Selection,
    initial: ReadModel,
    effect: (ReadModel, Envelope) -> ReadModel,
    decodes: Envelope -> bool)

  /** Why a commit moved the progress row, and which run committed it. */
  datatype Handled = Handled(position: nat, applied: bool, run: nat)

  datatype Picture = Picture(feed: Feed, tables: Tables, trail: seq<Handled>)

  function Reached(progress: Option<Progress>): nat {
    if progress.Some? then progress.value.position else 0
  }

  predicate Ours(p: Projection, progress: Option<Progress>) {
    progress.Some? ==> progress.value.source == p.source && progress.value.selection == p.selection.id
  }

  function Positions(trail: seq<Handled>): seq<nat> {
    if trail == [] then []
    else Positions(trail[..|trail| - 1]) + [trail[|trail| - 1].position]
  }

  /** The read model that the applied entries of a trail produce, in order, from the initial one. */
  function Rebuild(p: Projection, events: map<nat, Envelope>, trail: seq<Handled>): ReadModel {
    if trail == [] then p.initial
    else
      var m, last := Rebuild(p, events, trail[..|trail| - 1]), trail[|trail| - 1];
      if last.applied && last.position in events then p.effect(m, events[last.position]) else m
  }

  /** Exactly once, in order: the commits so far handled each selected event up to the durable
      progress once, and the read model is what the applied ones produce. */
  ghost predicate Exact(p: Projection, now: Picture) {
    && Ours(p, now.tables.progress)
    && Reached(now.tables.progress) <= now.feed.frontier
    && Positions(now.trail) == SelectedIn(now.feed.events, p.selection, 0, Reached(now.tables.progress))
    && now.tables.model == Rebuild(p, now.feed.events, now.trail)
  }

  /** Time only adds: to the sequence, to the trail, to the progress. */
  ghost predicate Later(now: Picture, next: Picture) {
    && Grown(now.feed, next.feed)
    && now.trail <= next.trail
    && Reached(now.tables.progress) <= Reached(next.tables.progress)
  }

  /** No selected event is left between the durable progress and `after`. */
  ghost predicate Settled(p: Projection, now: Picture, after: nat) {
    && after <= now.feed.frontier
    && forall n :: Reached(now.tables.progress) < n <= after ==> !Chosen(now.feed.events, p.selection, n)
  }

  /** Position `n` is the next selected one after what is settled. */
  ghost predicate NextUp(p: Projection, now: Picture, n: nat) {
    && 0 < n <= now.feed.frontier
    && Chosen(now.feed.events, p.selection, n)
    && Settled(p, now, n - 1)
  }

  lemma LaterItself(a: Picture)
    ensures Later(a, a)
  {
  }

  lemma LaterTransitive(a: Picture, b: Picture, c: Picture)
    requires Later(a, b) && Later(b, c)
    ensures Later(a, c)
  {
    GrownTransitive(a.feed, b.feed, c.feed);
  }

  lemma SettledLater(p: Projection, now: Picture, next: Picture, after: nat)
    requires Settled(p, now, after) && Later(now, next)
    ensures Settled(p, next, after)
  {
    forall n | Reached(next.tables.progress) < n <= after ensures !Chosen(next.feed.events, p.selection, n) {
      assert !Chosen(now.feed.events, p.selection, n);
    }
  }

  lemma NextUpLater(p: Projection, now: Picture, next: Picture, n: nat)
    requires NextUp(p, now, n) && Later(now, next)
    ensures NextUp(p, next, n) && next.feed.events[n] == now.feed.events[n]
  {
    SettledLater(p, now, next, n - 1);
  }

  lemma {:induction false} RebuildGrown(p: Projection, f: Feed, g: Feed, trail: seq<Handled>)
    requires Grown(f, g) && forall h :: h in trail ==> h.position in f.events
    ensures Rebuild(p, g.events, trail) == Rebuild(p, f.events, trail)
  {
    if trail != [] {
      RebuildGrown(p, f, g, trail[..|trail| - 1]);
      assert trail[|trail| - 1] in trail;
    }
  }

  lemma {:induction false} PositionsMember(trail: seq<Handled>, h: Handled)
    requires h in trail
    ensures h.position in Positions(trail)
  {
    if h != trail[|trail| - 1] {
      assert trail == trail[..|trail| - 1] + [trail[|trail| - 1]];
      PositionsMember(trail[..|trail| - 1], h);
    }
  }

  /** New events never disturb what was projected. */
  lemma ExactGrown(p: Projection, now: Picture, g: Feed)
    requires Exact(p, now) && Grown(now.feed, g)
    ensures Exact(p, now.(feed := g))
  {
    var reached := Reached(now.tables.progress);
    SelectedStable(now.feed, g, p.selection, 0, reached);
    forall h | h in now.trail ensures h.position in now.feed.events {
      PositionsMember(now.trail, h);
      SelectedExactly(now.feed.events, p.selection, 0, reached);
    }
    RebuildGrown(p, now.feed, g, now.trail);
  }

  /** The tables after the commit that handles position `n`. */
  function Advanced(p: Projection, now: Picture, n: nat, applied: bool): Tables {
    Tables(if applied && n in now.feed.events then p.effect(now.tables.model, now.feed.events[n]) else now.tables.model,
           Some(Progress(p.source, p.selection.id, n)))
  }

  function Committed(p: Projection, now: Picture, n: nat, applied: bool, run: nat): Picture {
    Picture(now.feed, Advanced(p, now, n, applied), now.trail + [Handled(n, applied, run)])
  }

  /** Committing the next selected event, applied or skipped, keeps the projection exact. */
  lemma ExactAdvances(p: Projection, now: Picture, n: nat, applied: bool, run: nat)
    requires Exact(p, now) && NextUp(p, now, n) && n > Reached(now.tables.progress)
    ensures Exact(p, Committed(p, now, n, applied, run)) && Later(now, Committed(p, now, n, applied, run))
  {
    var reached := Reached(now.tables.progress);
    var trail := now.trail + [Handled(n, applied, run)];
    assert trail[..|trail| - 1] == now.trail;
    SelectedSplit(now.feed.events, p.selection, 0, reached, n);
    SelectedNone(now.feed.events, p.selection, reached, n - 1);
  }

  datatype Tally = Tally(processed: nat, skipped: nat)

  /** How many events a run's own commits applied and skipped. */
  function TallyOf(trail: seq<Handled>, run: nat): Tally {
    if trail == [] then Tally(0, 0)
    else Counted(TallyOf(trail[..|trail| - 1], run), trail[|trail| - 1], run)
  }

  function Counted(t: Tally, h: Handled, run: nat): Tally {
    if h.run != run then t
    else if h.applied then t.(processed := t.processed + 1)
    else t.(skipped := t.skipped + 1)
  }

  lemma TallySnoc(trail: seq<Handled>, h: Handled, run: nat)
    ensures TallyOf(trail + [h], run) == Counted(TallyOf(trail, run), h, run)
  {
    assert (trail + [h])[..|trail + [h]| - 1] == trail;
  }

  lemma CommitFacts(p: Projection, now: Picture, n: nat, applied: bool, run: nat, who: nat)
    requires Exact(p, now) && NextUp(p, now, n) && n > Reached(now.tables.progress)
    ensures var next := Committed(p, now, n, applied, run);
            && Exact(p, next) && Later(now, next) && Reached(next.tables.progress) == n
            && TallyOf(next.trail, who) == Counted(TallyOf(now.trail, who), Handled(n, applied, run), who)
  {
    ExactAdvances(p, now, n, applied, run);
    TallySnoc(now.trail, Handled(n, applied, run), who);
  }

  // ------------------------------------------------------------- what exactness means

  /** Every selected event up to the durable progress was handled by exactly one commit, in
      delivery order. */
  lemma ExactlyOnce(p: Projection, now: Picture)
    requires Exact(p, now)
    ensures |now.trail| == |Positions(now.trail)|
    ensures forall i :: 0 <= i < |now.trail| ==> now.trail[i].position == Positions(now.trail)[i]
    ensures forall i, j :: 0 <= i < j < |now.trail| ==> now.trail[i].position < now.trail[j].position
    ensures forall n :: 0 < n <= Reached(now.tables.progress) && Chosen(now.feed.events, p.selection, n)
                        <==> exists i :: 0 <= i < |now.trail| && now.trail[i].position == n
  {
    PositionsAt(now.trail);
    SelectedExactly(now.feed.events, p.selection, 0, Reached(now.tables.progress));
    var s := Positions(now.trail);
    forall n | 0 < n <= Reached(now.tables.progress) && Chosen(now.feed.events, p.selection, n)
      ensures exists i :: 0 <= i < |now.trail| && now.trail[i].position == n
    {
      assert n in s;
      var i :| 0 <= i < |s| && s[i] == n;
      assert now.trail[i].position == n;
    }
    assert forall i :: 0 <= i < |now.trail| ==> s[i] in s;
  }

  lemma {:induction false} PositionsAt(trail: seq<Handled>)
    ensures |Positions(trail)| == |trail|
    ensures forall i :: 0 <= i < |trail| ==> Positions(trail)[i] == trail[i].position
  {
    if trail != [] { PositionsAt(trail[..|trail| - 1]); }
  }

  /** The model of a plain replay: apply each selected position in turn. */
  function Replayed(p: Projection, events: map<nat, Envelope>, positions: seq<nat>): ReadModel {
    if positions == [] then p.initial
    else
      var m, n := Replayed(p, events, positions[..|positions| - 1]), positions[|positions| - 1];
      if n in events then p.effect(m, events[n]) else m
  }

  /** Each selected event in turn is applied to the model before it. */
  ghost predicate AppliedInTurn(p: Projection, events: map<nat, Envelope>, positions: seq<nat>,
                                models: seq<ReadModel>) {
    && |models| == |positions| + 1 && models[0] == p.initial
    && forall i :: 0 <= i < |positions| ==>
         positions[i] in events && models[i + 1] == p.effect(models[i], events[positions[i]])
  }

  lemma {:induction false} ReplayAppliesInTurn(p: Projection, events: map<nat, Envelope>, positions: seq<nat>)
    returns (models: seq<ReadModel>)
    requires forall i :: 0 <= i < |positions| ==> positions[i] in events
    ensures AppliedInTurn(p, events, positions, models) && models[|positions|] == Replayed(p, events, positions)
  {
    if positions == [] {
      models := [p.initial];
    } else {
      models := ReplayAppliesInTurn(p, events, positions[..|positions| - 1]);
      models := models + [Replayed(p, events, positions)];
    }
  }

  lemma {:induction false} NoSkipsRebuild(p: Projection, events: map<nat, Envelope>, trail: seq<Handled>)
    requires forall h :: h in trail ==> h.applied
    ensures Rebuild(p, events, trail) == Replayed(p, events, Positions(trail))
  {
    if trail != [] {
      NoSkipsRebuild(p, events, trail[..|trail| - 1]);
      PositionsAt(trail);
      assert trail[|trail| - 1] in trail;
      assert Positions(trail)[..|Positions(trail)| - 1] == Positions(trail[..|trail| - 1]);
    }
  }

  /** A projection settled through `through` without skips holds exactly the replay of the
      selected events up to there, whatever retries, crashes, leaders or resets led to it. */
  lemma SettledModelIsReplay(p: Projection, now: Picture, through: nat)
    requires Exact(p, now) && Settled(p, now, through) && Reached(now.tables.progress) <= through
    requires forall h :: h in now.trail ==> h.applied
    ensures now.tables.model == Replayed(p, now.feed.events, SelectedIn(now.feed.events, p.selection, 0, through))
  {
    var reached := Reached(now.tables.progress);
    SelectedSplit(now.feed.events, p.selection, 0, reached, through);
    SelectedNone(now.feed.events, p.selection, reached, through);
    assert Positions(now.trail) == SelectedIn(now.feed.events, p.selection, 0, through);
    NoSkipsRebuild(p, now.feed.events, now.trail);
  }

  /** Two destinations settled through the same position without skips hold the same model:
      a replay after a reset rebuilds what a first run over an empty model built. */
  lemma ReplayEqualsFirstRun(p: Projection, a: Picture, b: Picture, through: nat)
    requires Exact(p, a) && Settled(p, a, through) && Reached(a.tables.progress) <= through
    requires Exact(p, b) && Settled(p, b, through) && Reached(b.tables.progress) <= through
    requires Grown(a.feed, b.feed)
    requires forall h :: h in a.trail + b.trail ==> h.applied
    ensures a.tables.model == b.tables.model
  {
    ExactGrown(p, a, b.feed);
    SettledLater(p, a, a.(feed := b.feed), through);
    SettledModelIsReplay(p, a.(feed := b.feed), through);
    SettledModelIsReplay(p, b, through);
  }

  /** A reset destination is exact again, so replaying it obeys the same theorem. */
  lemma ResetIsExact(p: Projection, f: Feed)
    ensures Exact(p, Picture(f, Tables(p.initial, None), []))
  {
  }
}
