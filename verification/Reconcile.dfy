/** Reconciling forks: one merge transaction per fork that the application resolves, what a pass
    leaves of the replica's identity, and two histories in which the index or the identity is
    not what the documentation says. */
module Reconcile {
  import opened Streams
  import opened TransactionGraph
  import opened FileIndex
  import opened FileStore
  import opened Forks
  import opened ReplicaHistory

  /** The application's policy: events that settle a fork, or nothing. */
  type Resolver = Fork -> Option<seq<Event>>

  /** What the clock and the id generator yield for one merge transaction. */
  datatype Stamp = Stamp(id: Uuid, createdAt: nat, eventId: nat -> Uuid)

  /** From the `n`th on, stamps are later than everything present and their event ids are fresh. */
  ghost predicate Unused(stamps: nat -> Stamp, n: nat, files: Files, rank: Uuid -> nat, known: set<Uuid>) {
    && (forall i: nat :: i >= n ==> IsNewId(files, rank, stamps(i).id))
    && (forall i: nat, j: nat :: i < j ==> rank(stamps(i).id) < rank(stamps(j).id))
    && (forall i: nat, k: nat :: i >= n ==> stamps(i).eventId(k) !in known)
    && (forall i: nat, j: nat, k: nat, l: nat :: stamps(i).eventId(k) == stamps(j).eventId(l) ==> i == j && k == l)
  }

  datatype Report = Report(resolved: nat, unresolved: seq<StreamId>)

  predicate Accepts(resolver: Resolver, forks: seq<Fork>, i: nat)
    requires i < |forks|
  {
    resolver(forks[i]).Some?
  }

  /** The outcome of a pass over the first `n` forks. */
  function Outcome(resolver: Resolver, forks: seq<Fork>, n: nat): Report
    requires n <= |forks|
  {
    if n == 0 then Report(0, [])
    else
      var before := Outcome(resolver, forks, n - 1);
      if Accepts(resolver, forks, n - 1) then before.(resolved := before.resolved + 1)
      else before.(unresolved := before.unresolved + [forks[n - 1].claim.stream])
  }

  /** `report` counts the forks that the resolver settled, and lists the streams of the others. */
  ghost predicate Tells(report: Report, resolver: Resolver, forks: seq<Fork>) {
    exists settled: seq<Fork>, left: seq<Fork> ::
      && IsFiltered(settled, forks, (f: Fork) => resolver(f).Some?)
      && IsFiltered(left, forks, (f: Fork) => resolver(f).None?)
      && report.resolved == |settled| && |report.unresolved| == |left|
      && forall k :: 0 <= k < |left| ==> report.unresolved[k] == left[k].claim.stream
  }

  lemma {:induction false} OutcomeTells(resolver: Resolver, forks: seq<Fork>, n: nat)
    returns (settled: seq<Fork>, left: seq<Fork>)
    requires n <= |forks|
    ensures IsFiltered(settled, forks[..n], (f: Fork) => resolver(f).Some?)
    ensures IsFiltered(left, forks[..n], (f: Fork) => resolver(f).None?)
    ensures Outcome(resolver, forks, n).resolved == |settled|
    ensures |Outcome(resolver, forks, n).unresolved| == |left|
    ensures forall k :: 0 <= k < |left| ==> Outcome(resolver, forks, n).unresolved[k] == left[k].claim.stream
  {
    hide IsFiltered;
    var yes, no := (f: Fork) => resolver(f).Some?, (f: Fork) => resolver(f).None?;
    if n == 0 {
      settled, left := [], [];
      FilteredNone(yes);
      FilteredNone(no);
      assert forks[..0] == [];
    } else {
      settled, left := OutcomeTells(resolver, forks, n - 1);
      var f := forks[n - 1];
      FilteredSnoc(settled, forks[..n - 1], yes, f);
      FilteredSnoc(left, forks[..n - 1], no, f);
      settled := settled + (if yes(f) then [f] else []);
      left := left + (if no(f) then [f] else []);
      assert forks[..n - 1] + [f] == forks[..n];
    }
  }

  lemma ReportTells(resolver: Resolver, forks: seq<Fork>)
    ensures Tells(Outcome(resolver, forks, |forks|), resolver, forks)
  {
    hide IsFiltered, Outcome;
    var settled, left := OutcomeTells(resolver, forks, |forks|);
    assert forks[..|forks|] == forks;
  }

  /** `merged` are `ids` and the stamps of the forks settled among the first `n`. */
  ghost predicate AreMerged(merged: set<Uuid>, ids: set<Uuid>, resolver: Resolver, forks: seq<Fork>,
                            stamps: nat -> Stamp, n: nat)
    requires n <= |forks|
  {
    forall x :: x in merged <==>
      x in ids || exists i: nat :: i < n && Accepts(resolver, forks, i) && stamps(i).id == x
  }

  /** As many transactions were added as forks were settled. */
  lemma {:induction false} MergesAreCounted(ids: set<Uuid>, merged: set<Uuid>, resolver: Resolver, forks: seq<Fork>,
                                            stamps: nat -> Stamp, n: nat)
    requires n <= |forks| && forall i: nat, j: nat :: i < j ==> stamps(i).id != stamps(j).id
    requires (forall i: nat :: stamps(i).id !in ids) && AreMerged(merged, ids, resolver, forks, stamps, n)
    ensures |merged| == |ids| + Outcome(resolver, forks, n).resolved
    decreases n
  {
    hide AreMerged;
    if n == 0 {
      NothingIsAdded(ids, merged, resolver, forks, stamps);
    } else {
      OneLess(ids, merged, resolver, forks, stamps, n);
      if Accepts(resolver, forks, n - 1) {
        MergesAreCounted(ids, merged - {stamps(n - 1).id}, resolver, forks, stamps, n - 1);
      } else {
        MergesAreCounted(ids, merged, resolver, forks, stamps, n - 1);
      }
    }
  }

  lemma NothingIsAdded(ids: set<Uuid>, merged: set<Uuid>, resolver: Resolver, forks: seq<Fork>, stamps: nat -> Stamp)
    requires AreMerged(merged, ids, resolver, forks, stamps, 0)
    ensures merged == ids
  {
  }

  lemma OneLess(ids: set<Uuid>, merged: set<Uuid>, resolver: Resolver, forks: seq<Fork>, stamps: nat -> Stamp, n: nat)
    requires 0 < n <= |forks| && (forall i: nat, j: nat :: i < j ==> stamps(i).id != stamps(j).id)
    requires (forall i: nat :: stamps(i).id !in ids) && AreMerged(merged, ids, resolver, forks, stamps, n)
    ensures if Accepts(resolver, forks, n - 1) then
              && stamps(n - 1).id in merged
              && AreMerged(merged - {stamps(n - 1).id}, ids, resolver, forks, stamps, n - 1)
            else AreMerged(merged, ids, resolver, forks, stamps, n - 1)
  {
    hide Accepts;
    var rest := if Accepts(resolver, forks, n - 1) then merged - {stamps(n - 1).id} else merged;
    forall x | x in rest && x !in ids
      ensures exists i: nat :: i < n - 1 && Accepts(resolver, forks, i) && stamps(i).id == x {
      var i: nat :| i < n && Accepts(resolver, forks, i) && stamps(i).id == x;
    }
  }

  /** Below the fork's heads only, with the events that settle it. */
  ghost predicate IsMergeOf(t: Transaction, replica: Uuid, fork: Fork, items: seq<Event>, stamp: Stamp) {
    && t.replica == replica && t.createdAt == stamp.createdAt && t.parents == fork.transactions
    && |t.events| == |items|
    && (forall k :: 0 <= k < |items| ==>
          t.events[k].stream == items[k].stream && t.events[k].payload == items[k].payload
            && t.events[k].id == stamp.eventId(k))
  }

  /** The events are these items, in their order. */
  predicate EventsAre(events: seq<FileEvent>, items: seq<Event>) {
    && |events| == |items|
    && forall k :: 0 <= k < |items| ==> events[k].stream == items[k].stream && events[k].payload == items[k].payload
  }

  /** `g` is `files` with one merge transaction for every accepted fork among the first `n`. */
  ghost predicate HasMerges(files: Files, g: Files, replica: Uuid, resolver: Resolver, forks: seq<Fork>,
                            stamps: nat -> Stamp, n: nat)
    requires n <= |forks|
  {
    && Includes(g, files)
    && (forall x :: x in g <==>
         x in files || exists i: nat :: i < n && Accepts(resolver, forks, i) && stamps(i).id == x)
    && (forall i: nat :: i < n && Accepts(resolver, forks, i) ==>
          stamps(i).id in g && IsMergeOf(g[stamps(i).id], replica, forks[i], resolver(forks[i]).value, stamps(i)))
  }

  /** The replica's transactions are one chain exactly if nothing was merged, or one fork whose
      heads stand above everything the replica wrote. */
  ghost predicate ChainAfter(files: Files, g: Files, rank: Uuid -> nat, replica: Uuid, resolver: Resolver,
                             forks: seq<Fork>, n: nat)
    requires Ranked(files, rank) && Ranked(g, rank) && n <= |forks|
  {
    OneChainPerReplica(g, rank) <==>
      || Outcome(resolver, forks, n).resolved == 0
      || (&& Outcome(resolver, forks, n).resolved == 1
          && forall i: nat :: i < n && Accepts(resolver, forks, i) ==>
             JoinsOwn(files, rank, replica, forks[i].transactions))
  }

  /** The forks' heads are present and the stamps are not. */
  ghost predicate Prepared(files: Files, rank: Uuid -> nat, forks: seq<Fork>, stamps: nat -> Stamp) {
    && (forall k: nat :: IsNewId(files, rank, stamps(k).id))
    && (forall f, h :: f in forks && h in f.transactions ==> h in files)
  }

  /** The first `n` forks have been dealt with; `known` are the event ids in use. */
  ghost predicate PassedTo(files: Files, g: Files, known: set<Uuid>, rank: Uuid -> nat, replica: Uuid,
                           resolver: Resolver, forks: seq<Fork>, stamps: nat -> Stamp, n: nat)
    requires n <= |forks|
  {
    && Ranked(files, rank) && Ranked(g, rank) && Prepared(files, rank, forks, stamps)
    && Unused(stamps, n, g, rank, known)
    && HasMerges(files, g, replica, resolver, forks, stamps, n)
    && ChainAfter(files, g, rank, replica, resolver, forks, n)
  }

  /** All the unresolved forks, each once, in the order of their claims. */
  ghost predicate AreTheForks(forks: seq<Fork>, files: Files, rank: Uuid -> nat)
    requires Ranked(files, rank)
  {
    && (forall c :: ForkAt(files, rank, c) <==> c in ClaimsOf(forks))
    && (forall f :: f in forks ==> IsFork(files, rank, f))
    && Ascending(forks) && DistinctClaims(forks)
  }

  /** The report is true of what was written: as many new transactions as it counts, and for each
      settled fork one below its heads with the events that settle it. */
  ghost predicate IsReport(report: Report, files: Files, g: Files, resolver: Resolver, forks: seq<Fork>,
                           stamps: nat -> Stamp) {
    && Tells(report, resolver, forks) && |g| == |files| + report.resolved
    && (forall i :: 0 <= i < |forks| && resolver(forks[i]).Some? ==>
          && stamps(i).id in g && stamps(i).id !in files && g[stamps(i).id].parents == forks[i].transactions
          && EventsAre(g[stamps(i).id].events, resolver(forks[i]).value))
  }

  /** Reports every unresolved fork to the resolver and writes a merge transaction for each one
      it settles, one after the other, with no look at the forks or the index in between. */
  method ReconcileForks(store: FileEventStore, resolver: Resolver, stamps: nat -> Stamp, ghost h: History)
    returns (r: Result<Report, Collision>, ghost forks: seq<Fork>, ghost h': History)
    requires store.Valid() && Unused(stamps, 0, store.headers, store.rank, store.log.numbers.Keys)
    modifies store, store.log, store.directory
    ensures store.Valid() && Follows(old(store.Now()), store.Now()) && old(store.byIngestion) <= store.byIngestion
    ensures r.Ok? <==> OneChainPerReplica(old(store.directory.files), store.rank)
    ensures r.Err? ==> store.Now() == old(store.Now())
    ensures r.Ok? ==>
              && AreTheForks(forks, old(store.directory.files), store.rank)
              && r.value == Outcome(resolver, forks, |forks|)
              && IsReport(r.value, old(store.directory.files), store.directory.files, resolver, forks, stamps)
              && HasMerges(old(store.directory.files), store.directory.files, store.replica, resolver, forks, stamps,
                           |forks|)
              && ChainAfter(old(store.directory.files), store.directory.files, store.rank, store.replica, resolver,
                            forks, |forks|)
    ensures forall s :: store.StreamMatches(s) ==> old(store.StreamMatches(s))
    ensures old(Leads(h, store.rank, store.replica, store.directory.files, stamps, 0)) ==>
              Leaves(h', store.rank, store.replica, store.directory.files)
  {
    hide IsArrangement, GroupsByStream, StreamIs, Flat, InOrder, IsIndexButStreams, ForkAt, IsFork, OneChainPerReplica,
      HasMerges, ChainAfter, Unused, Ranked, IsCanonical, Includes, IsStage, ClaimsOf, PassedTo, Genuine, View,
      IsNewId, Ascending, DistinctClaims, IsReport;
    h' := h;
    StageFacts(store.Now(), store.rank);
    FollowsItself(store.Now());
    forks := [];
    var detected := DetectForks(store.headers, store.rank);
    if detected.Err? { return Err(detected.error), forks, h'; }
    forks := detected.value;
    ghost var files := store.headers;
    var report := Report(0, []);
    var i := 0;
    NothingMerged(files, store.log.numbers.Keys, store.rank, store.replica, resolver, forks, stamps);
    while i < |detected.value|
      invariant 0 <= i <= |forks| && forks == detected.value && report == Outcome(resolver, forks, i)
      invariant store.Valid() && Follows(old(store.Now()), store.Now()) && old(store.byIngestion) <= store.byIngestion
      invariant PassedTo(files, store.directory.files, store.log.numbers.Keys, store.rank, store.replica, resolver,
                         forks, stamps, i)
      invariant forall s :: store.StreamMatches(s) ==> old(store.StreamMatches(s))
      invariant old(Leads(h, store.rank, store.replica, store.directory.files, stamps, 0)) ==>
                  Leads(h', store.rank, store.replica, store.directory.files, stamps, i)
    {
      ghost var was := store.Now();
      report, h' := ReconcileOne(store, detected.value[i], resolver, stamps, i, report, files, forks, h');
      FollowsOn(old(store.Now()), was, store.Now());
      i := i + 1;
    }
    PassIsOver(files, store.directory.files, store.log.numbers.Keys, store.rank, store.replica, resolver, forks,
               stamps);
    PassIsCounted(files, store.directory.files, store.log.numbers.Keys, store.rank, store.replica, resolver, forks,
                  stamps);
    r := Ok(report);
  }

  method ReconcileOne(store: FileEventStore, fork: Fork, resolver: Resolver, stamps: nat -> Stamp, i: nat,
                      report: Report, ghost files: Files, ghost forks: seq<Fork>, ghost h: History)
    returns (report': Report, ghost h': History)
    requires i < |forks| && fork == forks[i] && report == Outcome(resolver, forks, i) && store.Valid()
    requires PassedTo(files, store.directory.files, store.log.numbers.Keys, store.rank, store.replica, resolver, forks,
                      stamps, i)
    modifies store, store.log, store.directory
    ensures report' == Outcome(resolver, forks, i + 1) && store.Valid()
    ensures Follows(old(store.Now()), store.Now()) && old(store.byIngestion) <= store.byIngestion
    ensures PassedTo(files, store.directory.files, store.log.numbers.Keys, store.rank, store.replica, resolver, forks,
                     stamps, i + 1)
    ensures forall s :: store.StreamMatches(s) ==> old(store.StreamMatches(s))
    ensures old(Leads(h, store.rank, store.replica, store.directory.files, stamps, i)) ==>
              Leads(h', store.rank, store.replica, store.directory.files, stamps, i + 1)
  {
    hide IsArrangement, GroupsByStream, StreamIs, Flat, IsIndexButStreams, IsBuilt, AreHeads, LaterWriter, Of, Ranked,
      IsCanonical, Includes, IsStage, FreshIds, IsNewId, PassedTo, Leads;
    ghost var before, known, streams, arrived := store.directory.files, store.log.numbers.Keys, store.streams,
      store.arrived;
    h' := h;
    LeadsOn(h, store.rank, store.replica, before, stamps, i);
    StageFacts(store.Now(), store.rank);
    if resolver(fork).None? {
      report' := report.(unresolved := report.unresolved + [fork.claim.stream]);
      Declined(files, before, known, store.rank, store.replica, resolver, forks, stamps, i);
      FollowsItself(store.Now());
    } else {
      var items := resolver(fork).value;
      var ids := seq<Uuid>(|items|, k requires 0 <= k < |items| => stamps(i).eventId(k));
      ReadyToMerge(files, before, known, store.rank, store.replica, resolver, forks, stamps, i, ids);
      store.WriteMergeTransaction(fork.transactions, items, stamps(i).id, stamps(i).createdAt, ids);
      report' := report.(resolved := report.resolved + 1);
      StageFacts(store.Now(), store.rank);
      OneMoreMerge(files, before, store.rank, store.replica, resolver, forks, stamps, i, store.directory.files,
                   streams, items, ids);
      ghost var t := store.directory.files[stamps(i).id];
      h' := Stored(h, stamps(i).id, t);
      if Leads(h, store.rank, store.replica, before, stamps, i) {
        StampsRise(files, before, known, store.rank, store.replica, resolver, forks, stamps, i);
        MergeLeadsOn(h, store.rank, store.replica, before, stamps, i, arrived, streams, items, ids, t);
      }
    }
  }

  // ------------------------------------------------------------- the history of the pass

  /** A genuine history left these files, and knows nothing of the stamps from the `n`th on. */
  ghost predicate Leads(h: History, rank: Uuid -> nat, replica: Uuid, files: Files, stamps: nat -> Stamp, n: nat) {
    Leaves(h, rank, replica, files) && forall i: nat :: i >= n ==> IsNewId(AllOf(h), rank, stamps(i).id)
  }

  lemma LeadsOn(h: History, rank: Uuid -> nat, replica: Uuid, files: Files, stamps: nat -> Stamp, n: nat)
    ensures Leads(h, rank, replica, files, stamps, n) ==> Leads(h, rank, replica, files, stamps, n + 1)
  {
    hide Leaves, AllOf, IsNewId;
  }

  lemma StampsRise(files: Files, g: Files, known: set<Uuid>, rank: Uuid -> nat, replica: Uuid, resolver: Resolver,
                   forks: seq<Fork>, stamps: nat -> Stamp, n: nat)
    requires n <= |forks| && PassedTo(files, g, known, rank, replica, resolver, forks, stamps, n)
    ensures forall i: nat, j: nat :: i < j ==> rank(stamps(i).id) < rank(stamps(j).id)
  {
  }

  /** With the merge transaction the history is genuine still. */
  lemma MergeLeadsOn(h: History, rank: Uuid -> nat, replica: Uuid, files: Files, stamps: nat -> Stamp, n: nat,
                     arrived: seq<Uuid>, streams: map<StreamId, seq<FileEvent>>, items: seq<Event>, ids: seq<Uuid>,
                     t: Transaction)
    requires Leads(h, rank, replica, files, stamps, n) && t.replica == replica
    requires forall i: nat, j: nat :: i < j ==> rank(stamps(i).id) < rank(stamps(j).id)
    requires IsArrangement(files, arrived) && GroupsByStream(streams, Flat(files, arrived))
    requires forall p :: p in t.parents ==> p in files
    requires IsBuilt(streams, items, ids, t.events) && AreHeads(t.bases, streams, items)
    ensures Leads(Stored(h, stamps(n).id, t), rank, replica, files[stamps(n).id := t], stamps, n + 1)
  {
    hide Genuine, IsArrangement, GroupsByStream, Flat, IsBuilt, AreHeads, Known;
    MergeIsGenuine(h, rank, arrived, streams, items, ids, stamps(n).id, t);
    ViewIsPart(h, rank, replica);
    forall i: nat | i >= n + 1 ensures IsNewId(AllOf(h)[stamps(n).id := t], rank, stamps(i).id) {
      assert IsNewId(AllOf(h), rank, stamps(i).id) && rank(stamps(n).id) < rank(stamps(i).id);
    }
  }

  // ------------------------------------------------------------- one fork of the pass

  lemma FollowsItself(a: Stage)
    ensures Follows(a, a)
  {
  }

  lemma FollowsOn(a: Stage, b: Stage, c: Stage)
    requires Follows(a, b) && Follows(b, c)
    ensures Follows(a, c)
  {
  }

  lemma PassIsOver(files: Files, g: Files, known: set<Uuid>, rank: Uuid -> nat, replica: Uuid, resolver: Resolver,
                   forks: seq<Fork>, stamps: nat -> Stamp)
    requires PassedTo(files, g, known, rank, replica, resolver, forks, stamps, |forks|)
    ensures Ranked(files, rank) && Ranked(g, rank) && HasMerges(files, g, replica, resolver, forks, stamps, |forks|)
    ensures ChainAfter(files, g, rank, replica, resolver, forks, |forks|)
  {
  }

  lemma PassIsCounted(files: Files, g: Files, known: set<Uuid>, rank: Uuid -> nat, replica: Uuid, resolver: Resolver,
                      forks: seq<Fork>, stamps: nat -> Stamp)
    requires PassedTo(files, g, known, rank, replica, resolver, forks, stamps, |forks|)
    ensures IsReport(Outcome(resolver, forks, |forks|), files, g, resolver, forks, stamps)
  {
    hide ChainAfter, Ranked, Tells, Outcome, HasMerges, AreMerged, EventsAre;
    ReportTells(resolver, forks);
    forall i: nat, j: nat | i < j ensures stamps(i).id != stamps(j).id {
      assert rank(stamps(i).id) < rank(stamps(j).id);
    }
    forall i: nat ensures stamps(i).id !in files {
      assert IsNewId(files, rank, stamps(i).id);
    }
    MergesAreThose(files, g, replica, resolver, forks, stamps);
    MergesAreCounted(files.Keys, g.Keys, resolver, forks, stamps, |forks|);
    assert |g| == |g.Keys| && |files| == |files.Keys|;
  }

  lemma MergesAreThose(files: Files, g: Files, replica: Uuid, resolver: Resolver, forks: seq<Fork>,
                       stamps: nat -> Stamp)
    requires HasMerges(files, g, replica, resolver, forks, stamps, |forks|)
    ensures AreMerged(g.Keys, files.Keys, resolver, forks, stamps, |forks|)
    ensures forall i :: 0 <= i < |forks| && resolver(forks[i]).Some? ==>
              && stamps(i).id in g && g[stamps(i).id].parents == forks[i].transactions
              && EventsAre(g[stamps(i).id].events, resolver(forks[i]).value)
  {
    forall i | 0 <= i < |forks| && resolver(forks[i]).Some?
      ensures stamps(i).id in g && IsMergeOf(g[stamps(i).id], replica, forks[i], resolver(forks[i]).value, stamps(i)) {
      assert Accepts(resolver, forks, i);
    }
  }

  lemma NothingMerged(files: Files, known: set<Uuid>, rank: Uuid -> nat, replica: Uuid, resolver: Resolver,
                      forks: seq<Fork>, stamps: nat -> Stamp)
    requires Ranked(files, rank) && OneChainPerReplica(files, rank) && Unused(stamps, 0, files, rank, known)
    requires forall f :: f in forks ==> IsFork(files, rank, f)
    ensures PassedTo(files, files, known, rank, replica, resolver, forks, stamps, 0)
  {
    hide Ranked, ForkAt, OneChainPerReplica, IsNewId;
    forall f, h | f in forks && h in f.transactions ensures h in files {
      assert h in Elements(f.transactions);
    }
  }

  lemma Declined(files: Files, g: Files, known: set<Uuid>, rank: Uuid -> nat, replica: Uuid, resolver: Resolver,
                 forks: seq<Fork>, stamps: nat -> Stamp, i: nat)
    requires i < |forks| && !Accepts(resolver, forks, i)
    requires PassedTo(files, g, known, rank, replica, resolver, forks, stamps, i)
    ensures PassedTo(files, g, known, rank, replica, resolver, forks, stamps, i + 1)
  {
    hide Ranked, OneChainPerReplica, JoinsOwn, Prepared;
    DeclinedMerges(files, g, replica, resolver, forks, stamps, i);
    FewerStamps(stamps, i, g, rank, known);
  }

  lemma DeclinedMerges(files: Files, g: Files, replica: Uuid, resolver: Resolver, forks: seq<Fork>,
                       stamps: nat -> Stamp, i: nat)
    requires i < |forks| && !Accepts(resolver, forks, i) && HasMerges(files, g, replica, resolver, forks, stamps, i)
    ensures HasMerges(files, g, replica, resolver, forks, stamps, i + 1)
  {
    hide Includes, Accepts;
  }

  lemma FewerStamps(stamps: nat -> Stamp, i: nat, g: Files, rank: Uuid -> nat, known: set<Uuid>)
    requires Unused(stamps, i, g, rank, known)
    ensures Unused(stamps, i + 1, g, rank, known)
  {
    hide IsNewId;
  }

  lemma ReadyToMerge(files: Files, g: Files, known: set<Uuid>, rank: Uuid -> nat, replica: Uuid, resolver: Resolver,
                     forks: seq<Fork>, stamps: nat -> Stamp, i: nat, ids: seq<Uuid>)
    requires i < |forks| && PassedTo(files, g, known, rank, replica, resolver, forks, stamps, i)
    requires forall k :: 0 <= k < |ids| ==> ids[k] == stamps(i).eventId(k)
    ensures IsNewId(g, rank, stamps(i).id) && FreshIds(ids, known)
    ensures forall h :: h in forks[i].transactions ==> h in g
  {
    assert forks[i] in forks;
  }

  lemma OneMoreMerge(files: Files, g: Files, rank: Uuid -> nat, replica: Uuid, resolver: Resolver, forks: seq<Fork>,
                     stamps: nat -> Stamp, i: nat, g': Files, streams: map<StreamId, seq<FileEvent>>, items: seq<Event>,
                     ids: seq<Uuid>)
    requires i < |forks| && Accepts(resolver, forks, i) && Ranked(g', rank)
    requires PassedTo(files, g, IdsOf(EventsOf(g)), rank, replica, resolver, forks, stamps, i)
    requires IsNewId(g, rank, stamps(i).id) && stamps(i).id in g' && g' == g[stamps(i).id := g'[stamps(i).id]]
    requires g'[stamps(i).id].parents == forks[i].transactions && g'[stamps(i).id].replica == replica
    requires g'[stamps(i).id].createdAt == stamps(i).createdAt && items == resolver(forks[i]).value
    requires IsBuilt(streams, items, ids, g'[stamps(i).id].events)
    requires forall k :: 0 <= k < |ids| ==> ids[k] == stamps(i).eventId(k)
    ensures PassedTo(files, g', IdsOf(EventsOf(g')), rank, replica, resolver, forks, stamps, i + 1)
  {
    hide Ranked, Unused, HasMerges, ChainAfter, IsNewId, IsBuilt, IdsOf, EventsOf;
    BuiltIsMerge(streams, items, ids, g'[stamps(i).id], replica, forks[i], stamps(i));
    MergesGrow(files, g, rank, replica, resolver, forks, stamps, i, g');
    MergeChain(files, g, rank, replica, resolver, forks, stamps, i, g');
    HeadsArePresent(files, g, rank, replica, resolver, forks, stamps, i);
    StampsStayFresh(stamps, i, g, rank, g', streams, items, ids);
  }

  lemma BuiltIsMerge(streams: map<StreamId, seq<FileEvent>>, items: seq<Event>, ids: seq<Uuid>, t: Transaction,
                     replica: Uuid, fork: Fork, stamp: Stamp)
    requires IsBuilt(streams, items, ids, t.events) && forall k :: 0 <= k < |ids| ==> ids[k] == stamp.eventId(k)
    requires t.replica == replica && t.createdAt == stamp.createdAt && t.parents == fork.transactions
    ensures IsMergeOf(t, replica, fork, items, stamp)
  {
    forall k | 0 <= k < |items| ensures t.events[k] == Envelope(streams, items, ids, k) {
    }
  }

  lemma HeadsArePresent(files: Files, g: Files, rank: Uuid -> nat, replica: Uuid, resolver: Resolver, forks: seq<Fork>,
                        stamps: nat -> Stamp, i: nat)
    requires i < |forks| && Prepared(files, rank, forks, stamps)
               && HasMerges(files, g, replica, resolver, forks, stamps, i)
    ensures forall h :: h in forks[i].transactions ==> h in files && h in g
  {
    assert forks[i] in forks;
  }

  lemma StampsStayFresh(stamps: nat -> Stamp, i: nat, g: Files, rank: Uuid -> nat, g': Files,
                        streams: map<StreamId, seq<FileEvent>>, items: seq<Event>, ids: seq<Uuid>)
    requires Unused(stamps, i, g, rank, IdsOf(EventsOf(g))) && stamps(i).id in g'
               && g' == g[stamps(i).id := g'[stamps(i).id]]
    requires forall h :: h in g'[stamps(i).id].parents ==> h in g
    requires IsBuilt(streams, items, ids, g'[stamps(i).id].events)
    requires forall k :: 0 <= k < |ids| ==> ids[k] == stamps(i).eventId(k)
    ensures Unused(stamps, i + 1, g', rank, IdsOf(EventsOf(g')))
  {
    var id := stamps(i).id;
    var t := g'[id];
    EventsOfNew(g, id, t);
    forall j: nat, k: nat | j >= i + 1 ensures stamps(j).eventId(k) !in IdsOf(EventsOf(g')) {
      forall e | e in t.events ensures e.id != stamps(j).eventId(k) {
        var n :| 0 <= n < |t.events| && t.events[n] == e;
        assert e == Envelope(streams, items, ids, n);
      }
    }
    forall j: nat | j >= i + 1 ensures IsNewId(g', rank, stamps(j).id) {
      assert IsNewId(g, rank, stamps(j).id) && rank(id) < rank(stamps(j).id);
    }
  }

  lemma MergesGrow(files: Files, g: Files, rank: Uuid -> nat, replica: Uuid, resolver: Resolver, forks: seq<Fork>,
                   stamps: nat -> Stamp, i: nat, g': Files)
    requires i < |forks| && Accepts(resolver, forks, i) && HasMerges(files, g, replica, resolver, forks, stamps, i)
    requires IsNewId(g, rank, stamps(i).id) && stamps(i).id in g' && g' == g[stamps(i).id := g'[stamps(i).id]]
    requires IsMergeOf(g'[stamps(i).id], replica, forks[i], resolver(forks[i]).value, stamps(i))
    ensures HasMerges(files, g', replica, resolver, forks, stamps, i + 1)
  {
    hide IsNewId, Includes, IsMergeOf;
    assert stamps(i).id !in g by { NotThere(g, rank, stamps(i).id); }
    IncludesNew(files, g, g', stamps(i).id);
    forall x ensures x in g' <==>
        x in files || exists k: nat :: k < i + 1 && Accepts(resolver, forks, k) && stamps(k).id == x {
      assert x in g' <==> x in g || x == stamps(i).id;
    }
  }

  lemma NotThere(g: Files, rank: Uuid -> nat, id: Uuid)
    requires IsNewId(g, rank, id)
    ensures id !in g
  {
  }

  lemma IncludesNew(files: Files, g: Files, g': Files, id: Uuid)
    requires Includes(g, files) && id !in g && id in g' && g' == g[id := g'[id]]
    ensures Includes(g', files) && Includes(g', g)
  {
  }

  /** A first merge relates to what its heads stand above, and a second one not to the first. */
  lemma MergeChain(files: Files, g: Files, rank: Uuid -> nat, replica: Uuid, resolver: Resolver, forks: seq<Fork>,
                   stamps: nat -> Stamp, i: nat, g': Files)
    requires Ranked(files, rank) && Ranked(g, rank) && Ranked(g', rank) && i < |forks| && Accepts(resolver, forks, i)
    requires Prepared(files, rank, forks, stamps)
    requires HasMerges(files, g, replica, resolver, forks, stamps, i)
               && ChainAfter(files, g, rank, replica, resolver, forks, i)
    requires IsNewId(g, rank, stamps(i).id) && stamps(i).id in g' && g' == g[stamps(i).id := g'[stamps(i).id]]
    requires g'[stamps(i).id].parents == forks[i].transactions && g'[stamps(i).id].replica == replica
    ensures ChainAfter(files, g', rank, replica, resolver, forks, i + 1)
  {
    hide Ranked, OneChainPerReplica, JoinsOwn, HasMerges, Prepared;
    var id := stamps(i).id;
    HeadsArePresent(files, g, rank, replica, resolver, forks, stamps, i);
    if Outcome(resolver, forks, i).resolved == 0 {
      NoneMerged(files, g, replica, resolver, forks, stamps, i);
      MergeKeepsChainIff(files, rank, id, g'[id]);
    } else if Outcome(resolver, forks, i).resolved == 1 {
      var m := OneMerged(files, g, rank, replica, resolver, forks, stamps, i);
      TwoMergesCollide(files, rank, stamps(m).id, g[stamps(m).id], id, g'[id]);
    } else {
      ChainStaysBroken(g, rank, id, g'[id]);
    }
  }

  lemma {:induction false} NoneAccepted(resolver: Resolver, forks: seq<Fork>, n: nat)
    requires n <= |forks| && Outcome(resolver, forks, n).resolved == 0
    ensures forall i: nat :: i < n ==> !Accepts(resolver, forks, i)
  {
    if n > 0 { NoneAccepted(resolver, forks, n - 1); }
  }

  lemma {:induction false} OneAccepted(resolver: Resolver, forks: seq<Fork>, n: nat) returns (m: nat)
    requires n <= |forks| && Outcome(resolver, forks, n).resolved == 1
    ensures m < n && forall i: nat :: i < n ==> (Accepts(resolver, forks, i) <==> i == m)
  {
    if Accepts(resolver, forks, n - 1) {
      NoneAccepted(resolver, forks, n - 1);
      m := n - 1;
    } else {
      m := OneAccepted(resolver, forks, n - 1);
    }
  }

  lemma NoneMerged(files: Files, g: Files, replica: Uuid, resolver: Resolver, forks: seq<Fork>, stamps: nat -> Stamp,
                   n: nat)
    requires n <= |forks| && HasMerges(files, g, replica, resolver, forks, stamps, n)
               && Outcome(resolver, forks, n).resolved == 0
    ensures g == files && forall i: nat :: i < n ==> !Accepts(resolver, forks, i)
  {
    NoneAccepted(resolver, forks, n);
    assert g.Keys == files.Keys;
  }

  lemma OneMerged(files: Files, g: Files, rank: Uuid -> nat, replica: Uuid, resolver: Resolver, forks: seq<Fork>,
                  stamps: nat -> Stamp, n: nat)
    returns (m: nat)
    requires n <= |forks| && HasMerges(files, g, replica, resolver, forks, stamps, n)
               && Outcome(resolver, forks, n).resolved == 1
    requires Prepared(files, rank, forks, stamps)
    ensures m < n && IsNewId(files, rank, stamps(m).id)
    ensures stamps(m).id in g && g == files[stamps(m).id := g[stamps(m).id]] && g[stamps(m).id].replica == replica
    ensures forall h :: h in g[stamps(m).id].parents ==> h in files
  {
    m := OneAccepted(resolver, forks, n);
    assert forks[m] in forks && g.Keys == files.Keys + {stamps(m).id};
  }

  /** Every fork that the resolver settled is resolved from then on, whatever else arrives. */
  lemma SettledForksAreResolved(files: Files, g: Files, later: Files, rank: Uuid -> nat, replica: Uuid,
                                resolver: Resolver, forks: seq<Fork>, stamps: nat -> Stamp, i: nat)
    requires HasMerges(files, g, replica, resolver, forks, stamps, |forks|) && i < |forks|
               && Accepts(resolver, forks, i)
    requires Includes(later, g) && Ranked(g, rank) && Ranked(later, rank)
    ensures Resolved(later, rank, Elements(forks[i].transactions))
  {
    ResolutionPersists(g, later, rank, stamps(i).id, Elements(forks[i].transactions));
  }

  // ------------------------------------------------------------- two forks in one pass

  lemma LegalStep(h: History, rank: Uuid -> nat, id: Uuid, t: Transaction)
    requires Legal(h, rank) && IsNewId(AllOf(h), rank, id) && Elements(t.parents) == Tips(View(h, t.replica))
    requires forall e :: e in t.events ==> e.stream in t.bases
    requires forall s :: s in t.bases ==> t.bases[s] == Written(View(h, t.replica), s)
    ensures Legal(Stored(h, id, t), rank) && AllOf(Stored(h, id, t)) == AllOf(h)[id := t]
    ensures View(Stored(h, id, t), t.replica) == View(h, t.replica)[id := t]
    ensures forall r :: r != t.replica ==> View(Stored(h, id, t), r) == View(h, r)
  {
    LegalIsGenuine(h, rank);
    ViewsAfterStep(h, rank, id, t);
  }

  /** The first transaction of a replica that knows nothing yet. */
  lemma FirstIsLegal(h: History, rank: Uuid -> nat, id: Uuid, t: Transaction)
    requires Legal(h, rank) && View(h, t.replica) == map[] && t.parents == [] && IsNewId(AllOf(h), rank, id)
    requires forall e :: e in t.events ==> e.stream in t.bases
    requires forall s :: s in t.bases ==> t.bases[s] == 0
    ensures Legal(Stored(h, id, t), rank) && AllOf(Stored(h, id, t)) == AllOf(h)[id := t]
    ensures View(Stored(h, id, t), t.replica) == map[id := t]
    ensures forall r :: r != t.replica ==> View(Stored(h, id, t), r) == View(h, r)
  {
    hide Legal, Genuine, View, AllOf, Known, Written;
    NothingWritten();
    assert Elements(t.parents) == {} == Tips(map[]);
    LegalStep(h, rank, id, t);
  }

  function OnBoth(replica: Uuid, first: Uuid, a: Payload, b: Payload): Transaction {
    Transaction(replica, [], 0, map["s" := 0, "t" := 0], [FileEvent(first, "s", 1, a), FileEvent(first + 1, "t", 1, b)])
  }

  /** Two replicas each write the same two streams and unite: two forks with the same heads are
      reported.  Resolving both in one pass leaves the replica failing its identity check. */
  lemma TwoForksInOnePass(x: Transaction, y: Transaction, a: Payload, b: Payload, c: Payload, d: Payload,
                          m: Transaction, n: Transaction)
    requires x == OnBoth(1, 101, a, b) && y == OnBoth(2, 103, c, d)
    requires m.replica == n.replica == 2 && m.parents == n.parents == [1, 2]
    ensures Legal(United(Stored(Stored(Genesis, 1, x), 2, y), 2, 1), Itself)
    ensures View(United(Stored(Stored(Genesis, 1, x), 2, y), 2, 1), 2) == map[1 := x, 2 := y]
    ensures Ranked(map[1 := x, 2 := y], Itself) && OneChainPerReplica(map[1 := x, 2 := y], Itself)
    ensures IsFork(map[1 := x, 2 := y], Itself, Fork(Claim("s", 0), [1, 2]))
    ensures IsFork(map[1 := x, 2 := y], Itself, Fork(Claim("t", 0), [1, 2]))
    ensures Ranked(map[1 := x, 2 := y][3 := m][4 := n], Itself)
    ensures !OneChainPerReplica(map[1 := x, 2 := y][3 := m][4 := n], Itself)
  {
    hide Legal, Genuine, View, AllOf, Known, Related, OneChainPerReplica, IsFork;
    var files := map[1 := x, 2 := y];
    var apart := Stored(Stored(Genesis, 1, x), 2, y);
    TwoStarts(x, y);
    LegalIsGenuine(apart, Itself);
    UnionIsUnited(apart, Itself, 2, 1);
    assert View(United(apart, 2, 1), 2) == files;
    NoCollisions(United(apart, 2, 1), Itself, 2);
    BothHeads(files, Claim("s", 0));
    BothHeads(files, Claim("t", 0));
    MergesAreRanked(files, m, n);
    TwoMergesCollide(files, Itself, 3, m, 4, n);
  }

  /** Two replicas each write their first transaction. */
  lemma TwoStarts(x: Transaction, y: Transaction)
    requires x.replica == 1 && y.replica == 2 && x.parents == y.parents == []
    requires forall e :: e in x.events ==> e.stream in x.bases
    requires forall e :: e in y.events ==> e.stream in y.bases
    requires (forall s :: s in x.bases ==> x.bases[s] == 0) && forall s :: s in y.bases ==> y.bases[s] == 0
    ensures var h := Stored(Stored(Genesis, 1, x), 2, y);
            && Legal(h, Itself) && AllOf(h) == map[1 := x, 2 := y]
            && View(h, 1) == map[1 := x] && View(h, 2) == map[2 := y]
  {
    assert Legal(Genesis, Itself) && AllOf(Genesis) == map[] && View(Genesis, 1) == View(Genesis, 2) == map[];
    hide Legal, Genuine, View, AllOf, Known;
    FirstIsLegal(Genesis, Itself, 1, x);
    FirstIsLegal(Stored(Genesis, 1, x), Itself, 2, y);
  }

  lemma MergesAreRanked(files: Files, m: Transaction, n: Transaction)
    requires files.Keys == {1, 2} && files[1].parents == files[2].parents == [] && m.parents == n.parents == [1, 2]
    ensures Ranked(files, Itself) && Ranked(files[3 := m], Itself) && Ranked(files[3 := m][4 := n], Itself)
  {
  }

  lemma BothHeads(files: Files, c: Claim)
    requires Ranked(files, Itself) && files.Keys == {1, 2} && files[1].parents == files[2].parents == []
    requires Claims(files[1], c) && Claims(files[2], c)
    ensures IsFork(files, Itself, Fork(c, [1, 2]))
  {
    hide Ranked, Resolved;
    TipInGroupForks(files, Itself, c, 1, 2);
    assert Claimants(files, files.Keys, c) == {1, 2} == Elements([1, 2]);
  }

  // ------------------------------------------------------------- a merge that a rebuild moves

  function OnOne(replica: Uuid, parents: seq<Uuid>, base: nat, event: Uuid, p: Payload): Transaction {
    Transaction(replica, parents, 0, map["s" := base], [FileEvent(event, "s", base + 1, p)])
  }

  /** Replica 1 writes a stream three times while replica 2 writes it once.  Replica 2 unites,
      sees the fork at the start of the stream and merges its two heads, which is all it should
      do.  Its own history stays one chain, but the merge sorts before replica 1's last
      transaction, so the stream in memory is not the one a rebuild gives. */
  lemma MergeMovesOnRebuild(a: Payload, b: Payload, c: Payload, d: Payload, e: Payload)
    ensures var files := map[1 := OnOne(1, [], 0, 101, a), 2 := OnOne(2, [], 0, 102, b),
                             3 := OnOne(1, [1], 1, 103, c), 4 := OnOne(1, [3], 2, 104, d)];
            var h := United(Stored(Stored(Stored(Stored(Genesis, 1, files[1]), 2, files[2]), 3, files[3]), 4,
                                   files[4]), 2, 1);
            var m := OnOne(2, [1, 2], 4, 105, e);
            var merged := files[5 := m];
            && Legal(h, Itself) && View(h, 2) == files && Ranked(files, Itself) && Ranked(merged, Itself)
            && IsFork(files, Itself, Fork(Claim("s", 0), m.parents))
            && IsCanonical(files, Itself, [1, 2, 3, 4]) && IsCanonical(merged, Itself, [1, 2, 3, 5, 4])
            && OneChainPerReplica(merged, Itself)
            && Of(Flat(merged, [1, 2, 3, 4] + [5]), "s") != Of(Flat(merged, [1, 2, 3, 5, 4]), "s")
  {
    hide Flat, Of, Legal, IsFork, IsCanonical, OneChainPerReplica, JoinsOwn, View, Ranked, LaterWriter, Wrote;
    var x, y, z, w := OnOne(1, [], 0, 101, a), OnOne(2, [], 0, 102, b), OnOne(1, [1], 1, 103, c),
        OnOne(1, [3], 2, 104, d);
    var m := OnOne(2, [1, 2], 4, 105, e);
    var files := map[1 := x, 2 := y, 3 := z, 4 := w];
    ThreeAgainstOne(x, y, z, w);
    FiveAreRanked(files, m);
    ForkOfTwo(files);
    OrdersOfFive(files, m);
    MergeKeepsOneChain(files, m, United(Stored(Stored(Stored(Stored(Genesis, 1, x), 2, y), 3, z), 4, w), 2, 1));
    MergeIsOvertaken(files, m);
  }

  lemma FiveAreRanked(files: Files, m: Transaction)
    requires files.Keys == {1, 2, 3, 4} && files[1].parents == files[2].parents == []
    requires files[3].parents == [1] && files[4].parents == [3] && m.parents == [1, 2]
    ensures Ranked(files, Itself) && Ranked(files[5 := m], Itself) && IsNewId(files, Itself, 5)
  {
  }

  lemma WrittenNew(files: Files, s: StreamId, id: Uuid, t: Transaction)
    requires id !in files
    ensures Written(files[id := t], s) == Written(files, s) + |Of(t.events, s)|
  {
    WrittenRemove(files[id := t], s, id);
    assert files[id := t] - {id} == files;
  }

  lemma OneEvent(t: Transaction)
    requires |t.events| == 1
    ensures Of(t.events, t.events[0].stream) == t.events && Wrote(t, t.events[0].stream)
  {
    assert t.events[..0] == [];
  }

  /** A replica whose only tip is `tip` adds one event to the stream. */
  lemma ChainGrows(h: History, id: Uuid, t: Transaction, tip: Uuid)
    requires Legal(h, Itself) && IsNewId(AllOf(h), Itself, id) && t.parents == [tip]
    requires Tips(View(h, t.replica)) == {tip} && t.bases == map["s" := Written(View(h, t.replica), "s")]
    requires |t.events| == 1 && t.events[0].stream == "s"
    ensures Legal(Stored(h, id, t), Itself) && AllOf(Stored(h, id, t)) == AllOf(h)[id := t]
    ensures View(Stored(h, id, t), t.replica) == View(h, t.replica)[id := t]
    ensures Tips(View(Stored(h, id, t), t.replica)) == {id}
    ensures Written(View(Stored(h, id, t), t.replica), "s") == Written(View(h, t.replica), "s") + 1
    ensures forall r :: r != t.replica ==> View(Stored(h, id, t), r) == View(h, r)
  {
    hide Written, Of, Legal, Genuine, View, AllOf, Known, Tips, Ranked, IsNewId, Depth;
    assert Elements([tip]) == {tip};
    LegalStep(h, Itself, id, t);
    OneEvent(t);
    IsNewToReplica(h, id, t);
    WrittenNew(View(h, t.replica), "s", id, t);
    NewHeadIsDeepest(View(h, t.replica), Itself, id, t);
  }

  lemma IsNewToReplica(h: History, id: Uuid, t: Transaction)
    requires Legal(h, Itself) && IsNewId(AllOf(h), Itself, id) && Elements(t.parents) == Tips(View(h, t.replica))
    ensures IsNewHead(View(h, t.replica), Itself, id, t)
  {
    hide Legal, Genuine;
    LegalIsGenuine(h, Itself);
    ViewIsPart(h, Itself, t.replica);
    forall p | p in t.parents ensures p in AllOf(h) { assert p in Elements(t.parents); }
  }

  lemma ThreeAgainstOne(x: Transaction, y: Transaction, z: Transaction, w: Transaction)
    requires x.replica == z.replica == w.replica == 1 && y.replica == 2
    requires x.parents == y.parents == [] && z.parents == [1] && w.parents == [3]
    requires x.bases == y.bases == map["s" := 0] && z.bases == map["s" := 1] && w.bases == map["s" := 2]
    requires |x.events| == |y.events| == |z.events| == |w.events| == 1
    requires x.events[0].stream == y.events[0].stream == z.events[0].stream == w.events[0].stream == "s"
    ensures var h := United(Stored(Stored(Stored(Stored(Genesis, 1, x), 2, y), 3, z), 4, w), 2, 1);
            Legal(h, Itself) && View(h, 2) == map[1 := x, 2 := y, 3 := z, 4 := w]
  {
    hide Written, Of, Legal, Genuine, View, AllOf, Known, Tips, IsNewId;
    var h2 := Stored(Stored(Genesis, 1, x), 2, y);
    TwoStarts(x, y);
    OneIsATip(x);
    ThreeIsNew(AllOf(h2), z);
    ChainGrows(h2, 3, z, 1);
    FourthOfChain(h2, x, y, z, w);
  }

  lemma FourthOfChain(h2: History, x: Transaction, y: Transaction, z: Transaction, w: Transaction)
    requires z.replica == w.replica == 1 && w.parents == [3] && w.bases == map["s" := 2] && |w.events| == 1
               && w.events[0].stream == "s"
    requires var h3 := Stored(h2, 3, z);
             && Legal(h3, Itself) && AllOf(h3) == AllOf(h2)[3 := z] && IsNewId(AllOf(h2)[3 := z], Itself, 4)
             && View(h3, 1) == map[1 := x][3 := z] && View(h3, 2) == map[2 := y]
             && Tips(View(h3, 1)) == {3} && Written(View(h3, 1), "s") == 2
    ensures var h := United(Stored(Stored(h2, 3, z), 4, w), 2, 1);
            Legal(h, Itself) && View(h, 2) == map[1 := x, 2 := y, 3 := z, 4 := w]
  {
    hide Written, Of, Legal, Genuine, View, AllOf, Known, Tips, IsNewId;
    var h3 := Stored(h2, 3, z);
    ChainGrows(h3, 4, w, 3);
    LegalIsGenuine(Stored(h3, 4, w), Itself);
    UnionIsUnited(Stored(h3, 4, w), Itself, 2, 1);
    FourFiles(x, y, z, w);
  }

  lemma FourFiles(x: Transaction, y: Transaction, z: Transaction, w: Transaction)
    ensures map[1 := x][3 := z][4 := w] + map[2 := y] == map[1 := x, 2 := y, 3 := z, 4 := w]
  {
  }

  lemma ThreeIsNew(files: Files, z: Transaction)
    requires files.Keys == {1, 2} && files[1].parents == files[2].parents == [] && z.parents == [1]
    ensures IsNewId(files, Itself, 3) && IsNewId(files[3 := z], Itself, 4)
  {
  }

  lemma OneIsATip(x: Transaction)
    requires x.parents == [] && |x.events| == 1 && x.events[0].stream == "s"
    ensures Tips(map[1 := x]) == {1} && Written(map[1 := x], "s") == 1
  {
    hide Written, Of, Wrote, Tips;
    var none: Files := map[];
    OneEvent(x);
    NothingWritten();
    WrittenNew(none, "s", 1, x);
    assert none[1 := x] == map[1 := x];
    AloneIsATip(x);
  }

  lemma AloneIsATip(x: Transaction)
    requires x.parents == []
    ensures Tips(map[1 := x]) == {1}
  {
    assert IsTip(map[1 := x], 1);
  }

  lemma ForkOfTwo(files: Files)
    requires files.Keys == {1, 2, 3, 4} && Ranked(files, Itself) && files[1].parents == files[2].parents == []
    requires files[3].parents == [1] && files[4].parents == [3]
    requires files[1].bases == files[2].bases == map["s" := 0] && files[3].bases == map["s" := 1]
               && files[4].bases == map["s" := 2]
    ensures IsFork(files, Itself, Fork(Claim("s", 0), [1, 2]))
  {
    hide Ranked, Resolved;
    TipInGroupForks(files, Itself, Claim("s", 0), 2, 1);
    assert Claimants(files, files.Keys, Claim("s", 0)) == {1, 2} == Elements([1, 2]);
  }

  lemma RootDepth(files: Files, id: Uuid)
    requires Ranked(files, Itself) && id in files && files[id].parents == []
    ensures Depth(files, Itself, id) == 0
  {
  }

  lemma ChildDepth(files: Files, id: Uuid, p: Uuid)
    requires Ranked(files, Itself) && id in files && files[id].parents == [p] && p in files
    ensures Depth(files, Itself, id) == Depth(files, Itself, p) + 1
  {
    assert Best(files, Itself, id, 0) == 0;
  }

  lemma JoinDepth(files: Files, id: Uuid, p: Uuid, q: Uuid)
    requires Ranked(files, Itself) && id in files && files[id].parents == [p, q] && p in files && q in files
    requires Depth(files, Itself, p) == Depth(files, Itself, q)
    ensures Depth(files, Itself, id) == Depth(files, Itself, p) + 1
  {
    assert Best(files, Itself, id, 0) == 0;
    assert Best(files, Itself, id, 1) == Depth(files, Itself, p) + 1;
  }

  lemma DepthsOfFour(files: Files)
    requires Ranked(files, Itself) && {1, 2, 3, 4} <= files.Keys && files[1].parents == files[2].parents == []
    requires files[3].parents == [1] && files[4].parents == [3]
    ensures Depth(files, Itself, 1) == Depth(files, Itself, 2) == 0
    ensures Depth(files, Itself, 3) == 1 && Depth(files, Itself, 4) == 2
  {
    hide Ranked, Depth;
    RootDepth(files, 1);
    RootDepth(files, 2);
    ChildDepth(files, 3, 1);
    ChildDepth(files, 4, 3);
  }

  lemma OrdersOfFive(files: Files, m: Transaction)
    requires files.Keys == {1, 2, 3, 4} && Ranked(files, Itself) && Ranked(files[5 := m], Itself)
    requires files[1].parents == files[2].parents == [] && files[3].parents == [1] && files[4].parents == [3]
               && m.parents == [1, 2]
    requires files[1].createdAt == files[2].createdAt == files[3].createdAt == files[4].createdAt == m.createdAt
    requires files[1].replica == files[3].replica == 1 && files[2].replica == m.replica == 2
    ensures IsCanonical(files, Itself, [1, 2, 3, 4]) && IsCanonical(files[5 := m], Itself, [1, 2, 3, 5, 4])
  {
    hide Ranked, Depth;
    DepthsOfFour(files);
    DepthsOfFour(files[5 := m]);
    JoinDepth(files[5 := m], 5, 1, 2);
  }

  lemma MergeKeepsOneChain(files: Files, m: Transaction, h: History)
    requires Legal(h, Itself) && View(h, 2) == files && Ranked(files, Itself) && Ranked(files[5 := m], Itself)
    requires IsNewId(files, Itself, 5) && files.Keys == {1, 2, 3, 4} && m.parents == [1, 2] && m.replica == 2
    requires files[1].replica == files[3].replica == files[4].replica == 1
    ensures OneChainPerReplica(files[5 := m], Itself)
  {
    hide Ranked, Legal, OneChainPerReplica;
    NoCollisions(h, Itself, 2);
    MergeKeepsChainIff(files, Itself, 5, m);
    assert JoinsOwn(files, Itself, 2, [1, 2]) by { assert 2 in [1, 2] && Below(files, Itself, 2, 2); }
  }

  lemma MergeIsOvertaken(files: Files, m: Transaction)
    requires files.Keys == {1, 2, 3, 4} && Ranked(files, Itself) && Ranked(files[5 := m], Itself)
               && IsNewId(files, Itself, 5)
    requires IsCanonical(files, Itself, [1, 2, 3, 4]) && IsCanonical(files[5 := m], Itself, [1, 2, 3, 5, 4])
    requires forall id :: id in files ==>
               |files[id].events| == 1 && files[id].events[0].stream == "s" && files[id].events[0].id == 100 + id
    requires |m.events| == 1 && m.events[0].stream == "s" && m.events[0].id == 105
    ensures Of(Flat(files[5 := m], [1, 2, 3, 4] + [5]), "s") != Of(Flat(files[5 := m], [1, 2, 3, 5, 4]), "s")
  {
    hide Flat, Of, InOrder, Ranked;
    var order, order' := [1, 2, 3, 4], [1, 2, 3, 5, 4];
    OneEvent(m);
    OneEvent(files[4]);
    assert order'[3] == 5 && order'[4] == 4 && files[5 := m][4] == files[4];
    assert LaterWriter(files[5 := m], order', 5, "s");
    CanonicalIsArrangement(files, Itself, order);
    MergedStreamMatchesIff(files, Itself, order, order', order, 5, m, "s");
  }
}
