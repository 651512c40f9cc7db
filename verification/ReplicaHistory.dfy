/** Histories of any number of replicas that append and merge offline and unite their files:
    what a transaction's ancestors are, and what the forks reported on a replica mean. */
module ReplicaHistory {
  import opened Streams
  import opened Writes
  import opened TransactionGraph
  import opened FileIndex
  import opened FileStore
  import opened Forks

  /** Transactions stored by their writers and unions, latest outermost.  A union copies
      `source`'s files to `target`. */
  datatype History =
    | Genesis
    | Stored(before: History, id: Uuid, t: Transaction)
    | United(before: History, target: Uuid, source: Uuid)

  /** Every transaction ever written, anywhere. */
  function AllOf(h: History): Files {
    match h
    case Genesis => map[]
    case Stored(before, id, t) => AllOf(before)[id := t]
    case United(before, _, _) => AllOf(before)
  }

  /** What a replica holds. */
  function Known(h: History, r: Uuid): set<Uuid> {
    match h
    case Genesis => {}
    case Stored(before, id, t) => Known(before, r) + (if t.replica == r then {id} else {})
    case United(before, target, source) => Known(before, r) + (if target == r then Known(before, source) else {})
  }

  /** What its writer had indexed when it wrote a transaction. */
  function Seen(h: History): map<Uuid, set<Uuid>> {
    match h
    case Genesis => map[]
    case Stored(before, id, t) => Seen(before)[id := Known(before, t.replica)]
    case United(before, _, _) => Seen(before)
  }

  function Restrict(files: Files, ids: set<Uuid>): Files {
    map id | id in files && id in ids :: files[id]
  }

  /** The transaction files present on a replica. */
  function View(h: History, r: Uuid): Files {
    Restrict(AllOf(h), Known(h, r))
  }

  // ------------------------------------------------------------- how much a history wrote

  ghost function Written(files: Files, s: StreamId): nat {
    if files == map[] then 0
    else
      var id :| id in files;
      |Of(files[id].events, s)| + Written(files - {id}, s)
  }

  lemma NothingWritten()
    ensures forall s :: Written(map[], s) == 0
  {
  }

  lemma {:induction false} WrittenRemove(files: Files, s: StreamId, id: Uuid)
    requires id in files
    ensures Written(files, s) == |Of(files[id].events, s)| + Written(files - {id}, s)
    decreases files
  {
    var k :| k in files && Written(files, s) == |Of(files[k].events, s)| + Written(files - {k}, s);
    if k != id {
      WrittenRemove(files - {k}, s, id);
      WrittenRemove(files - {id}, s, k);
      assert files - {k} - {id} == files - {id} - {k};
    }
  }

  lemma {:induction false} WrittenGrows(f: Files, g: Files, s: StreamId)
    requires Includes(g, f)
    ensures Written(f, s) <= Written(g, s)
    decreases f
  {
    if f != map[] {
      var id :| id in f;
      WrittenRemove(f, s, id);
      WrittenRemove(g, s, id);
      WrittenGrows(f - {id}, g - {id}, s);
    }
  }

  /** The head of a stream in the index is the number of events its files hold for it. */
  lemma {:induction false} HeadIsWritten(files: Files, order: seq<Uuid>, s: StreamId)
    requires IsArrangement(files, order)
    ensures |Of(Flat(files, order), s)| == Written(files, s)
    decreases |order|
  {
    if order == [] {
      assert files.Keys == {};
    } else {
      var id, before := order[|order| - 1], order[..|order| - 1];
      assert id in Elements(order);
      WrittenRemove(files, s, id);
      assert order == before + [id];
      assert Elements(before) == (files - {id}).Keys;
      HeadIsWritten(files - {id}, before, s);
      FlatSame(files, files - {id}, before);
      OfConcat(Flat(files, before), files[id].events, s);
    }
  }

  // ------------------------------------------------------------- legal histories

  /** What every transaction is: it has a fresh id, and as bases the heads of its streams, which
      include every stream written. */
  ghost predicate IsNext(h: History, rank: Uuid -> nat, id: Uuid, t: Transaction) {
    && id !in AllOf(h) && (forall c :: c in AllOf(h) ==> rank(c) < rank(id))
    && (forall e :: e in t.events ==> e.stream in t.bases)
    && (forall s :: s in t.bases ==> t.bases[s] == Written(View(h, t.replica), s))
  }

  /** Each transaction has parents that its writer held.  An append has all the tips, a merge
      transaction the heads of a fork. */
  ghost predicate Genuine(h: History, rank: Uuid -> nat) {
    match h
    case Genesis => true
    case Stored(before, id, t) => Genuine(before, rank) && IsNext(before, rank, id, t)
        && Elements(t.parents) <= Known(before, t.replica)
    case United(before, _, _) => Genuine(before, rank)
  }

  /** The latest transaction is what `append_events` writes. */
  ghost predicate EndsInAppend(h: History) {
    h.Stored? && Elements(h.t.parents) == Tips(View(h.before, h.t.replica))
  }

  /** A history of appends and unions. */
  ghost predicate Legal(h: History, rank: Uuid -> nat) {
    match h
    case Genesis => true
    case Stored(before, id, t) => Legal(before, rank) && IsNext(before, rank, id, t) && EndsInAppend(h)
    case United(before, _, _) => Legal(before, rank)
  }

  lemma {:induction false} LegalIsGenuine(h: History, rank: Uuid -> nat)
    requires Legal(h, rank)
    ensures Genuine(h, rank)
  {
    if h != Genesis { LegalIsGenuine(h.before, rank); }
  }

  /** What a store's `append_events` writes is such an append, whatever order its streams hold
      the transactions in: the result of `FileEventStore.AppendEvents` keeps a history legal. */
  lemma AppendIsLegal(h: History, rank: Uuid -> nat, arrived: seq<Uuid>, streams: map<StreamId, seq<FileEvent>>,
                      writes: StreamWrites, ids: seq<Uuid>, id: Uuid, t: Transaction)
    requires Legal(h, rank) && IsNewId(AllOf(h), rank, id)
    requires IsArrangement(View(h, t.replica), arrived) && GroupsByStream(streams, Flat(View(h, t.replica), arrived))
    requires Elements(t.parents) == Tips(View(h, t.replica)) && t.bases == writes.expected
    requires IsBuilt(streams, writes.entries, ids, t.events)
    requires forall s :: s in writes.expected ==> Head(streams, s) == writes.expected[s]
    requires forall e :: e in writes.entries ==> e.stream in writes.expected
    ensures Legal(Stored(h, id, t), rank)
    ensures View(Stored(h, id, t), t.replica) == View(h, t.replica)[id := t]
    ensures forall r :: r != t.replica ==> View(Stored(h, id, t), r) == View(h, r)
  {
    LegalIsGenuine(h, rank);
    forall e | e in t.events ensures e.stream in t.bases {
      var i :| 0 <= i < |t.events| && t.events[i] == e;
      assert e == Envelope(streams, writes.entries, ids, i) && writes.entries[i] in writes.entries;
    }
    forall s | s in t.bases ensures t.bases[s] == Written(View(h, t.replica), s) {
      HeadIsWritten(View(h, t.replica), arrived, s);
      assert StreamIs(streams, Flat(View(h, t.replica), arrived), s);
    }
    ViewsAfterStep(h, rank, id, t);
  }

  /** What `write_merge_transaction` writes keeps a history genuine, forks and heads apart: the
      result of `FileEventStore.WriteMergeTransaction`, whatever it joins. */
  lemma MergeIsGenuine(h: History, rank: Uuid -> nat, arrived: seq<Uuid>, streams: map<StreamId, seq<FileEvent>>,
                       items: seq<Event>, ids: seq<Uuid>, id: Uuid, t: Transaction)
    requires Genuine(h, rank) && IsNewId(AllOf(h), rank, id)
    requires IsArrangement(View(h, t.replica), arrived) && GroupsByStream(streams, Flat(View(h, t.replica), arrived))
    requires forall p :: p in t.parents ==> p in View(h, t.replica)
    requires IsBuilt(streams, items, ids, t.events) && AreHeads(t.bases, streams, items)
    ensures Genuine(Stored(h, id, t), rank)
    ensures View(Stored(h, id, t), t.replica) == View(h, t.replica)[id := t]
    ensures forall r :: r != t.replica ==> View(Stored(h, id, t), r) == View(h, r)
  {
    forall e | e in t.events ensures e.stream in t.bases {
      var i :| 0 <= i < |t.events| && t.events[i] == e;
      assert e == Envelope(streams, items, ids, i) && items[i] in items;
    }
    forall s | s in t.bases ensures t.bases[s] == Written(View(h, t.replica), s) {
      HeadIsWritten(View(h, t.replica), arrived, s);
      assert StreamIs(streams, Flat(View(h, t.replica), arrived), s);
    }
    ViewsAfterStep(h, rank, id, t);
  }

  lemma ViewsAfterStep(h: History, rank: Uuid -> nat, id: Uuid, t: Transaction)
    requires Genuine(h, rank) && id !in AllOf(h)
    ensures View(Stored(h, id, t), t.replica) == View(h, t.replica)[id := t]
    ensures forall r :: r != t.replica ==> View(Stored(h, id, t), r) == View(h, r)
  {
    forall r ensures Known(h, r) <= AllOf(h).Keys { KnownIsClosed(h, rank, r); }
  }

  /** Some genuine history left these files on the replica. */
  ghost predicate Leaves(h: History, rank: Uuid -> nat, replica: Uuid, files: Files) {
    Genuine(h, rank) && View(h, replica) == files
  }

  /** A union of files is a union of histories. */
  lemma UnionIsUnited(h: History, rank: Uuid -> nat, target: Uuid, source: Uuid)
    requires Genuine(h, rank)
    ensures Genuine(United(h, target, source), rank) && (Legal(h, rank) ==> Legal(United(h, target, source), rank))
    ensures View(United(h, target, source), target) == View(h, source) + View(h, target)
    ensures forall r :: r != target ==> View(United(h, target, source), r) == View(h, r)
  {
  }

  ghost predicate ClosedIn(files: Files, ids: set<Uuid>) {
    ids <= files.Keys && forall x, p :: x in ids && p in files[x].parents ==> p in ids
  }

  lemma ParentsAreHeld(h: History, rank: Uuid -> nat)
    requires h.Stored? && Genuine(h, rank)
    ensures forall p :: p in h.t.parents ==> p in Known(h.before, h.t.replica) && p in AllOf(h.before)
    decreases h, 0
  {
    KnownIsClosed(h.before, rank, h.t.replica);
    forall p | p in h.t.parents ensures p in Known(h.before, h.t.replica) && p in AllOf(h.before) {
      assert p in Elements(h.t.parents);
    }
  }

  lemma {:induction false} HistoryIsRanked(h: History, rank: Uuid -> nat)
    requires Genuine(h, rank)
    ensures Ranked(AllOf(h), rank)
    ensures forall x, p :: x in AllOf(h) && p in AllOf(h)[x].parents ==> p in AllOf(h)
  {
    if h.Stored? {
      HistoryIsRanked(h.before, rank);
      ParentsAreHeld(h, rank);
    } else if h.United? {
      HistoryIsRanked(h.before, rank);
    }
  }

  /** What a replica holds always includes the parents of what it holds. */
  lemma {:induction false} KnownIsClosed(h: History, rank: Uuid -> nat, r: Uuid)
    requires Genuine(h, rank)
    ensures ClosedIn(AllOf(h), Known(h, r))
    decreases h, 1
  {
    if h.Stored? {
      KnownIsClosed(h.before, rank, r);
      if h.t.replica == r { ParentsAreHeld(h, rank); }
    } else if h.United? {
      KnownIsClosed(h.before, rank, r);
      KnownIsClosed(h.before, rank, h.source);
    }
  }

  lemma {:induction false} SeenIsClosed(h: History, rank: Uuid -> nat, x: Uuid)
    requires Genuine(h, rank)
    ensures Seen(h).Keys == AllOf(h).Keys
    ensures x in AllOf(h) ==> ClosedIn(AllOf(h), Seen(h)[x])
  {
    if h.Stored? {
      SeenIsClosed(h.before, rank, x);
      KnownIsClosed(h.before, rank, h.t.replica);
    } else if h.United? {
      SeenIsClosed(h.before, rank, x);
    }
  }

  /** A replica never loses what it wrote or had seen when it wrote. */
  lemma {:induction false} OwnIsKnown(h: History, rank: Uuid -> nat, x: Uuid)
    requires Genuine(h, rank) && x in AllOf(h)
    ensures x in Seen(h) && x in Known(h, AllOf(h)[x].replica) && Seen(h)[x] <= Known(h, AllOf(h)[x].replica)
  {
    if h.Stored? {
      if x != h.id { OwnIsKnown(h.before, rank, x); }
    } else if h.United? {
      OwnIsKnown(h.before, rank, x);
    }
  }

  /** A replica knows whatever had been seen by the writers of what it knows. */
  lemma {:induction false} KnownHoldsSeen(h: History, rank: Uuid -> nat, r: Uuid, z: Uuid)
    requires Genuine(h, rank) && z in Known(h, r)
    ensures z in Seen(h) && Seen(h)[z] <= Known(h, r)
  {
    if h.Stored? {
      if z in Known(h.before, r) {
        KnownHoldsSeen(h.before, rank, r, z);
        KnownIsClosed(h.before, rank, r);
      }
    } else {
      if z in Known(h.before, r) { KnownHoldsSeen(h.before, rank, r, z); }
      if z in Known(h.before, h.source) { KnownHoldsSeen(h.before, rank, h.source, z); }
    }
  }

  /** What a writer had seen is older than what it wrote, its own earlier sights included. */
  lemma {:induction false} SeenIsNested(h: History, rank: Uuid -> nat, a: Uuid, x: Uuid)
    requires Genuine(h, rank) && x in AllOf(h) && x in Seen(h) && a in Seen(h)[x]
    ensures a in AllOf(h) && a in Seen(h) && Seen(h)[a] <= Seen(h)[x]
    ensures rank(a) < rank(x) && a !in Seen(h)[a]
  {
    if h.United? {
      SeenIsNested(h.before, rank, a, x);
    } else {
      SeenIsClosed(h.before, rank, x);
      if x == h.id {
        KnownIsClosed(h.before, rank, h.t.replica);
        KnownHoldsSeen(h.before, rank, h.t.replica, a);
        SeenIsOlder(h.before, rank, a);
      } else {
        SeenIsNested(h.before, rank, a, x);
      }
    }
  }

  lemma {:induction false} SeenIsOlder(h: History, rank: Uuid -> nat, x: Uuid)
    requires Genuine(h, rank) && x in Seen(h)
    ensures forall a :: a in Seen(h)[x] ==> rank(a) < rank(x)
  {
    if h.United? {
      SeenIsOlder(h.before, rank, x);
    } else if x != h.id {
      SeenIsOlder(h.before, rank, x);
    } else {
      KnownIsClosed(h.before, rank, h.t.replica);
    }
  }

  /** Whatever a transaction is reachable from, an append or a merge, its writer had indexed. */
  lemma AncestorsWereSeen(h: History, rank: Uuid -> nat, a: Uuid, x: Uuid)
    requires Genuine(h, rank) && x in AllOf(h)
    ensures Ranked(AllOf(h), rank) && x in Seen(h)
    ensures Ancestor(AllOf(h), rank, a, x) ==> a in Seen(h)[x]
  {
    HistoryIsRanked(h, rank);
    SeenIsClosed(h, rank, x);
    if Ancestor(AllOf(h), rank, a, x) {
      var p :| p in AllOf(h)[x].parents && (p == a || Ancestor(AllOf(h), rank, a, p));
      ParentsWereSeen(h, rank, x, p);
      if p != a { ClosedHoldsAncestors(AllOf(h), rank, Seen(h)[x], a, p); }
    }
  }

  lemma {:induction false} ParentsWereSeen(h: History, rank: Uuid -> nat, x: Uuid, p: Uuid)
    requires Genuine(h, rank) && x in AllOf(h) && p in AllOf(h)[x].parents
    ensures x in Seen(h) && p in Seen(h)[x]
  {
    if h.United? {
      ParentsWereSeen(h.before, rank, x, p);
    } else if x != h.id {
      ParentsWereSeen(h.before, rank, x, p);
    } else {
      ParentsAreHeld(h, rank);
    }
  }

  // ------------------------------------------------------------- ancestors are what was indexed

  lemma {:induction false} ClosedHoldsAncestors(files: Files, rank: Uuid -> nat, ids: set<Uuid>, a: Uuid, d: Uuid)
    requires Ranked(files, rank) && ClosedIn(files, ids) && d in ids && Ancestor(files, rank, a, d)
    ensures a in ids
    decreases rank(d)
  {
    var p :| p in files[d].parents && (p == a || Ancestor(files, rank, a, p));
    if p != a { ClosedHoldsAncestors(files, rank, ids, a, p); }
  }

  /** Whatever is present is a tip or lies below one. */
  lemma {:induction false} BelowSomeTip(files: Files, rank: Uuid -> nat, a: Uuid) returns (tip: Uuid)
    requires Ranked(files, rank) && a in files
    ensures tip in Tips(files) && Below(files, rank, a, tip)
    decreases |set x | x in files && rank(x) > rank(a)|
  {
    if IsTip(files, a) {
      tip := a;
    } else {
      var c :| c in files && a in files[c].parents;
      var higher, above := set x | x in files && rank(x) > rank(c), set x | x in files && rank(x) > rank(a);
      assert c in above && c !in higher;
      SmallerSet(higher, above);
      tip := BelowSomeTip(files, rank, c);
      assert Ancestor(files, rank, a, c);
      if c != tip { AncestorTransitive(files, rank, a, c, tip); }
    }
  }

  /** A transaction's ancestors are exactly what its writer had indexed when it wrote it. */
  lemma {:induction false} AncestorsAreSeen(h: History, rank: Uuid -> nat, a: Uuid, x: Uuid)
    requires Legal(h, rank) && x in AllOf(h)
    ensures Ranked(AllOf(h), rank) && x in Seen(h)
    ensures Ancestor(AllOf(h), rank, a, x) <==> a in Seen(h)[x]
  {
    LegalIsGenuine(h, rank);
    HistoryIsRanked(h, rank);
    SeenIsClosed(h, rank, x);
    if h.United? {
      AncestorsAreSeen(h.before, rank, a, x);
    } else if x != h.id {
      AncestorsAreSeen(h.before, rank, a, x);
      HistoryIsRanked(h.before, rank);
      SameAncestors(AllOf(h.before), rank, h.id, h.t, a, x);
    } else {
      NewestAncestors(h, rank, a);
    }
  }

  lemma NewestAncestors(h: History, rank: Uuid -> nat, a: Uuid)
    requires Genuine(h, rank) && EndsInAppend(h) && Ranked(AllOf(h), rank)
    ensures Ancestor(AllOf(h), rank, a, h.id) <==> a in Known(h.before, h.t.replica)
  {
    var files, known := AllOf(h.before), Known(h.before, h.t.replica);
    HistoryIsRanked(h.before, rank);
    KnownIsClosed(h.before, rank, h.t.replica);
    ParentsAreHeld(h, rank);
    NewAncestors(files, rank, h.id, h.t, a);
    if Ancestor(AllOf(h), rank, a, h.id) {
      var p :| p in h.t.parents && (p == a || Ancestor(files, rank, a, p));
      if p != a { ClosedHoldsAncestors(files, rank, known, a, p); }
    }
    if a in known {
      var view := View(h.before, h.t.replica);
      var tip := BelowSomeTip(view, rank, a);
      if tip != a { AncestorGrown(view, files, rank, a, tip); }
      assert tip in Elements(h.t.parents);
    }
  }

  // ------------------------------------------------------------- one chain per replica

  lemma {:induction false} OwnAreSeen(h: History, rank: Uuid -> nat, x: Uuid, y: Uuid)
    requires Genuine(h, rank) && x in AllOf(h) && y in AllOf(h) && x != y && AllOf(h)[x].replica == AllOf(h)[y].replica
    ensures x in Seen(h) && y in Seen(h) && (x in Seen(h)[y] || y in Seen(h)[x])
  {
    if h.United? {
      OwnAreSeen(h.before, rank, x, y);
    } else if x == h.id {
      OwnIsKnown(h.before, rank, y);
    } else if y == h.id {
      OwnIsKnown(h.before, rank, x);
    } else {
      OwnAreSeen(h.before, rank, x, y);
    }
  }

  lemma ViewIsPart(h: History, rank: Uuid -> nat, r: Uuid)
    requires Genuine(h, rank)
    ensures Ranked(AllOf(h), rank) && Ranked(View(h, r), rank)
    ensures Includes(AllOf(h), View(h, r)) && View(h, r).Keys == Known(h, r)
    ensures forall x, p :: x in View(h, r) && p in View(h, r)[x].parents ==> p in View(h, r)
  {
    HistoryIsRanked(h, rank);
    KnownIsClosed(h, rank, r);
  }

  /** Reachability on a replica is what the writers had seen. */
  lemma ViewAncestors(h: History, rank: Uuid -> nat, r: Uuid, a: Uuid, x: Uuid)
    requires Legal(h, rank) && x in Known(h, r)
    ensures Ranked(View(h, r), rank) && x in Seen(h)
    ensures Ancestor(View(h, r), rank, a, x) <==> a in Seen(h)[x]
  {
    LegalIsGenuine(h, rank);
    ViewIsPart(h, rank, r);
    AncestorsAreSeen(h, rank, a, x);
    if Ancestor(View(h, r), rank, a, x) {
      AncestorGrown(View(h, r), AllOf(h), rank, a, x);
    }
    if Ancestor(AllOf(h), rank, a, x) {
      AncestorRestricted(View(h, r), AllOf(h), rank, a, x);
    }
  }

  /** Histories made by appends and unions never trip the replica-identity check. */
  lemma NoCollisions(h: History, rank: Uuid -> nat, r: Uuid)
    requires Legal(h, rank)
    ensures Ranked(View(h, r), rank) && OneChainPerReplica(View(h, r), rank)
  {
    LegalIsGenuine(h, rank);
    ViewIsPart(h, rank, r);
    var view := View(h, r);
    forall x, y | x in view && y in view && x != y && view[x].replica == view[y].replica
      ensures Related(view, rank, x, y) {
      OwnAreSeen(h, rank, x, y);
      ViewAncestors(h, rank, r, x, y);
      ViewAncestors(h, rank, r, y, x);
    }
  }

  // ------------------------------------------------------------- what forks mean

  lemma {:induction false} BasesAreHeads(h: History, rank: Uuid -> nat, x: Uuid, s: StreamId)
    requires Genuine(h, rank) && x in AllOf(h) && s in AllOf(h)[x].bases
    ensures x in Seen(h) && AllOf(h)[x].bases[s] == Written(Restrict(AllOf(h), Seen(h)[x]), s)
  {
    SeenIsClosed(h, rank, x);
    if h.United? {
      BasesAreHeads(h.before, rank, x, s);
    } else {
      if x != h.id { BasesAreHeads(h.before, rank, x, s); }
      SeenIsClosed(h.before, rank, x);
      KnownIsClosed(h.before, rank, h.t.replica);
      assert Restrict(AllOf(h), Seen(h)[x]) == Restrict(AllOf(h.before), Seen(h)[x]);
    }
  }

  /** A descendant's recorded base exceeds that of every ancestor that wrote the stream. */
  lemma BaseExceedsWriters(h: History, rank: Uuid -> nat, a: Uuid, x: Uuid, s: StreamId)
    requires Genuine(h, rank) && x in AllOf(h) && x in Seen(h) && a in Seen(h)[x]
    requires a in AllOf(h) && s in AllOf(h)[a].bases && s in AllOf(h)[x].bases
    requires Of(AllOf(h)[a].events, s) != []
    ensures AllOf(h)[a].bases[s] < AllOf(h)[x].bases[s]
  {
    BasesAreHeads(h, rank, a, s);
    BasesAreHeads(h, rank, x, s);
    SeenIsNested(h, rank, a, x);
    var below, above := Restrict(AllOf(h), Seen(h)[a]), Restrict(AllOf(h), Seen(h)[x]);
    WrittenRemove(above, s, a);
    WrittenGrows(below, above - {a}, s);
  }

  lemma ViewAncestorsWereSeen(h: History, rank: Uuid -> nat, r: Uuid, a: Uuid, x: Uuid)
    requires Genuine(h, rank) && x in Known(h, r)
    ensures Ranked(View(h, r), rank) && x in AllOf(h) && x in Seen(h)
    ensures Ancestor(View(h, r), rank, a, x) ==> a in Seen(h)[x]
  {
    ViewIsPart(h, rank, r);
    AncestorsWereSeen(h, rank, a, x);
    if Ancestor(View(h, r), rank, a, x) { AncestorGrown(View(h, r), AllOf(h), rank, a, x); }
  }

  /** Two writers of a stream that claim the same base for it are concurrent. */
  lemma SameBaseIsConcurrent(h: History, rank: Uuid -> nat, r: Uuid, x: Uuid, y: Uuid, c: Claim)
    requires Genuine(h, rank) && Ranked(View(h, r), rank) && x in Known(h, r) && y in Known(h, r)
    requires x in AllOf(h) && Claims(AllOf(h)[x], c) && Of(AllOf(h)[x].events, c.stream) != []
    requires y in AllOf(h) && Claims(AllOf(h)[y], c) && Of(AllOf(h)[y].events, c.stream) != []
    ensures !Related(View(h, r), rank, x, y)
  {
    ViewAncestorsWereSeen(h, rank, r, x, y);
    ViewAncestorsWereSeen(h, rank, r, y, x);
    if x in Seen(h)[y] { BaseExceedsWriters(h, rank, x, y, c.stream); }
    if y in Seen(h)[x] { BaseExceedsWriters(h, rank, y, x, c.stream); }
  }

  lemma ClaimantFacts(h: History, r: Uuid, c: Claim, x: Uuid)
    requires x in Claimants(View(h, r), View(h, r).Keys, c)
    ensures x in Known(h, r) && x in AllOf(h) && Claims(AllOf(h)[x], c)
  {
  }

  /** Members of a reported fork that wrote its stream are pairwise concurrent. */
  lemma ForkWritersAreConcurrent(h: History, rank: Uuid -> nat, r: Uuid, f: Fork, x: Uuid, y: Uuid)
    requires Genuine(h, rank) && Ranked(View(h, r), rank) && IsFork(View(h, r), rank, f)
    requires x in f.transactions && y in f.transactions && x in AllOf(h) && y in AllOf(h)
    requires Of(AllOf(h)[x].events, f.claim.stream) != [] && Of(AllOf(h)[y].events, f.claim.stream) != []
    ensures !Related(View(h, r), rank, x, y)
  {
    assert x in Elements(f.transactions) && y in Elements(f.transactions);
    ClaimantFacts(h, r, f.claim, x);
    ClaimantFacts(h, r, f.claim, y);
    SameBaseIsConcurrent(h, rank, r, x, y, f.claim);
  }

  /** In terms of what the writers had indexed: a fork is reported exactly on a base that two
      or more transactions claim and that nobody who had seen them all has written after. */
  lemma ForkIffUnseen(h: History, rank: Uuid -> nat, r: Uuid, c: Claim)
    requires Legal(h, rank)
    ensures Ranked(View(h, r), rank) && Known(h, r) <= Seen(h).Keys
    ensures ForkAt(View(h, r), rank, c) <==>
            && |Claimants(View(h, r), Known(h, r), c)| >= 2
            && forall z :: z in Known(h, r) ==> !(Claimants(View(h, r), Known(h, r), c) <= Seen(h)[z])
  {
    hide Legal, Genuine, Known, Seen, AllOf, View, Restrict, Ancestor, Ranked, Claimants;
    LegalIsGenuine(h, rank);
    ViewIsPart(h, rank, r);
    SeenIsClosed(h, rank, 0);
    var view := View(h, r);
    var heads := Claimants(view, Known(h, r), c);
    forall z | z in view ensures heads <= Seen(h)[z] <==> forall x :: x in heads ==> Ancestor(view, rank, x, z) {
      SawAllIff(h, rank, r, heads, z);
    }
  }

  lemma SawAllIff(h: History, rank: Uuid -> nat, r: Uuid, heads: set<Uuid>, z: Uuid)
    requires Legal(h, rank) && Ranked(View(h, r), rank) && z in Known(h, r) && z in Seen(h)
    ensures heads <= Seen(h)[z] <==> forall x :: x in heads ==> Ancestor(View(h, r), rank, x, z)
  {
    hide Legal, Known, Seen, View, Ancestor, Ranked;
    forall x ensures Ancestor(View(h, r), rank, x, z) <==> x in Seen(h)[z] {
      ViewAncestors(h, rank, r, x, z);
    }
  }

  // ------------------------------------------------------------- divergence

  /** Since `shared`, replicas `r1` and `r2` have appended and merged offline, any number of
      times, and nothing else has happened. */
  ghost predicate OfflineSince(h: History, shared: History, r1: Uuid, r2: Uuid) {
    h == shared || (h.Stored? && (h.t.replica == r1 || h.t.replica == r2) && OfflineSince(h.before, shared, r1, r2))
  }

  /** What one of them writes the other does not know, and has not seen in anything it knows. */
  lemma {:induction false} OfflineIsApart(h: History, shared: History, rank: Uuid -> nat, r1: Uuid, r2: Uuid, z: Uuid)
    requires Genuine(h, rank) && OfflineSince(h, shared, r1, r2) && r1 != r2 && Known(shared, r1) == Known(shared, r2)
    ensures Known(h, r1) * Known(h, r2) == Known(shared, r1)
    ensures AllOf(h).Keys == Seen(h).Keys
    ensures z in Known(h, r1) ==> z in Seen(h) && Seen(h)[z] <= Known(h, r1)
    ensures z in Known(h, r2) ==> z in Seen(h) && Seen(h)[z] <= Known(h, r2)
  {
    if z in Known(h, r1) { KnownHoldsSeen(h, rank, r1, z); }
    if z in Known(h, r2) { KnownHoldsSeen(h, rank, r2, z); }
    SeenIsClosed(h, rank, z);
    if h != shared {
      OfflineIsApart(h.before, shared, rank, r1, r2, z);
      KnownIsClosed(h.before, rank, r1);
      KnownIsClosed(h.before, rank, r2);
    }
  }

  /** `x` is the first since `known` to write `s`, as far as its writer had seen. */
  ghost predicate FirstToWrite(h: History, known: set<Uuid>, x: Uuid, s: StreamId) {
    && x in AllOf(h) && x in Seen(h) && s in AllOf(h)[x].bases && known <= Seen(h)[x]
    && forall z :: z in Seen(h)[x] - known && z in AllOf(h) ==> Of(AllOf(h)[z].events, s) == []
  }

  lemma {:induction false} WrittenSame(f: Files, g: Files, s: StreamId)
    requires Includes(g, f) && forall id :: id in g && id !in f ==> Of(g[id].events, s) == []
    ensures Written(g, s) == Written(f, s)
    decreases g
  {
    if g != map[] {
      var id :| id in g;
      WrittenRemove(g, s, id);
      if id in f {
        WrittenRemove(f, s, id);
        WrittenSame(f - {id}, g - {id}, s);
      } else {
        WrittenSame(f, g - {id}, s);
      }
    } else {
      assert f == map[];
    }
  }

  /** The first writer since a shared past records the shared head as its base. */
  lemma FirstWriterClaimsSharedHead(h: History, rank: Uuid -> nat, known: set<Uuid>, x: Uuid, s: StreamId)
    requires Genuine(h, rank) && FirstToWrite(h, known, x, s)
    ensures Claims(AllOf(h)[x], Claim(s, Written(Restrict(AllOf(h), known), s)))
  {
    BasesAreHeads(h, rank, x, s);
    SeenIsClosed(h, rank, x);
    WrittenSame(Restrict(AllOf(h), known), Restrict(AllOf(h), Seen(h)[x]), s);
  }

  lemma {:induction false} OfflineKeepsShared(h: History, shared: History, rank: Uuid -> nat, r1: Uuid, r2: Uuid,
                                              w: Uuid)
    requires Genuine(h, rank) && OfflineSince(h, shared, r1, r2) && r1 != r2
    requires w in Known(h, r1) - Known(shared, r1) || w in Known(h, r2) - Known(shared, r2)
    requires Known(shared, r1) == Known(shared, r2)
    ensures Known(shared, r1) <= Known(h, r1) && Known(shared, r1) <= Known(h, r2)
    ensures w in AllOf(h) && w in Seen(h) && Known(shared, r1) <= Seen(h)[w]
  {
    if h != shared {
      SharedIsKept(h.before, shared, r1, r2);
      if w != h.id { OfflineKeepsShared(h.before, shared, rank, r1, r2, w); }
    }
  }

  lemma {:induction false} SharedIsKept(h: History, shared: History, r1: Uuid, r2: Uuid)
    requires OfflineSince(h, shared, r1, r2)
    ensures Known(shared, r1) <= Known(h, r1) && Known(shared, r2) <= Known(h, r2)
  {
    if h != shared { SharedIsKept(h.before, shared, r1, r2); }
  }

  lemma {:induction false} WritesAreRegistered(h: History, rank: Uuid -> nat, w: Uuid, s: StreamId)
    requires Genuine(h, rank) && w in AllOf(h) && Wrote(AllOf(h)[w], s)
    ensures s in AllOf(h)[w].bases
  {
    if h.Stored? && w == h.id {
      var e := Of(h.t.events, s)[0];
      assert e in Of(h.t.events, s);
      OfMember(h.t.events, s, e);
    } else {
      WritesAreRegistered(h.before, rank, w, s);
    }
  }

  /** Among what one of them wrote on a stream since then, some transaction was the first. */
  lemma {:induction false} FirstWriter(h: History, shared: History, rank: Uuid -> nat, r1: Uuid, r2: Uuid, w: Uuid,
                                       s: StreamId)
    returns (x: Uuid)
    requires Genuine(h, rank) && OfflineSince(h, shared, r1, r2) && r1 != r2 && Known(shared, r1) == Known(shared, r2)
    requires w in AllOf(h) && Wrote(AllOf(h)[w], s)
    requires w in Known(h, r1) - Known(shared, r1) || w in Known(h, r2) - Known(shared, r1)
    ensures FirstToWrite(h, Known(shared, r1), x, s) && x !in Known(shared, r1)
    ensures w in Known(h, r1) ==> x in Known(h, r1)
    ensures w in Known(h, r2) ==> x in Known(h, r2)
    decreases rank(w)
  {
    OfflineKeepsShared(h, shared, rank, r1, r2, w);
    OfflineIsApart(h, shared, rank, r1, r2, w);
    if z :| z in Seen(h)[w] - Known(shared, r1) && z in AllOf(h) && Wrote(AllOf(h)[z], s) {
      SeenIsNested(h, rank, z, w);
      x := FirstWriter(h, shared, rank, r1, r2, z, s);
    } else {
      x := w;
      WritesAreRegistered(h, rank, w, s);
    }
  }

  /** Two replicas that share what they know go offline and both write a stream, in any number
      of transactions: after the union a fork at the shared head is reported. */
  lemma DivergenceIsReported(h: History, shared: History, rank: Uuid -> nat, r1: Uuid, r2: Uuid, v: Uuid, w: Uuid,
                             s: StreamId)
    requires Genuine(h, rank) && OfflineSince(h, shared, r1, r2) && r1 != r2 && Known(shared, r1) == Known(shared, r2)
    requires v in Known(h, r1) - Known(shared, r1) && v in AllOf(h) && Wrote(AllOf(h)[v], s)
    requires w in Known(h, r2) - Known(shared, r1) && w in AllOf(h) && Wrote(AllOf(h)[w], s)
    ensures var view := View(United(h, r1, r2), r1);
            Ranked(view, rank) && ForkAt(view, rank, Claim(s, Written(Restrict(AllOf(h), Known(shared, r1)), s)))
  {
    hide Genuine, ForkAt, Known, AllOf, FirstToWrite, Written, View, Ranked;
    var x := FirstWriter(h, shared, rank, r1, r2, v, s);
    var y := FirstWriter(h, shared, rank, r1, r2, w, s);
    FirstWritersFork(h, shared, rank, r1, r2, x, y, s);
  }

  /** The fork has both first writers in it. */
  lemma FirstWritersFork(h: History, shared: History, rank: Uuid -> nat, r1: Uuid, r2: Uuid, x: Uuid, y: Uuid,
                         s: StreamId)
    requires Genuine(h, rank) && OfflineSince(h, shared, r1, r2) && r1 != r2 && Known(shared, r1) == Known(shared, r2)
    requires x in Known(h, r1) - Known(shared, r1) && FirstToWrite(h, Known(shared, r1), x, s)
    requires y in Known(h, r2) - Known(shared, r1) && FirstToWrite(h, Known(shared, r1), y, s)
    ensures var view := View(United(h, r1, r2), r1);
            var c := Claim(s, Written(Restrict(AllOf(h), Known(shared, r1)), s));
            && Ranked(view, rank) && ForkAt(view, rank, c)
            && x in Claimants(view, view.Keys, c) && y in Claimants(view, view.Keys, c)
  {
    var u := United(h, r1, r2);
    var c := Claim(s, Written(Restrict(AllOf(h), Known(shared, r1)), s));
    FirstWriterClaimsSharedHead(h, rank, Known(shared, r1), x, s);
    FirstWriterClaimsSharedHead(h, rank, Known(shared, r1), y, s);
    ViewIsPart(u, rank, r1);
    OfflineIsApart(h, shared, rank, r1, r2, x);
    forall z | z in Known(u, r1) ensures z in Seen(u) && !(x in Seen(u)[z] && y in Seen(u)[z]) {
      NobodySawBoth(h, shared, rank, r1, r2, x, y, z);
    }
    UnseenPairForks(u, rank, r1, c, x, y);
  }

  /** Two claimants that nobody had both seen make a fork. */
  lemma UnseenPairForks(h: History, rank: Uuid -> nat, r: Uuid, c: Claim, x: Uuid, y: Uuid)
    requires Genuine(h, rank) && Ranked(View(h, r), rank) && View(h, r).Keys == Known(h, r) && x != y
    requires x in Known(h, r) && x in AllOf(h) && Claims(AllOf(h)[x], c)
    requires y in Known(h, r) && y in AllOf(h) && Claims(AllOf(h)[y], c)
    requires forall z :: z in Known(h, r) ==> z in Seen(h) && !(x in Seen(h)[z] && y in Seen(h)[z])
    ensures ForkAt(View(h, r), rank, c)
    ensures x in Claimants(View(h, r), View(h, r).Keys, c) && y in Claimants(View(h, r), View(h, r).Keys, c)
  {
    hide Genuine, Known, Seen, AllOf, View, Ranked, Ancestor, Claimants, Claims;
    var view := View(h, r);
    var heads := Claimants(view, view.Keys, c);
    IsClaimant(h, r, c, x);
    IsClaimant(h, r, c, y);
    AtLeastTwo(heads, x, y);
    forall z | z in view ensures !(Ancestor(view, rank, x, z) && Ancestor(view, rank, y, z)) {
      ViewAncestorsWereSeen(h, rank, r, x, z);
      ViewAncestorsWereSeen(h, rank, r, y, z);
    }
    assert !Resolved(view, rank, heads);
  }

  lemma IsClaimant(h: History, r: Uuid, c: Claim, x: Uuid)
    requires x in Known(h, r) && x in AllOf(h) && Claims(AllOf(h)[x], c)
    ensures x in Claimants(View(h, r), Known(h, r), c)
  {
  }

  lemma NobodySawBoth(h: History, shared: History, rank: Uuid -> nat, r1: Uuid, r2: Uuid, x: Uuid, y: Uuid, z: Uuid)
    requires Genuine(h, rank) && OfflineSince(h, shared, r1, r2) && r1 != r2 && Known(shared, r1) == Known(shared, r2)
    requires x in Known(h, r1) - Known(shared, r1) && y in Known(h, r2) - Known(shared, r1)
    requires z in Known(h, r1) || z in Known(h, r2)
    ensures z in Seen(h) && !(x in Seen(h)[z] && y in Seen(h)[z])
  {
    OfflineIsApart(h, shared, rank, r1, r2, z);
  }

  /** Two claimants, one of them a tip, make a fork. */
  lemma TipInGroupForks(files: Files, rank: Uuid -> nat, c: Claim, tip: Uuid, other: Uuid)
    requires Ranked(files, rank) && tip in files && other in files && tip != other
    requires Claims(files[tip], c) && Claims(files[other], c)
    requires forall d :: d in files ==> tip !in files[d].parents
    ensures ForkAt(files, rank, c)
    ensures tip in Claimants(files, files.Keys, c) && other in Claimants(files, files.Keys, c)
  {
    var heads := Claimants(files, files.Keys, c);
    AtLeastTwo(heads, tip, other);
    TipIsUnresolved(files, rank, heads, tip);
  }

  lemma AtLeastTwo<T>(s: set<T>, a: T, b: T)
    requires a in s && b in s && a != b
    ensures |s| >= 2
  {
    assert s == {a, b} + (s - {a, b});
  }

  /** When the newest transaction is an append whose writer knew everything (as in a single-writer
      history), a fork is reported exactly on the streams that it registers at a base somebody registered
      before, which needs no second writer: it is enough that both only read the stream. */
  lemma SingleWriterForkIff(h: History, rank: Uuid -> nat, c: Claim)
    requires Genuine(h, rank) && EndsInAppend(h) && Known(h.before, h.t.replica) == AllOf(h.before).Keys
    ensures Ranked(AllOf(h), rank)
    ensures ForkAt(AllOf(h), rank, c) <==>
            Claims(h.t, c) && exists x :: x in AllOf(h.before) && Claims(AllOf(h.before)[x], c)
  {
    HistoryIsRanked(h, rank);
    if !Claims(h.t, c) {
      UnclaimedIsResolved(h, rank, AllOf(h), c);
    } else if x :| x in AllOf(h.before) && Claims(AllOf(h.before)[x], c) {
      ClaimedTwice(h, rank, AllOf(h), c, x);
    } else {
      ClaimedOnce(AllOf(h), rank, c, h.id);
    }
  }

  lemma ClaimedTwice(h: History, rank: Uuid -> nat, files: Files, c: Claim, x: Uuid)
    requires Genuine(h, rank) && h.Stored? && files == AllOf(h) && Ranked(files, rank)
    requires Claims(h.t, c) && x in AllOf(h.before) && Claims(AllOf(h.before)[x], c)
    ensures ForkAt(files, rank, c)
  {
    NewestIsATip(h, rank);
    TipInGroupForks(files, rank, c, h.id, x);
  }

  lemma ClaimedOnce(files: Files, rank: Uuid -> nat, c: Claim, id: Uuid)
    requires Ranked(files, rank) && forall x :: x in files && Claims(files[x], c) ==> x == id
    ensures !ForkAt(files, rank, c)
  {
    assert Claimants(files, files.Keys, c) <= {id};
    AtMostOne(Claimants(files, files.Keys, c), id);
  }

  lemma AtMostOne<T>(s: set<T>, x: T)
    requires s <= {x}
    ensures |s| < 2
  {
    if s != {} { assert s == {x}; }
  }

  lemma UnclaimedIsResolved(h: History, rank: Uuid -> nat, files: Files, c: Claim)
    requires Genuine(h, rank) && EndsInAppend(h) && Known(h.before, h.t.replica) == AllOf(h.before).Keys
    requires files == AllOf(h) && Ranked(files, rank) && !Claims(h.t, c)
    ensures !ForkAt(files, rank, c)
  {
    var heads := Claimants(files, files.Keys, c);
    assert forall x :: x in heads ==> x in AllOf(h.before);
    NewestResolves(h, rank, files, heads);
  }

  lemma NewestIsATip(h: History, rank: Uuid -> nat)
    requires Genuine(h, rank) && h.Stored?
    ensures forall d :: d in AllOf(h) ==> h.id !in AllOf(h)[d].parents
  {
    HistoryIsRanked(h.before, rank);
    ParentsAreHeld(h, rank);
  }

  lemma NewestResolves(h: History, rank: Uuid -> nat, files: Files, heads: set<Uuid>)
    requires Genuine(h, rank) && EndsInAppend(h) && Known(h.before, h.t.replica) == AllOf(h.before).Keys
    requires files == AllOf(h) && Ranked(files, rank) && h.id in files
    requires forall x :: x in heads ==> x in Known(h.before, h.t.replica)
    ensures Resolved(files, rank, heads)
  {
    forall x ensures x in heads ==> Ancestor(files, rank, x, h.id) {
      if x in heads { NewestDescends(h, rank, x); }
    }
  }

  lemma NewestDescends(h: History, rank: Uuid -> nat, x: Uuid)
    requires Genuine(h, rank) && EndsInAppend(h) && x in Known(h.before, h.t.replica)
    ensures Ranked(AllOf(h), rank) && Ancestor(AllOf(h), rank, x, h.id)
  {
    HistoryIsRanked(h, rank);
    NewestAncestors(h, rank, x);
  }

  /** If every transaction writes every stream it registers, such a history reports no fork. */
  lemma WritersOnlyNoForks(h: History, rank: Uuid -> nat, c: Claim)
    requires Genuine(h, rank) && EndsInAppend(h) && Known(h.before, h.t.replica) == AllOf(h.before).Keys
    requires forall x, s :: x in AllOf(h) && s in AllOf(h)[x].bases ==> Of(AllOf(h)[x].events, s) != []
    ensures Ranked(AllOf(h), rank) && !ForkAt(AllOf(h), rank, c)
  {
    SingleWriterForkIff(h, rank, c);
    if Claims(h.t, c) {
      forall x | x in AllOf(h.before) ensures !Claims(AllOf(h.before)[x], c) {
        WrittenBaseIsTaken(h, rank, x, c);
      }
    }
  }

  lemma WrittenBaseIsTaken(h: History, rank: Uuid -> nat, x: Uuid, c: Claim)
    requires Genuine(h, rank) && h.Stored? && x in Known(h.before, h.t.replica) && x in AllOf(h.before)
    requires Claims(h.t, c) && (c.stream in AllOf(h)[x].bases ==> Of(AllOf(h)[x].events, c.stream) != [])
    ensures !Claims(AllOf(h.before)[x], c)
  {
    if c.stream in AllOf(h)[x].bases { BaseExceedsWriters(h, rank, x, h.id, c.stream); }
  }

  // ------------------------------------------------------------- a false fork

  function ReadAndWrite(readBase: nat, writeBase: nat, parents: seq<Uuid>, event: FileEvent): Transaction {
    Transaction(7, parents, 0, map["read" := readBase, "written" := writeBase], [event])
  }

  /** One replica, two appends; both register `read` without writing it.  Its single-writer
      history reports a fork on that stream. */
  lemma ReadOnlyRegistrationForks(a: Payload, b: Payload)
    ensures var first := ReadAndWrite(0, 0, [], FileEvent(100, "written", 1, a));
            var second := ReadAndWrite(0, 1, [1], FileEvent(101, "written", 2, b));
            var h := Stored(Stored(Genesis, 1, first), 2, second);
            && Legal(h, Itself) && Ranked(View(h, 7), Itself) && ForkAt(View(h, 7), Itself, Claim("read", 0))
  {
    var e1, e2 := FileEvent(100, "written", 1, a), FileEvent(101, "written", 2, b);
    var first, second := ReadAndWrite(0, 0, [], e1), ReadAndWrite(0, 1, [1], e2);
    var h1 := Stored(Genesis, 1, first);
    var h := Stored(h1, 2, second);
    hide Legal, Genuine, View, Known, Ranked, ForkAt;
    FirstIsLegal(first, e1);
    SecondIsLegal(h1, first, second, e1);
    LegalIsGenuine(h, Itself);
    EndsWithSecond(h);
    SingleWriterForkIff(h, Itself, Claim("read", 0));
    FirstClaims(first, e1);
    OneWriterSeesAll(h1, second);
  }

  lemma FirstClaims(first: Transaction, e1: FileEvent)
    requires first == ReadAndWrite(0, 0, [], e1)
    ensures 1 in AllOf(Stored(Genesis, 1, first)) && Claims(AllOf(Stored(Genesis, 1, first))[1], Claim("read", 0))
  {
  }

  lemma SecondIsLegal(h1: History, first: Transaction, second: Transaction, e1: FileEvent)
    requires first == ReadAndWrite(0, 0, [], e1) && e1.stream == "written"
    requires h1 == Stored(Genesis, 1, first) && Legal(h1, Itself)
    requires second.replica == 7 && second.parents == [1] && second.bases == map["read" := 0, "written" := 1]
    requires forall e :: e in second.events ==> e.stream == "written"
    ensures Legal(Stored(h1, 2, second), Itself)
    ensures Known(h1, 7) == AllOf(h1).Keys
  {
    OneFile(h1, first, e1);
    assert AllOf(h1) == map[1 := first] && Known(h1, 7) == {1};
  }

  lemma EndsWithSecond(h: History)
    requires Legal(h, Itself) && h.Stored?
    ensures EndsInAppend(h)
  {
  }

  lemma OneWriterSeesAll(h1: History, t: Transaction)
    requires Known(h1, t.replica) == AllOf(h1).Keys
    ensures View(Stored(h1, 2, t), t.replica) == AllOf(Stored(h1, 2, t))
  {
  }

  lemma FirstIsLegal(first: Transaction, e1: FileEvent)
    requires first == ReadAndWrite(0, 0, [], e1) && e1.stream == "written"
    ensures Legal(Stored(Genesis, 1, first), Itself)
  {
    hide Written;
    var none: Files := map[];
    assert View(Genesis, 7) == none && Elements(first.parents) == {};
    NothingWritten();
    assert Tips(none) == {};
  }

  lemma OneFile(h1: History, first: Transaction, e1: FileEvent)
    requires first == ReadAndWrite(0, 0, [], e1) && e1.stream == "written" && h1 == Stored(Genesis, 1, first)
    ensures View(h1, 7) == map[1 := first] && Tips(View(h1, 7)) == {1} && Elements([1]) == {1}
    ensures Written(View(h1, 7), "written") == 1 && Written(View(h1, 7), "read") == 0
  {
    var view: Files := map[1 := first];
    assert AllOf(h1) == view && Known(h1, 7) == {1};
    assert View(h1, 7) == view;
    WrittenRemove(view, "written", 1);
    WrittenRemove(view, "read", 1);
    assert view - {1} == map[];
    assert first.events[..0] == [];
    assert "read" != "written" by { assert |"read"| != |"written"|; }
  }
}
