/** The PostgreSQL append: one advisory lock per declared stream, taken in stream order, then
    the version checks, then the inserts and the commit.  Any number of such transactions
    interleave; the locks they take are hashes of stream ids. */
module LockedAppend {
  import opened Streams
  import opened Writes
  import opened StringOrder

  // ------------------------------------------------------------- transactions

  datatype Phase =
    | Locking(taken: nat)
    | Checking(checked: nat)
    | Committed
    | Refused(error: StoreError)
    | Aborted

  datatype Txn = Txn(writes: StreamWrites, order: seq<StreamId>, phase: Phase)

  /** Committed data, the transactions, and the batches committed so far. */
  datatype Database = Database(store: Store, txns: map<nat, Txn>, log: seq<StreamWrites>)

  datatype Action =
    | Begin(k: nat, writes: StreamWrites, order: seq<StreamId>)
    | Lock(k: nat)
    | Check(k: nat)
    | Commit(k: nat)
    | Abort(k: nat)

  predicate Finished(t: Txn) {
    t.phase.Committed? || t.phase.Refused? || t.phase.Aborted?
  }

  /** The streams whose locks a transaction holds; all are released when it ends. */
  function Locked(t: Txn): seq<StreamId> {
    match t.phase
    case Locking(n) => if n <= |t.order| then t.order[..n] else t.order
    case Checking(_) => t.order
    case _ => []
  }

  predicate HoldsKey(t: Txn, key: StreamId -> int, id: int) {
    exists s :: s in Locked(t) && key(s) == id
  }

  predicate Free(db: Database, key: StreamId -> int, k: nat, id: int) {
    forall j :: j in db.txns && j != k ==> !HoldsKey(db.txns[j], key, id)
  }

  /** A batch with events only for declared streams, and their sorted order. */
  ghost predicate WellFormedBatch(w: StreamWrites, order: seq<StreamId>) {
    && w.entries != [] && (forall e :: e in w.entries ==> e.stream in w.expected)
    && InOrder(order) && Elements(order) == w.expected.Keys
  }

  ghost predicate Enabled(db: Database, a: Action, key: StreamId -> int) {
    match a
    case Begin(k, w, order) => k !in db.txns && WellFormedBatch(w, order)
    case Lock(k) =>
      && k in db.txns && db.txns[k].phase.Locking? && db.txns[k].phase.taken < |db.txns[k].order|
      && Free(db, key, k, key(db.txns[k].order[db.txns[k].phase.taken]))
    case Check(k) =>
      && k in db.txns
      && (db.txns[k].phase == Locking(|db.txns[k].order|)
          || (db.txns[k].phase.Checking? && db.txns[k].phase.checked < |db.txns[k].order|))
    case Commit(k) => k in db.txns && db.txns[k].phase == Checking(|db.txns[k].order|)
    case Abort(k) => k in db.txns && !Finished(db.txns[k])
  }

  /** Reads the present committed version of the next stream and compares it. */
  function Checked(s: Store, t: Txn, n: nat): Phase {
    if n >= |t.order| || t.order[n] !in t.writes.expected then Checking(n)
    else
      var id := t.order[n];
      if |Stream(s, id)| == t.writes.expected[id] then Checking(n + 1)
      else Refused(VersionConflict(id, t.writes.expected[id], |Stream(s, id)|))
  }

  function Advanced(s: Store, t: Txn, a: Action): Phase {
    if a.Lock? && t.phase.Locking? then Locking(t.phase.taken + 1)
    else if a.Check? then Checked(s, t, if t.phase.Checking? then t.phase.checked else 0)
    else if a.Commit? then Committed
    else if a.Abort? then Aborted
    else t.phase
  }

  function Perform(db: Database, a: Action): Database {
    if a.Begin? then db.(txns := db.txns[a.k := Txn(a.writes, a.order, Locking(0))])
    else if a.k !in db.txns then db
    else
      var t := db.txns[a.k];
      var txns := db.txns[a.k := t.(phase := Advanced(db.store, t, a))];
      if a.Commit? then Database(AppendAll(db.store, t.writes.entries), txns, db.log + [t.writes])
      else db.(txns := txns)
  }

  datatype Run = Nothing | Do(before: Run, action: Action)

  function EndOf(first: Database, run: Run): Database {
    match run
    case Nothing => first
    case Do(before, a) => Perform(EndOf(first, before), a)
  }

  ghost predicate Possible(first: Database, run: Run, key: StreamId -> int) {
    run.Do? ==> Possible(first, run.before, key) && Enabled(EndOf(first, run.before), run.action, key)
  }

  // ------------------------------------------------------------- invariants

  predicate MatchesAt(s: Store, t: Txn, id: StreamId) {
    id in t.writes.expected && |Stream(s, id)| == t.writes.expected[id]
  }

  /** Versions checked so far are still current. */
  ghost predicate StillCurrent(s: Store, t: Txn) {
    t.phase.Checking? ==>
      && t.phase.checked <= |t.order|
      && forall i :: 0 <= i < t.phase.checked ==> MatchesAt(s, t, t.order[i])
  }

  ghost predicate TxnInv(s: Store, t: Txn) {
    && WellFormedBatch(t.writes, t.order)
    && (forall i :: 0 <= i < |t.order| ==> t.order[i] in t.writes.expected)
    && (t.phase.Locking? ==> t.phase.taken <= |t.order|)
    && StillCurrent(s, t)
  }

  /** No two transactions hold the same lock key. */
  ghost predicate Exclusive(txns: map<nat, Txn>, key: StreamId -> int) {
    forall j, k :: j in txns && k in txns && j != k ==> Apart(txns[j], txns[k], key)
  }

  ghost predicate Apart(t: Txn, u: Txn, key: StreamId -> int) {
    forall x, y :: x in Locked(t) && y in Locked(u) ==> key(x) != key(y)
  }

  /** Atomic compare-and-append, one batch after another. */
  ghost function RunAtomically(s: Store, log: seq<StreamWrites>): Option<Store> {
    if log == [] then Some(s)
    else
      match RunAtomically(s, log[..|log| - 1])
      case None => None
      case Some(t) =>
        var w := log[|log| - 1];
        if VersionsMatch(t, w.expected) then Some(AppendAll(t, w.entries)) else None
  }

  ghost predicate Inv(first: Store, db: Database, key: StreamId -> int) {
    && (forall k :: k in db.txns ==> TxnInv(db.store, db.txns[k]))
    && Exclusive(db.txns, key)
    && RunAtomically(first, db.log) == Some(db.store)
  }

  lemma {:induction false} OnStreamNone(events: seq<Event>, id: StreamId)
    requires forall e :: e in events ==> e.stream != id
    ensures OnStream(events, id) == []
  {
    if events != [] {
      OnStreamNone(events[..|events| - 1], id);
      assert events[|events| - 1] in events;
    }
  }

  /** A commit by one transaction leaves every stream that another has locked as it was. */
  lemma CommitLeavesOthers(s: Store, t: Txn, u: Txn)
    requires TxnInv(s, t) && TxnInv(s, u) && t.phase.Checking?
    requires forall x :: x in Locked(t) ==> x !in Locked(u)
    ensures TxnInv(AppendAll(s, t.writes.entries), u)
  {
    if u.phase.Checking? {
      forall i | 0 <= i < u.phase.checked
        ensures MatchesAt(AppendAll(s, t.writes.entries), u, u.order[i])
      {
        assert u.order[i] in u.order;
        forall e | e in t.writes.entries ensures e.stream != u.order[i] {
          assert e.stream in Elements(t.order);
          assert e.stream in Locked(t) && u.order[i] in Locked(u);
        }
        assert MatchesAt(s, u, u.order[i]);
        AppendAllPerStream(s, t.writes.entries, u.order[i]);
        OnStreamNone(t.writes.entries, u.order[i]);
      }
    }
  }

  lemma CommitKeepsInv(first: Store, db: Database, k: nat, key: StreamId -> int)
    requires Inv(first, db, key) && Enabled(db, Commit(k), key)
    ensures VersionsMatch(db.store, db.txns[k].writes.expected)
    ensures Inv(first, Perform(db, Commit(k)), key)
  {
    hide RunAtomically, Apart, InOrder, VersionsMatch, AppendAll;
    var t := db.txns[k];
    assert TxnInv(db.store, t);
    AllChecked(db.store, t);
    LoggedAtomically(first, db.log, db.store, t.writes);
    ReleasingKeepsExclusive(db.txns, key, k, t.(phase := Committed));
    OthersStayCurrent(first, db, k, key);
  }

  lemma OthersStayCurrent(first: Store, db: Database, k: nat, key: StreamId -> int)
    requires Inv(first, db, key) && k in db.txns && db.txns[k].phase.Checking?
    ensures forall j :: j in db.txns && j != k ==> TxnInv(AppendAll(db.store, db.txns[k].writes.entries), db.txns[j])
  {
    forall j | j in db.txns && j != k ensures TxnInv(AppendAll(db.store, db.txns[k].writes.entries), db.txns[j]) {
      assert Apart(db.txns[k], db.txns[j], key);
      CommitLeavesOthers(db.store, db.txns[k], db.txns[j]);
    }
  }

  lemma LoggedAtomically(first: Store, log: seq<StreamWrites>, s: Store, w: StreamWrites)
    requires RunAtomically(first, log) == Some(s) && VersionsMatch(s, w.expected)
    ensures RunAtomically(first, log + [w]) == Some(AppendAll(s, w.entries))
  {
    assert (log + [w])[..|log + [w]| - 1] == log;
  }

  lemma AllChecked(s: Store, t: Txn)
    requires TxnInv(s, t) && t.phase == Checking(|t.order|)
    ensures VersionsMatch(s, t.writes.expected)
  {
    forall id | id in t.writes.expected ensures |Stream(s, id)| == t.writes.expected[id] {
      assert id in Elements(t.order);
      var i :| 0 <= i < |t.order| && t.order[i] == id;
    }
  }

  lemma ReplacedKeepsInv(first: Store, db: Database, key: StreamId -> int, k: nat, t: Txn)
    requires Inv(first, db, key) && k in db.txns && TxnInv(db.store, t) && Exclusive(db.txns[k := t], key)
    ensures Inv(first, db.(txns := db.txns[k := t]), key)
  {
  }

  lemma LockKeepsInv(first: Store, db: Database, k: nat, key: StreamId -> int)
    requires Inv(first, db, key) && Enabled(db, Lock(k), key)
    ensures Inv(first, Perform(db, Lock(k)), key)
  {
    hide RunAtomically, Exclusive, InOrder, Free, Apart;
    var t := db.txns[k];
    assert TxnInv(db.store, t);
    LockStaysExclusive(db, k, key);
    ReplacedKeepsInv(first, db, key, k, t.(phase := Locking(t.phase.taken + 1)));
  }

  lemma LockStaysExclusive(db: Database, k: nat, key: StreamId -> int)
    requires Exclusive(db.txns, key) && Enabled(db, Lock(k), key)
    ensures Exclusive(db.txns[k := db.txns[k].(phase := Locking(db.txns[k].phase.taken + 1))], key)
  {
    var t := db.txns[k];
    var n := t.phase.taken;
    assert t.order[..n + 1] == t.order[..n] + [t.order[n]];
    var more := t.(phase := Locking(n + 1));
    forall j | j in db.txns && j != k ensures Apart(more, db.txns[j], key) && Apart(db.txns[j], more, key) {
      assert Apart(t, db.txns[j], key) && !HoldsKey(db.txns[j], key, key(t.order[n]));
    }
  }

  lemma BeginKeepsInv(first: Store, db: Database, a: Action, key: StreamId -> int)
    requires Inv(first, db, key) && a.Begin? && Enabled(db, a, key)
    ensures Inv(first, Perform(db, a), key)
  {
    forall i | 0 <= i < |a.order| ensures a.order[i] in a.writes.expected {
      assert a.order[i] in Elements(a.order);
    }
  }

  lemma CheckKeepsInv(first: Store, db: Database, k: nat, key: StreamId -> int)
    requires Inv(first, db, key) && Enabled(db, Check(k), key)
    ensures Inv(first, Perform(db, Check(k)), key)
  {
    var t := db.txns[k];
    assert t.order[..|t.order|] == t.order;
    var next := t.(phase := Advanced(db.store, t, Check(k)));
    CheckedTxnInv(db.store, t, Check(k));
    ReleasingKeepsExclusive(db.txns, key, k, next);
    ReplacedKeepsInv(first, db, key, k, next);
  }

  lemma CheckedTxnInv(s: Store, t: Txn, a: Action)
    requires TxnInv(s, t) && a.Check?
               && (t.phase == Locking(|t.order|) || (t.phase.Checking? && t.phase.checked < |t.order|))
    ensures TxnInv(s, t.(phase := Advanced(s, t, a)))
  {
  }

  /** A transaction that takes no new lock disturbs nobody. */
  lemma ReleasingKeepsExclusive(txns: map<nat, Txn>, key: StreamId -> int, k: nat, t: Txn)
    requires Exclusive(txns, key) && k in txns && forall s :: s in Locked(t) ==> s in Locked(txns[k])
    ensures Exclusive(txns[k := t], key)
  {
    forall j | j in txns && j != k ensures Apart(t, txns[j], key) && Apart(txns[j], t, key) {
      assert Apart(txns[k], txns[j], key) && Apart(txns[j], txns[k], key);
    }
  }

  lemma StepKeepsInv(first: Store, db: Database, a: Action, key: StreamId -> int)
    requires Inv(first, db, key) && Enabled(db, a, key)
    ensures Inv(first, Perform(db, a), key)
  {
    hide Inv, Enabled, Perform;
    match a {
      case Begin(_, _, _) => BeginKeepsInv(first, db, a, key);
      case Lock(k) => LockKeepsInv(first, db, k, key);
      case Check(k) => CheckKeepsInv(first, db, k, key);
      case Commit(k) => CommitKeepsInv(first, db, k, key);
      case Abort(k) => AbortKeepsInv(first, db, k, key);
    }
  }

  lemma AbortKeepsInv(first: Store, db: Database, k: nat, key: StreamId -> int)
    requires Inv(first, db, key) && Enabled(db, Abort(k), key)
    ensures Inv(first, Perform(db, Abort(k)), key)
  {
    hide RunAtomically, Apart, InOrder;
    var t := db.txns[k].(phase := Aborted);
    ReleasingKeepsExclusive(db.txns, key, k, t);
    ReplacedKeepsInv(first, db, key, k, t);
  }

  lemma IdleKeepsInv(first: Database, key: StreamId -> int)
    requires Idle(first)
    ensures Inv(first.store, first, key)
  {
  }

  lemma {:induction false} RunKeepsInv(first: Database, run: Run, key: StreamId -> int)
    requires Idle(first) && Possible(first, run, key)
    ensures Inv(first.store, EndOf(first, run), key)
  {
    if run == Nothing {
      IdleKeepsInv(first, key);
    } else {
      hide Inv, Enabled, Perform, Idle;
      RunKeepsInv(first, run.before, key);
      StepKeepsInv(first.store, EndOf(first, run.before), run.action, key);
    }
  }

  // ------------------------------------------------------------- the theorems

  /** Whatever the hash, concurrent locked appends amount to atomic compare-and-appends, one
      after another in commit order: what was checked is still current at the commit. */
  lemma RefinesAtomicAppend(first: Database, run: Run, key: StreamId -> int)
    requires Idle(first) && Possible(first, run, key)
    ensures RunAtomically(first.store, EndOf(first, run).log) == Some(EndOf(first, run).store)
  {
    RunKeepsInv(first, run, key);
  }

  // ------------------------------------------------------------- who commits and who is refused

  /** A check looks at the present length of the next stream.  It refuses exactly if that is not
      the expected version, and then names the stream and both numbers. */
  lemma CheckRefusesIff(db: Database, k: nat, key: StreamId -> int)
    requires Enabled(db, Check(k), key) && TxnInv(db.store, db.txns[k])
    ensures var t, next := db.txns[k], Perform(db, Check(k)).txns[k];
            var n := if t.phase.Checking? then t.phase.checked else 0;
            && n < |t.order| && t.order[n] in t.writes.expected
            && (var id := t.order[n];
                var (expected, actual) := (t.writes.expected[id], |Stream(db.store, id)|);
                if actual == expected then next == t.(phase := Checking(n + 1))
                else next == t.(phase := Refused(VersionConflict(id, expected, actual))))
            && Perform(db, Check(k)).store == db.store && Perform(db, Check(k)).log == db.log
  {
    OrderIsNotEmpty(db.txns[k]);
  }

  lemma OrderIsNotEmpty(t: Txn)
    requires WellFormedBatch(t.writes, t.order)
    ensures t.order != []
  {
    assert t.writes.entries[0] in t.writes.entries;
    assert t.writes.entries[0].stream in Elements(t.order);
  }

  ghost predicate PartOf(u: Run, run: Run) {
    u == run || (run.Do? && PartOf(u, run.before))
  }

  /** `e` names a stream of the batch that had another length than expected. */
  ghost predicate Differs(s: Store, w: StreamWrites, e: StoreError) {
    && e.VersionConflict? && e.stream in w.expected && e.expected == w.expected[e.stream]
    && e.actual == |Stream(s, e.stream)| && e.actual != e.expected
  }

  /** A refused batch had a stream that differed at some moment of the run. */
  lemma {:induction false} RefusedHadConflict(first: Database, run: Run, key: StreamId -> int, k: nat)
    requires Idle(first) && Possible(first, run, key)
    requires k in EndOf(first, run).txns && EndOf(first, run).txns[k].phase.Refused?
    ensures var t := EndOf(first, run).txns[k];
            exists u :: PartOf(u, run) && Differs(EndOf(first, u).store, t.writes, t.phase.error)
  {
    hide TxnInv, Exclusive, RunAtomically, Differs;
    var db := EndOf(first, run.before);
    if run.action == Check(k) && Enabled(db, Check(k), key) {
      RunKeepsInv(first, run.before, key);
      assert TxnInv(db.store, db.txns[k]);
      RefusalDiffers(db, k, key);
      assert PartOf(run.before, run);
    } else {
      RefusedHadConflict(first, run.before, key, k);
      var t := db.txns[k];
      var u :| PartOf(u, run.before) && Differs(EndOf(first, u).store, t.writes, t.phase.error);
      assert PartOf(u, run);
    }
  }

  lemma RefusalDiffers(db: Database, k: nat, key: StreamId -> int)
    requires Enabled(db, Check(k), key) && TxnInv(db.store, db.txns[k])
    requires Perform(db, Check(k)).txns[k].phase.Refused?
    ensures Differs(db.store, db.txns[k].writes, Perform(db, Check(k)).txns[k].phase.error)
  {
    hide TxnInv;
    CheckRefusesIff(db, k, key);
  }

  /** How many steps of its own a transaction has taken when it is in this phase. */
  function StepsTaken(t: Txn): nat {
    match t.phase
    case Locking(n) => n
    case Checking(n) => |t.order| + n
    case _ => 2 * |t.order| + 1
  }

  function StepsOf(run: Run, k: nat): nat {
    if run == Nothing then 0
    else StepsOf(run.before, k) + (if !run.action.Begin? && run.action.k == k then 1 else 0)
  }

  /** As long as the transaction is under way its streams have the lengths that it expects. */
  ghost predicate MatchedThroughout(first: Database, run: Run, k: nat) {
    run.Do? ==>
      && MatchedThroughout(first, run.before, k)
      && (var db := EndOf(first, run.before);
          k in db.txns && !Finished(db.txns[k]) ==> VersionsMatch(db.store, db.txns[k].writes.expected))
  }

  predicate NeverAborted(run: Run, k: nat) {
    run.Do? ==> run.action != Abort(k) && NeverAborted(run.before, k)
  }

  /** After `n` steps of its own the transaction is neither refused nor aborted, and committed
      exactly if these were all its steps. */
  ghost predicate OnItsWay(db: Database, k: nat, n: nat) {
    && k in db.txns && n == StepsTaken(db.txns[k])
    && (Finished(db.txns[k]) ==> db.txns[k].phase.Committed?)
    && (db.txns[k].phase.Committed? ==> db.txns[k].writes in db.log)
    && (db.txns[k].phase.Committed? <==> n == 2 * |db.txns[k].order| + 1)
  }

  /** A batch whose versions match all the while is never refused, and it is committed as soon as
      it has taken a lock and a check for each stream and one more step. */
  lemma {:induction false} MatchingBatchCommits(first: Database, run: Run, key: StreamId -> int, k: nat)
    requires Idle(first) && Possible(first, run, key) && k in EndOf(first, run).txns
    requires MatchedThroughout(first, run, k) && NeverAborted(run, k)
    ensures OnItsWay(EndOf(first, run), k, StepsOf(run, k))
  {
    hide OnItsWay, Inv, Enabled;
    var before, a := EndOf(first, run.before), run.action;
    RunKeepsInv(first, run.before, key);
    if k !in before.txns {
      NoStepsYet(first, run.before, key, k);
      FirstStep(first.store, before, a, key, k);
    } else {
      MatchingBatchCommits(first, run.before, key, k);
      if a.k == k && !a.Begin? {
        OwnStep(first.store, before, a, key, StepsOf(run.before, k));
      } else {
        OthersStep(before, a, key, k, StepsOf(run.before, k));
      }
    }
  }

  lemma {:induction false} NoStepsYet(first: Database, run: Run, key: StreamId -> int, k: nat)
    requires Idle(first) && Possible(first, run, key) && k !in EndOf(first, run).txns
    ensures StepsOf(run, k) == 0
  {
    if run.Do? { NoStepsYet(first, run.before, key, k); }
  }

  lemma FirstStep(first: Store, db: Database, a: Action, key: StreamId -> int, k: nat)
    requires Inv(first, db, key) && Enabled(db, a, key) && k !in db.txns && k in Perform(db, a).txns
    ensures OnItsWay(Perform(db, a), k, 0) && a.Begin?
  {
    hide RunAtomically, Exclusive;
    if a.Begin? { OrderIsNotEmpty(Perform(db, a).txns[k]); }
  }

  lemma OthersStep(db: Database, a: Action, key: StreamId -> int, k: nat, n: nat)
    requires OnItsWay(db, k, n) && Enabled(db, a, key) && (a.Begin? || a.k != k)
    ensures OnItsWay(Perform(db, a), k, n)
  {
  }

  lemma OwnStep(first: Store, db: Database, a: Action, key: StreamId -> int, n: nat)
    requires Inv(first, db, key) && Enabled(db, a, key) && !a.Begin? && !a.Abort?
    requires OnItsWay(db, a.k, n)
    requires !Finished(db.txns[a.k]) ==> VersionsMatch(db.store, db.txns[a.k].writes.expected)
    ensures OnItsWay(Perform(db, a), a.k, n + 1)
  {
    hide RunAtomically, Exclusive, Free, AppendAll;
    var t := db.txns[a.k];
    assert TxnInv(db.store, t);
    OrderIsNotEmpty(t);
    if a.Check? { CheckRefusesIff(db, a.k, key); }
  }

  /** The batch was decided as a compare-and-append on `s` is. */
  ghost predicate DecidedAsOn(s: Store, w: StreamWrites, db: Database, k: nat) {
    && k in db.txns && db.txns[k].writes == w
    && if VersionsMatch(s, w.expected) then db.txns[k].phase == Committed && db.store == AppendAll(s, w.entries)
       else db.txns[k].phase.Refused? && Differs(s, w, db.txns[k].phase.error) && db.store == s
  }

  /** With every other transaction finished, a batch that matches can be carried through to its
      commit, and one that does not to its refusal. */
  lemma AloneIsDecided(first: Database, run: Run, key: StreamId -> int, k: nat, w: StreamWrites, order: seq<StreamId>)
    returns (run': Run)
    requires Idle(first) && Possible(first, run, key) && k !in EndOf(first, run).txns && WellFormedBatch(w, order)
    requires forall j :: j in EndOf(first, run).txns ==> Finished(EndOf(first, run).txns[j])
    ensures Possible(first, run', key) && DecidedAsOn(EndOf(first, run).store, w, EndOf(first, run'), k)
  {
    hide DecidedAsOn;
    run' := Do(run, Begin(k, w, order));
    run' := AloneGoesOn(first, run', key, k, EndOf(first, run).store);
  }

  /** Transaction `k` is the only one under way. */
  ghost predicate OnlyUnfinished(db: Database, k: nat) {
    k in db.txns && forall j :: j in db.txns && j != k ==> Finished(db.txns[j])
  }

  lemma {:induction false} AloneGoesOn(first: Database, run: Run, key: StreamId -> int, k: nat, s: Store)
    returns (run': Run)
    requires Idle(first) && Possible(first, run, key) && OnlyUnfinished(EndOf(first, run), k)
    requires EndOf(first, run).store == s && k in EndOf(first, run).txns && !Finished(EndOf(first, run).txns[k])
    ensures Possible(first, run', key) && DecidedAsOn(s, EndOf(first, run).txns[k].writes, EndOf(first, run'), k)
    decreases 2 * |EndOf(first, run).txns[k].order| + 1 - StepsTaken(EndOf(first, run).txns[k])
  {
    hide Inv, Enabled, OnlyUnfinished, DecidedAsOn, Idle;
    var db := EndOf(first, run);
    RunKeepsInv(first, run, key);
    var a := StepAlone(first.store, db, key, k);
    run' := Do(run, a);
    if !Finished(EndOf(first, run').txns[k]) {
      run' := AloneGoesOn(first, run', key, k, s);
    }
  }

  /** Whoever is alone can take its next step, which ends it as it has to or brings it nearer. */
  lemma StepAlone(first: Store, db: Database, key: StreamId -> int, k: nat) returns (a: Action)
    requires Inv(first, db, key) && k in db.txns && OnlyUnfinished(db, k) && !Finished(db.txns[k])
    ensures k in db.txns && Enabled(db, a, key) && OnlyUnfinished(Perform(db, a), k)
    ensures var (t, next) := (db.txns[k], Perform(db, a));
            if Finished(next.txns[k]) then DecidedAsOn(db.store, t.writes, next, k)
            else
              && next.store == db.store && next.txns[k].writes == t.writes && next.txns[k].order == t.order
              && StepsTaken(t) < StepsTaken(next.txns[k]) <= 2 * |t.order|
  {
    hide AppendAll, RunAtomically, InOrder, OnlyUnfinished;
    var t := db.txns[k];
    assert TxnInv(db.store, t);
    OrderIsNotEmpty(t);
    NobodyHolds(db, key, k);
    MayGoOn(first, db, key, k);
    a := if Waiting(t) then Lock(k) else if t.phase == Checking(|t.order|) then Commit(k) else Check(k);
    assert Enabled(db, a, key);
    StaysAlone(db, a, k);
    if a.Commit? { AllChecked(db.store, t); }
    if a.Check? { CheckRefusesIff(db, k, key); }
  }

  lemma StaysAlone(db: Database, a: Action, k: nat)
    requires OnlyUnfinished(db, k) && a.k == k && !a.Begin?
    ensures OnlyUnfinished(Perform(db, a), k)
  {
  }

  lemma NobodyHolds(db: Database, key: StreamId -> int, k: nat)
    requires OnlyUnfinished(db, k)
    ensures forall id :: Free(db, key, k, id)
  {
  }

  ghost predicate CanAdvance(db: Database, k: nat, key: StreamId -> int) {
    Enabled(db, Lock(k), key) || Enabled(db, Check(k), key) || Enabled(db, Commit(k), key)
  }

  ghost predicate Unfinished(db: Database, k: nat) {
    k in db.txns && !Finished(db.txns[k])
  }

  ghost predicate Idle(db: Database) {
    db.txns == map[] && db.log == []
  }

  /** In every reachable state with something unfinished, something can take its next step. */
  ghost predicate DeadlockFree(key: StreamId -> int) {
    forall first, run, k :: Idle(first) && Possible(first, run, key) && Unfinished(EndOf(first, run), k) ==>
      exists j :: CanAdvance(EndOf(first, run), j, key)
  }

  /** Streams that share a lock key have no stream with another key between them.  Distinct keys
      satisfy it. */
  ghost predicate KeysInRuns(key: StreamId -> int) {
    forall a, b, c :: Before(a, b) && Before(b, c) && key(a) == key(c) ==> key(b) == key(a)
  }

  lemma DistinctKeysAreInRuns(key: StreamId -> int)
    requires forall a, b :: key(a) == key(b) ==> a == b
    ensures KeysInRuns(key)
  {
    forall a, b | Before(a, b) ensures !Before(b, a) {
      BeforeAsymmetric(a, b);
    }
  }

  /** Exactly when locking in stream order avoids deadlock, given that the locks are hashes. */
  lemma DeadlockFreeIff(key: StreamId -> int, p: Payload)
    ensures DeadlockFree(key) <==> KeysInRuns(key)
  {
    if KeysInRuns(key) {
      forall first, run, k | Idle(first) && Possible(first, run, key) && Unfinished(EndOf(first, run), k)
        ensures exists j :: CanAdvance(EndOf(first, run), j, key)
      {
        NeverDeadlocks(first, run, key, k);
      }
    } else {
      var a, b, c :| Before(a, b) && Before(b, c) && key(a) == key(c) && key(b) != key(a);
      CollisionDeadlocks(key, a, b, c, p);
    }
  }

  lemma NeverDeadlocks(first: Database, run: Run, key: StreamId -> int, k: nat)
    requires Idle(first) && Possible(first, run, key) && KeysInRuns(key) && Unfinished(EndOf(first, run), k)
    ensures exists j :: CanAdvance(EndOf(first, run), j, key)
  {
    RunKeepsInv(first, run, key);
    var ready := FindReady(first.store, EndOf(first, run), key, k);
    assert CanAdvance(EndOf(first, run), ready, key);
  }

  predicate Waiting(t: Txn) {
    t.phase.Locking? && t.phase.taken < |t.order|
  }

  function Wanted(t: Txn): StreamId
    requires Waiting(t)
  {
    t.order[t.phase.taken]
  }

  /** Follow the waiting: each blocker waits for a later stream than the one it blocks. */
  lemma {:induction false} FindReady(first: Store, db: Database, key: StreamId -> int, k: nat) returns (ready: nat)
    requires Inv(first, db, key) && KeysInRuns(key) && Unfinished(db, k)
    ensures CanAdvance(db, ready, key)
    decreases |Later(db, k)|
  {
    hide Inv, KeysInRuns, Later;
    var t := db.txns[k];
    if !Waiting(t) || Free(db, key, k, key(Wanted(t))) {
      MayGoOn(first, db, key, k);
      ready := k;
    } else {
      var j :| j in db.txns && j != k && HoldsKey(db.txns[j], key, key(Wanted(t)));
      var u := db.txns[j];
      if Waiting(u) && key(Wanted(u)) == key(Wanted(t)) {
        HolderIsFree(first, db, key, j, key(Wanted(u)));
        MayGoOn(first, db, key, j);
        ready := j;
      } else {
        BlockerIsLater(first, db, key, k, j);
        ready := FindReady(first, db, key, j);
      }
    }
  }

  /** Whoever waits for nothing, or for a free lock, can take its next step. */
  lemma MayGoOn(first: Store, db: Database, key: StreamId -> int, k: nat)
    requires Inv(first, db, key) && Unfinished(db, k)
    requires !Waiting(db.txns[k]) || Free(db, key, k, key(Wanted(db.txns[k])))
    ensures CanAdvance(db, k, key)
  {
    hide Exclusive, RunAtomically, Free, WellFormedBatch;
    assert TxnInv(db.store, db.txns[k]);
  }

  /** A key that a transaction holds is free for it to take again. */
  lemma HolderIsFree(first: Store, db: Database, key: StreamId -> int, j: nat, id: int)
    requires Inv(first, db, key) && j in db.txns && HoldsKey(db.txns[j], key, id)
    ensures Free(db, key, j, id)
  {
    forall i | i in db.txns && i != j ensures !HoldsKey(db.txns[i], key, id) {
      assert Apart(db.txns[i], db.txns[j], key);
    }
  }

  /** The transactions that wait for a stream after the one `k` waits for, or wait for none. */
  ghost function Later(db: Database, k: nat): set<nat>
    requires k in db.txns
  {
    if Waiting(db.txns[k])
    then set j | j in db.txns && (Waiting(db.txns[j]) ==> Before(Wanted(db.txns[k]), Wanted(db.txns[j])))
    else {}
  }

  lemma BlockerIsLater(first: Store, db: Database, key: StreamId -> int, k: nat, j: nat)
    requires Inv(first, db, key) && KeysInRuns(key) && k in db.txns && j in db.txns && j != k && Waiting(db.txns[k])
    requires HoldsKey(db.txns[j], key, key(Wanted(db.txns[k])))
    requires Waiting(db.txns[j]) ==> key(Wanted(db.txns[j])) != key(Wanted(db.txns[k]))
    ensures |Later(db, j)| < |Later(db, k)| && Unfinished(db, j)
  {
    hide Inv, KeysInRuns, Before, Later;
    if Waiting(db.txns[j]) {
      BlockerWantsLater(first, db, key, k, j);
      LaterIsNested(db, k, j);
    } else {
      WaitsForNothing(db, k, j);
    }
    SmallerSet(Later(db, j), Later(db, k));
    HolderIsUnfinished(db, key, j, key(Wanted(db.txns[k])));
  }

  lemma WaitsForNothing(db: Database, k: nat, j: nat)
    requires k in db.txns && j in db.txns && Waiting(db.txns[k]) && !Waiting(db.txns[j])
    ensures Later(db, j) < Later(db, k)
  {
    hide Before;
    assert j in Later(db, k) && Later(db, j) == {};
  }

  lemma HolderIsUnfinished(db: Database, key: StreamId -> int, j: nat, id: int)
    requires j in db.txns && HoldsKey(db.txns[j], key, id)
    ensures Unfinished(db, j)
  {
  }

  lemma BlockerWantsLater(first: Store, db: Database, key: StreamId -> int, k: nat, j: nat)
    requires Inv(first, db, key) && KeysInRuns(key) && k in db.txns && j in db.txns
    requires Waiting(db.txns[k]) && Waiting(db.txns[j])
    requires HoldsKey(db.txns[j], key, key(Wanted(db.txns[k])))
    requires key(Wanted(db.txns[j])) != key(Wanted(db.txns[k]))
    ensures Before(Wanted(db.txns[k]), Wanted(db.txns[j]))
  {
    hide Exclusive, RunAtomically, Before;
    assert TxnInv(db.store, db.txns[j]);
    var t, u := db.txns[k], db.txns[j];
    var held :| held in Locked(u) && key(held) == key(Wanted(t));
    var i :| 0 <= i < u.phase.taken && u.order[i] == held;
    assert Before(held, Wanted(u));
    BeforeTotal(Wanted(t), Wanted(u));
  }

  lemma LaterIsNested(db: Database, k: nat, j: nat)
    requires k in db.txns && j in db.txns && Waiting(db.txns[k]) && Waiting(db.txns[j])
    requires Before(Wanted(db.txns[k]), Wanted(db.txns[j]))
    ensures Later(db, j) < Later(db, k)
  {
    hide Before;
    assert j in Later(db, k);
    forall x | x in Later(db, j) ensures x in Later(db, k) {
      if Waiting(db.txns[x]) { BeforeTransitive(Wanted(db.txns[k]), Wanted(db.txns[j]), Wanted(db.txns[x])); }
    }
    BeforeIrreflexive(Wanted(db.txns[j]));
  }

  // ------------------------------------------------------------- a collision

  function Batch(written: StreamId, other: StreamId, p: Payload): StreamWrites {
    StreamWrites([Event(written, p)], map[written := 0, other := 0])
  }

  lemma BatchIsWellFormed(low: StreamId, high: StreamId, p: Payload)
    requires Before(low, high)
    ensures WellFormedBatch(Batch(low, high, p), [low, high])
  {
    assert Elements([low, high]) == {low, high};
  }

  lemma PossibleOn(first: Database, run: Run, key: StreamId -> int, db: Database, a: Action)
    requires Possible(first, run, key) && EndOf(first, run) == db && Enabled(db, a, key)
    ensures Possible(first, Do(run, a), key) && EndOf(first, Do(run, a)) == Perform(db, a)
  {
    hide Enabled, Perform;
  }

  lemma NothingIsPossible(first: Database, key: StreamId -> int)
    ensures Possible(first, Nothing, key) && EndOf(first, Nothing) == first
  {
  }

  /** Two transactions that take the keys x, y and y, x through streams a < b < c. */
  lemma CollisionDeadlocks(key: StreamId -> int, a: StreamId, b: StreamId, c: StreamId, p: Payload)
    requires Before(a, b) && Before(b, c) && key(a) == key(c) && key(b) != key(a)
    ensures !DeadlockFree(key)
  {
    hide Possible, EndOf, CanAdvance, Before;
    var first := Database(map[], map[], []);
    var begun := Do(Do(Nothing, Begin(0, Batch(a, b, p), [a, b])), Begin(1, Batch(b, c, p), [b, c]));
    var run := Do(Do(begun, Lock(0)), Lock(1));
    var t0, t1 := Txn(Batch(a, b, p), [a, b], Locking(0)), Txn(Batch(b, c, p), [b, c], Locking(0));
    BothBegin(key, a, b, c, p);
    LocksAreTaken(first, begun, key, t0, t1);
    var db := EndOf(first, run);
    assert Unfinished(db, 0);
    forall j ensures !CanAdvance(db, j, key) {
      CollisionIsStuck(db, key, t0, t1, j);
    }
  }

  lemma BothBegin(key: StreamId -> int, a: StreamId, b: StreamId, c: StreamId, p: Payload)
    requires Before(a, b) && Before(b, c)
    ensures var first := Database(map[], map[], []);
            var begun := Do(Do(Nothing, Begin(0, Batch(a, b, p), [a, b])), Begin(1, Batch(b, c, p), [b, c]));
            var t0, t1 := Txn(Batch(a, b, p), [a, b], Locking(0)), Txn(Batch(b, c, p), [b, c], Locking(0));
            Possible(first, begun, key) && EndOf(first, begun) == first.(txns := map[0 := t0, 1 := t1])
  {
    hide Possible, EndOf, WellFormedBatch, Before;
    var first := Database(map[], map[], []);
    BatchIsWellFormed(a, b, p);
    BatchIsWellFormed(b, c, p);
    NothingIsPossible(first, key);
    PossibleOn(first, Nothing, key, first, Begin(0, Batch(a, b, p), [a, b]));
    var one := first.(txns := map[0 := Txn(Batch(a, b, p), [a, b], Locking(0))]);
    PossibleOn(first, Do(Nothing, Begin(0, Batch(a, b, p), [a, b])), key, one, Begin(1, Batch(b, c, p), [b, c]));
  }

  lemma LocksAreTaken(first: Database, begun: Run, key: StreamId -> int, t0: Txn, t1: Txn)
    requires Possible(first, begun, key) && EndOf(first, begun) == first.(txns := map[0 := t0, 1 := t1])
    requires t0.phase == t1.phase == Locking(0) && |t0.order| == |t1.order| == 2 && key(t0.order[0]) != key(t1.order[0])
    ensures var run := Do(Do(begun, Lock(0)), Lock(1));
            && Possible(first, run, key)
            && EndOf(first, run) == first.(txns := map[0 := t0.(phase := Locking(1)), 1 := t1.(phase := Locking(1))])
  {
    hide Possible, EndOf, Enabled, Perform;
    var none, one := first.(txns := map[0 := t0, 1 := t1]), first.(txns := map[0 := t0.(phase := Locking(1)), 1 := t1]);
    FirstLock(none, key, t0, t1);
    PossibleOn(first, begun, key, none, Lock(0));
    SecondLock(one, key, t0, t1);
    PossibleOn(first, Do(begun, Lock(0)), key, one, Lock(1));
  }

  lemma FirstLock(db: Database, key: StreamId -> int, t0: Txn, t1: Txn)
    requires db.txns == map[0 := t0, 1 := t1] && t0.phase == t1.phase == Locking(0) && |t0.order| == |t1.order| == 2
    ensures Enabled(db, Lock(0), key)
              && Perform(db, Lock(0)) == db.(txns := map[0 := t0.(phase := Locking(1)), 1 := t1])
  {
  }

  lemma SecondLock(db: Database, key: StreamId -> int, t0: Txn, t1: Txn)
    requires db.txns == map[0 := t0.(phase := Locking(1)), 1 := t1] && t0.phase == t1.phase == Locking(0)
    requires |t0.order| == |t1.order| == 2 && key(t0.order[0]) != key(t1.order[0])
    ensures Enabled(db, Lock(1), key)
    ensures Perform(db, Lock(1)) == db.(txns := map[0 := t0.(phase := Locking(1)), 1 := t1.(phase := Locking(1))])
  {
  }

  lemma CollisionIsStuck(db: Database, key: StreamId -> int, t0: Txn, t1: Txn, j: nat)
    requires |t0.order| == |t1.order| == 2
    requires key(t0.order[0]) == key(t1.order[1]) && key(t0.order[1]) == key(t1.order[0])
    requires db.txns == map[0 := t0.(phase := Locking(1)), 1 := t1.(phase := Locking(1))]
    ensures !CanAdvance(db, j, key)
  {
    assert t0.order[0] in Locked(db.txns[0]) && t1.order[0] in Locked(db.txns[1]);
    assert HoldsKey(db.txns[0], key, key(t0.order[0])) && HoldsKey(db.txns[1], key, key(t1.order[0]));
  }
}
