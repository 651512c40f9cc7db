/** The history of a file store: immutable transactions that name their parents, united by
    plain set union, and the canonical order that every replica computes from them. */
module TransactionGraph {
  import opened Streams
  import opened Sorting

  type Uuid = nat

  datatype FileEvent = FileEvent(id: Uuid, stream: StreamId, version: nat, payload: Payload)

  /** One transaction file.  `bases` is the version of every registered stream, read or written. */
  datatype Transaction = Transaction(
    replica: Uuid,
    parents: seq<Uuid>,
    createdAt: nat,
    bases: map<StreamId, nat>,
    events: seq<FileEvent>)

  type Files = map<Uuid, Transaction>

  /** Parents were created before their children; `rank` is any order that witnesses it. */
  ghost predicate Ranked(files: Files, rank: Uuid -> nat) {
    forall id, p :: id in files && p in files[id].parents ==> rank(p) < rank(id)
  }

  /** One file set holds everything another does; files are immutable. */
  ghost predicate Includes(g: Files, f: Files) {
    forall id :: id in f ==> id in g && g[id] == f[id]
  }

  // ------------------------------------------------------------- depth

  /** The longest chain of present ancestors below a transaction. */
  ghost function Depth(files: Files, rank: Uuid -> nat, id: Uuid): nat
    requires Ranked(files, rank)
    decreases rank(id), 1, 0
  {
    if id in files then Best(files, rank, id, |files[id].parents|) else 0
  }

  ghost function Best(files: Files, rank: Uuid -> nat, id: Uuid, n: nat): nat
    requires Ranked(files, rank) && id in files && n <= |files[id].parents|
    decreases rank(id), 0, n
  {
    if n == 0 then 0
    else
      var p, best := files[id].parents[n - 1], Best(files, rank, id, n - 1);
      if p in files && Depth(files, rank, p) + 1 > best then Depth(files, rank, p) + 1 else best
  }

  lemma {:induction false} BestIsMax(files: Files, rank: Uuid -> nat, id: Uuid, n: nat, i: nat)
    requires Ranked(files, rank) && id in files && i < n <= |files[id].parents|
    ensures files[id].parents[i] in files ==> Depth(files, rank, files[id].parents[i]) < Best(files, rank, id, n)
    decreases n
  {
    if i < n - 1 { BestIsMax(files, rank, id, n - 1, i); }
  }

  lemma {:induction false} BestIsAttained(files: Files, rank: Uuid -> nat, id: Uuid, n: nat)
    requires Ranked(files, rank) && id in files && n <= |files[id].parents|
    ensures Best(files, rank, id, n) == 0
         || exists i :: 0 <= i < n && files[id].parents[i] in files
                        && Depth(files, rank, files[id].parents[i]) + 1 == Best(files, rank, id, n)
    decreases n
  {
    if n > 0 { BestIsAttained(files, rank, id, n - 1); }
  }

  lemma ParentIsShallower(files: Files, rank: Uuid -> nat, p: Uuid, id: Uuid)
    requires Ranked(files, rank) && id in files && p in files && p in files[id].parents
    ensures Depth(files, rank, p) < Depth(files, rank, id)
  {
    var i :| 0 <= i < |files[id].parents| && files[id].parents[i] == p;
    BestIsMax(files, rank, id, |files[id].parents|, i);
  }

  /** A chain of present transactions, each a parent of the next. */
  ghost predicate IsChain(files: Files, chain: seq<Uuid>) {
    && chain != []
    && (forall i :: 0 <= i < |chain| ==> chain[i] in files)
    && (forall i :: 0 < i < |chain| ==> chain[i - 1] in files[chain[i]].parents)
  }

  lemma {:induction false} ChainBoundsDepth(files: Files, rank: Uuid -> nat, chain: seq<Uuid>)
    requires Ranked(files, rank) && IsChain(files, chain)
    ensures |chain| - 1 <= Depth(files, rank, chain[|chain| - 1])
  {
    if |chain| > 1 {
      var before := chain[..|chain| - 1];
      ChainBoundsDepth(files, rank, before);
      ParentIsShallower(files, rank, before[|before| - 1], chain[|chain| - 1]);
    }
  }

  lemma {:induction false} DepthIsAChain(files: Files, rank: Uuid -> nat, id: Uuid) returns (chain: seq<Uuid>)
    requires Ranked(files, rank) && id in files
    ensures IsChain(files, chain) && chain[|chain| - 1] == id && |chain| == Depth(files, rank, id) + 1
    decreases rank(id)
  {
    BestIsAttained(files, rank, id, |files[id].parents|);
    if Depth(files, rank, id) == 0 {
      chain := [id];
    } else {
      var i :| 0 <= i < |files[id].parents| && files[id].parents[i] in files
               && Depth(files, rank, files[id].parents[i]) + 1 == Depth(files, rank, id);
      var before := DepthIsAChain(files, rank, files[id].parents[i]);
      ChainSnoc(files, before, id);
      chain := before + [id];
    }
  }

  lemma ChainSnoc(files: Files, chain: seq<Uuid>, id: Uuid)
    requires IsChain(files, chain) && id in files && chain[|chain| - 1] in files[id].parents
    ensures IsChain(files, chain + [id])
  {
  }

  /** The memoised depth is the length of the longest chain of present ancestors. */
  lemma DepthIsLongestChain(files: Files, rank: Uuid -> nat, id: Uuid)
    requires Ranked(files, rank) && id in files
    ensures exists chain :: IsChain(files, chain) && chain[|chain| - 1] == id && |chain| == Depth(files, rank, id) + 1
    ensures forall chain :: IsChain(files, chain) && chain[|chain| - 1] == id ==> |chain| <= Depth(files, rank, id) + 1
  {
    var longest := DepthIsAChain(files, rank, id);
    forall chain | IsChain(files, chain) && chain[|chain| - 1] == id ensures |chain| <= Depth(files, rank, id) + 1 {
      ChainBoundsDepth(files, rank, chain);
    }
  }

  /** Adding files that nothing present refers to leaves every depth as it was. */
  lemma {:induction false} DepthUnchanged(f: Files, g: Files, rank: Uuid -> nat, id: Uuid)
    requires Ranked(f, rank) && Ranked(g, rank) && Includes(g, f) && id in f
    requires forall x, p :: x in f && p in f[x].parents && p in g ==> p in f
    ensures Depth(g, rank, id) == Depth(f, rank, id)
    decreases rank(id), |f[id].parents| + 1
  {
    BestUnchanged(f, g, rank, id, |f[id].parents|);
  }

  lemma {:induction false} BestUnchanged(f: Files, g: Files, rank: Uuid -> nat, id: Uuid, n: nat)
    requires Ranked(f, rank) && Ranked(g, rank) && Includes(g, f) && id in f && n <= |f[id].parents|
    requires forall x, p :: x in f && p in f[x].parents && p in g ==> p in f
    ensures Best(g, rank, id, n) == Best(f, rank, id, n)
    decreases rank(id), n
  {
    if n > 0 {
      BestUnchanged(f, g, rank, id, n - 1);
      var p := f[id].parents[n - 1];
      if p in f { DepthUnchanged(f, g, rank, p); }
    }
  }

  /** `memo` holds only true depths. */
  ghost predicate Memo(files: Files, rank: Uuid -> nat, memo: map<Uuid, nat>)
    requires Ranked(files, rank)
  {
    forall id :: id in memo ==> memo[id] == Depth(files, rank, id)
  }

  method TransactionDepth(id: Uuid, files: Files, memo: map<Uuid, nat>, ghost rank: Uuid -> nat)
    returns (depth: nat, memo': map<Uuid, nat>)
    requires Ranked(files, rank) && Memo(files, rank, memo)
    ensures depth == Depth(files, rank, id)
    ensures Memo(files, rank, memo') && memo.Keys <= memo'.Keys
    decreases rank(id)
  {
    memo' := memo;
    if id in memo { return memo[id], memo; }
    depth := 0;
    if id in files {
      var parents := files[id].parents;
      var i := 0;
      while i < |parents|
        invariant 0 <= i <= |parents| && depth == Best(files, rank, id, i)
        invariant Memo(files, rank, memo') && memo.Keys <= memo'.Keys
      {
        if parents[i] in files {
          var d;
          d, memo' := TransactionDepth(parents[i], files, memo', rank);
          depth := if d + 1 > depth then d + 1 else depth;
        }
        i := i + 1;
      }
    }
    memo' := memo'[id := depth];
  }

  // ------------------------------------------------------------- the canonical order

  datatype Key = Key(depth: nat, createdAt: nat, replica: Uuid, id: Uuid)

  predicate KeyLess(a: Key, b: Key) {
    || a.depth < b.depth
    || (a.depth == b.depth && a.createdAt < b.createdAt)
    || (a.depth == b.depth && a.createdAt == b.createdAt && a.replica < b.replica)
    || (a.depth == b.depth && a.createdAt == b.createdAt && a.replica == b.replica && a.id < b.id)
  }

  ghost function KeyOf(files: Files, rank: Uuid -> nat, id: Uuid): Key
    requires Ranked(files, rank) && id in files
  {
    Key(Depth(files, rank, id), files[id].createdAt, files[id].replica, id)
  }

  ghost predicate InOrder(files: Files, rank: Uuid -> nat, order: seq<Uuid>)
    requires Ranked(files, rank)
  {
    && (forall i :: 0 <= i < |order| ==> order[i] in files)
    && (forall i, j :: 0 <= i < j < |order| ==> KeyLess(KeyOf(files, rank, order[i]), KeyOf(files, rank, order[j])))
  }

  /** Every transaction once, sorted by depth, then by the recorded tie-breakers. */
  ghost predicate IsCanonical(files: Files, rank: Uuid -> nat, order: seq<Uuid>)
    requires Ranked(files, rank)
  {
    InOrder(files, rank, order) && Elements(order) == files.Keys
  }

  /** Earlier means less deep, or as deep and created earlier, or then of a smaller replica, or
      then of a smaller id. */
  lemma OrderBreaksTies(files: Files, rank: Uuid -> nat, order: seq<Uuid>, i: nat, j: nat)
    requires Ranked(files, rank) && IsCanonical(files, rank, order) && i < j < |order|
    ensures var (a, b) := (order[i], order[j]);
            && a in files && b in files
            && Depth(files, rank, a) <= Depth(files, rank, b)
            && (Depth(files, rank, a) == Depth(files, rank, b) ==>
                  && files[a].createdAt <= files[b].createdAt
                  && (files[a].createdAt == files[b].createdAt ==>
                        && files[a].replica <= files[b].replica
                        && (files[a].replica == files[b].replica ==> a < b)))
  {
    hide Depth;
    assert KeyLess(KeyOf(files, rank, order[i]), KeyOf(files, rank, order[j]));
  }

  /** Convergence: replicas that hold the same files compute the same order. */
  lemma {:induction false} CanonicalIsUnique(files: Files, rank: Uuid -> nat, a: seq<Uuid>, b: seq<Uuid>)
    requires Ranked(files, rank) && InOrder(files, rank, a) && InOrder(files, rank, b) && Elements(a) == Elements(b)
    ensures a == b
    decreases |a|
  {
    assert a != [] ==> a[0] in Elements(a);
    assert b != [] ==> b[0] in Elements(b);
    if a != [] && b != [] {
      var x, y := a[|a| - 1], b[|b| - 1];
      LastIsGreatest(files, rank, a, y);
      LastIsGreatest(files, rank, b, x);
      assert x in Elements(a) && y in Elements(b);
      ButLast(files, rank, a);
      ButLast(files, rank, b);
      CanonicalIsUnique(files, rank, a[..|a| - 1], b[..|b| - 1]);
      assert a == a[..|a| - 1] + [x] && b == b[..|b| - 1] + [y];
    }
  }

  lemma LastIsGreatest(files: Files, rank: Uuid -> nat, a: seq<Uuid>, y: Uuid)
    requires Ranked(files, rank) && InOrder(files, rank, a) && a != []
    ensures y in Elements(a) ==> y == a[|a| - 1] || KeyLess(KeyOf(files, rank, y), KeyOf(files, rank, a[|a| - 1]))
  {
    if y in Elements(a) {
      var i :| 0 <= i < |a| && a[i] == y;
    }
  }

  lemma ButLast(files: Files, rank: Uuid -> nat, a: seq<Uuid>)
    requires Ranked(files, rank) && InOrder(files, rank, a) && a != []
    ensures InOrder(files, rank, a[..|a| - 1])
    ensures Elements(a[..|a| - 1]) == Elements(a) - {a[|a| - 1]}
  {
    var last := a[|a| - 1];
    forall x | x in Elements(a) - {last} ensures x in a[..|a| - 1] {
      var i :| 0 <= i < |a| && a[i] == x;
      assert a[..|a| - 1][i] == x;
    }
    forall x | x in a[..|a| - 1] ensures x != last && x in a {
      var i :| 0 <= i < |a| - 1 && a[..|a| - 1][i] == x;
      assert a[i] == x;
    }
  }

  /** Every present parent precedes its child. */
  lemma ParentsComeFirst(files: Files, rank: Uuid -> nat, order: seq<Uuid>, i: nat, j: nat)
    requires Ranked(files, rank) && IsCanonical(files, rank, order)
    requires i < |order| && j < |order| && order[i] in files[order[j]].parents
    ensures i < j
  {
    ParentIsShallower(files, rank, order[i], order[j]);
    assert j < i ==> KeyLess(KeyOf(files, rank, order[j]), KeyOf(files, rank, order[i]));
  }

  method Linearize(files: Files, ghost rank: Uuid -> nat) returns (order: seq<Uuid>)
    requires Ranked(files, rank)
    ensures IsCanonical(files, rank, order)
  {
    var memo: map<Uuid, nat> := map[];
    var keyed: seq<Key> := [];
    var rest := files.Keys;
    while rest != {}
      invariant rest <= files.Keys && Memo(files, rank, memo) && SortedKeys(files, rank, keyed)
      invariant (set k | k in keyed :: k.id) == files.Keys - rest
      decreases rest
    {
      var id :| id in rest;
      var depth;
      depth, memo := TransactionDepth(id, files, memo, rank);
      ghost var before := keyed;
      keyed := InsertKey(files, rank, keyed, Key(depth, files[id].createdAt, files[id].replica, id));
      rest := rest - {id};
      KeyIds(before, keyed, id);
    }
    order := seq(|keyed|, i requires 0 <= i < |keyed| => keyed[i].id);
    SortedIsCanonical(files, rank, keyed, order);
  }

  ghost predicate SortedKeys(files: Files, rank: Uuid -> nat, keyed: seq<Key>)
    requires Ranked(files, rank)
  {
    && (forall k :: k in keyed ==> k.id in files && k == KeyOf(files, rank, k.id))
    && (forall i, j :: 0 <= i < j < |keyed| ==> KeyLess(keyed[i], keyed[j]))
  }

  lemma KeyIds(before: seq<Key>, after: seq<Key>, id: Uuid)
    requires exists k: Key :: k.id == id && Elements(after) == Elements(before) + {k}
    ensures (set k | k in after :: k.id) == (set k | k in before :: k.id) + {id}
  {
    var n: Key :| n.id == id && Elements(after) == Elements(before) + {n};
    assert n in Elements(after);
    forall k | k in before ensures k in after {
      assert k in Elements(after);
    }
    forall k | k in after ensures k == n || k in before {
      assert k in Elements(after);
    }
  }

  lemma SortedIsCanonical(files: Files, rank: Uuid -> nat, keyed: seq<Key>, order: seq<Uuid>)
    requires Ranked(files, rank) && SortedKeys(files, rank, keyed) && |order| == |keyed|
    requires forall i :: 0 <= i < |keyed| ==> order[i] == keyed[i].id
    requires (set k | k in keyed :: k.id) == files.Keys
    ensures IsCanonical(files, rank, order)
  {
    forall i | 0 <= i < |order| ensures order[i] in files && KeyOf(files, rank, order[i]) == keyed[i] {
      assert keyed[i] in keyed;
    }
    forall id | id in files ensures id in order {
      var k :| k in keyed && k.id == id;
      var i :| 0 <= i < |keyed| && keyed[i] == k;
      assert order[i] == id;
    }
  }

  /** The sort, one key at a time. */
  method InsertKey(files: Files, ghost rank: Uuid -> nat, keyed: seq<Key>, key: Key) returns (r: seq<Key>)
    requires Ranked(files, rank) && SortedKeys(files, rank, keyed)
    requires key.id in files && key == KeyOf(files, rank, key.id) && key !in keyed
    ensures SortedKeys(files, rank, r) && Elements(r) == Elements(keyed) + {key}
  {
    var i := 0;
    while i < |keyed| && KeyLess(keyed[i], key)
      invariant 0 <= i <= |keyed| && forall k :: 0 <= k < i ==> KeyLess(keyed[k], key)
    {
      i := i + 1;
    }
    r := keyed[..i] + [key] + keyed[i..];
    assert i < |keyed| ==> keyed[i] in keyed && KeyLess(key, keyed[i]);
    InsertedSorted(files, rank, keyed, i, key, r);
  }

  lemma InsertedSorted(files: Files, rank: Uuid -> nat, keyed: seq<Key>, i: nat, key: Key, r: seq<Key>)
    requires Ranked(files, rank) && SortedKeys(files, rank, keyed)
    requires key.id in files && key == KeyOf(files, rank, key.id)
    requires i <= |keyed| && r == keyed[..i] + [key] + keyed[i..]
    requires forall k :: 0 <= k < i ==> KeyLess(keyed[k], key)
    requires i < |keyed| ==> KeyLess(key, keyed[i])
    ensures SortedKeys(files, rank, r) && Elements(r) == Elements(keyed) + {key}
  {
    hide KeyOf, KeyLess;
    InsertedElements(keyed, i, key, r);
    assert forall k :: k in r <==> k in Elements(r);
    forall k | i <= k < |keyed| ensures KeyLess(key, keyed[k]) {
      if k > i { KeyLessTransitive(key, keyed[i], keyed[k]); }
    }
    forall a, b | 0 <= a < b < |r| ensures KeyLess(r[a], r[b]) {
      InsertedAt(keyed, i, key, r, a);
      InsertedAt(keyed, i, key, r, b);
    }
  }

  lemma KeyLessTransitive(a: Key, b: Key, c: Key)
    requires KeyLess(a, b) && KeyLess(b, c)
    ensures KeyLess(a, c)
  {
  }

  // ------------------------------------------------------------- tips

  /** No other transaction lists it as a parent. */
  ghost predicate IsTip(files: Files, id: Uuid) {
    id in files && forall c :: c in files ==> id !in files[c].parents
  }

  ghost function Tips(files: Files): set<Uuid> {
    set id | id in files && IsTip(files, id)
  }

  function Itself(id: Uuid): nat {
    id
  }

  method ComputeTips(files: Files) returns (tips: seq<Uuid>)
    ensures SortedBy(tips, Itself) && Elements(tips) == Tips(files)
  {
    var referenced: set<Uuid> := {};
    var rest := files.Keys;
    while rest != {}
      invariant rest <= files.Keys
      invariant forall p :: p in referenced <==> exists c :: c in files && c !in rest && p in files[c].parents
      decreases rest
    {
      var c :| c in rest;
      referenced, rest := referenced + Elements(files[c].parents), rest - {c};
    }
    tips := [];
    rest := files.Keys;
    while rest != {}
      invariant rest <= files.Keys && SortedBy(tips, Itself)
      invariant Elements(tips) == set id | id in files && id !in rest && id !in referenced
      decreases rest
    {
      var id :| id in rest;
      rest := rest - {id};
      if id !in referenced {
        assert forall y :: y in tips ==> y in Elements(tips);
        tips := InsertBy(tips, id, Itself);
      }
    }
  }

  lemma {:induction false} Deepest(files: Files, rank: Uuid -> nat, s: set<Uuid>) returns (m: Uuid)
    requires Ranked(files, rank) && s != {}
    ensures m in s && forall x :: x in s ==> Depth(files, rank, x) <= Depth(files, rank, m)
    decreases |s|
  {
    m :| m in s;
    if s != {m} {
      var n := Deepest(files, rank, s - {m});
      assert forall x :: x in s ==> x == m || x in s - {m};
      if Depth(files, rank, m) < Depth(files, rank, n) { m := n; }
    }
  }

  /** Some tip is at least as deep as everything else. */
  lemma DeepestTip(files: Files, rank: Uuid -> nat) returns (m: Uuid)
    requires Ranked(files, rank) && files.Keys != {}
    ensures m in Tips(files) && forall x :: x in files ==> Depth(files, rank, x) <= Depth(files, rank, m)
  {
    m := Deepest(files, rank, files.Keys);
    forall c | c in files ensures m !in files[c].parents {
      if m in files[c].parents { ParentIsShallower(files, rank, m, c); }
    }
  }

  /** A new transaction, unknown to every present one, whose parents are all the tips. */
  ghost predicate IsNewHead(files: Files, rank: Uuid -> nat, id: Uuid, t: Transaction) {
    && Ranked(files, rank) && Ranked(files[id := t], rank)
    && id !in files
    && (forall c :: c in files ==> id !in files[c].parents)
    && Elements(t.parents) == Tips(files)
  }

  /** A child of all tips is strictly deeper than every other transaction and is the only tip. */
  lemma NewHeadIsDeepest(files: Files, rank: Uuid -> nat, id: Uuid, t: Transaction)
    requires IsNewHead(files, rank, id, t)
    ensures forall x :: x in files ==>
              Depth(files[id := t], rank, x) == Depth(files, rank, x) < Depth(files[id := t], rank, id)
    ensures Tips(files[id := t]) == {id}
  {
    var g := files[id := t];
    forall x | x in files ensures Depth(g, rank, x) == Depth(files, rank, x) {
      DepthUnchanged(files, g, rank, x);
    }
    if files.Keys != {} {
      var m := DeepestTip(files, rank);
      assert m in Elements(t.parents);
      ParentIsShallower(g, rank, m, id);
    }
    assert id !in t.parents by {
      assert id in t.parents ==> id in Elements(t.parents);
    }
    forall x | x in files ensures !IsTip(g, x) {
      if x in Tips(files) {
        assert x in Elements(t.parents) && x in g[id].parents;
      } else {
        var c :| c in files && x in files[c].parents;
        assert x in g[c].parents;
      }
    }
  }

  /** So the canonical order grows at its end, with no need to sort again. */
  lemma NewHeadIsLast(files: Files, rank: Uuid -> nat, id: Uuid, t: Transaction, order: seq<Uuid>)
    requires IsNewHead(files, rank, id, t) && IsCanonical(files, rank, order)
    ensures IsCanonical(files[id := t], rank, order + [id])
  {
    var g := files[id := t];
    NewHeadIsDeepest(files, rank, id, t);
    assert Elements(order + [id]) == Elements(order) + {id};
    forall i | 0 <= i < |order| ensures KeyOf(g, rank, order[i]) == KeyOf(files, rank, order[i]) {
    }
  }
}
