/** Divergence between replicas: reachability, fork detection, and the histories that appends
    and unions produce. */
module Forks {
  import opened Streams
  import opened Sorting
  import opened StringOrder
  import opened TransactionGraph

  // ------------------------------------------------------------- reachability

  /** `a` is reachable from `d` by at least one parent link; `a` itself may be absent. */
  ghost predicate Ancestor(files: Files, rank: Uuid -> nat, a: Uuid, d: Uuid)
    requires Ranked(files, rank)
    decreases rank(d)
  {
    d in files && exists p :: p in files[d].parents && (p == a || Ancestor(files, rank, a, p))
  }

  /** Everything a file set mentions. */
  function Mentioned(files: Files): set<Uuid> {
    files.Keys + set id, p | id in files && p in files[id].parents :: p
  }

  /** All parents of `x` have been seen, and none is `a`. */
  ghost predicate Finished(files: Files, a: Uuid, seen: set<Uuid>, x: Uuid) {
    x in files ==> forall p :: p in files[x].parents ==> p != a && p in seen
  }

  /** What was seen is finished, or waits. */
  ghost predicate Explored(files: Files, a: Uuid, d: Uuid, seen: set<Uuid>, waiting: set<Uuid>) {
    forall x :: x == d || x in seen ==> x in waiting || Finished(files, a, seen, x)
  }

  lemma {:induction false} ExploredExcludes(files: Files, rank: Uuid -> nat, a: Uuid, d: Uuid, seen: set<Uuid>, x: Uuid)
    requires Ranked(files, rank) && Explored(files, a, d, seen, {}) && (x == d || x in seen)
    ensures !Ancestor(files, rank, a, x)
    decreases rank(x)
  {
    assert Finished(files, a, seen, x);
    if x in files {
      forall p | p in files[x].parents ensures p != a && !Ancestor(files, rank, a, p) {
        ExploredExcludes(files, rank, a, d, seen, p);
      }
    }
  }

  lemma {:induction false} AncestorTransitive(files: Files, rank: Uuid -> nat, a: Uuid, b: Uuid, d: Uuid)
    requires Ranked(files, rank) && Ancestor(files, rank, a, b) && Ancestor(files, rank, b, d)
    ensures Ancestor(files, rank, a, d)
    decreases rank(d)
  {
    var p :| p in files[d].parents && (p == b || Ancestor(files, rank, b, p));
    if p != b { AncestorTransitive(files, rank, a, b, p); }
  }

  lemma {:induction false} AncestorIsOlder(files: Files, rank: Uuid -> nat, a: Uuid, d: Uuid)
    requires Ranked(files, rank) && Ancestor(files, rank, a, d)
    ensures rank(a) < rank(d)
    decreases rank(d)
  {
    var p :| p in files[d].parents && (p == a || Ancestor(files, rank, a, p));
    if p != a { AncestorIsOlder(files, rank, a, p); }
  }

  lemma {:induction false} AncestorGrown(f: Files, g: Files, rank: Uuid -> nat, a: Uuid, d: Uuid)
    requires Ranked(f, rank) && Ranked(g, rank) && Includes(g, f) && Ancestor(f, rank, a, d)
    ensures Ancestor(g, rank, a, d)
    decreases rank(d)
  {
    var p :| p in f[d].parents && (p == a || Ancestor(f, rank, a, p));
    if p != a { AncestorGrown(f, g, rank, a, p); }
    assert p in g[d].parents;
  }

  /** In a closed part of a history reachability is that of the whole. */
  lemma {:induction false} AncestorRestricted(f: Files, g: Files, rank: Uuid -> nat, a: Uuid, d: Uuid)
    requires Ranked(f, rank) && Ranked(g, rank) && Includes(g, f) && Ancestor(g, rank, a, d) && d in f
    requires forall x, p :: x in f && p in f[x].parents ==> p in f
    ensures Ancestor(f, rank, a, d)
    decreases rank(d)
  {
    var p :| p in g[d].parents && (p == a || Ancestor(g, rank, a, p));
    assert p in f[d].parents;
    if p != a { AncestorRestricted(f, g, rank, a, p); }
  }

  /** `x` is `d` or reachable from it. */
  ghost predicate Below(files: Files, rank: Uuid -> nat, x: Uuid, d: Uuid)
    requires Ranked(files, rank)
  {
    x == d || Ancestor(files, rank, x, d)
  }

  lemma ParentIsBelow(files: Files, rank: Uuid -> nat, p: Uuid, x: Uuid, d: Uuid)
    requires Ranked(files, rank) && x in files && p in files[x].parents && Below(files, rank, x, d)
    ensures Ancestor(files, rank, p, d) && p in Mentioned(files)
  {
    assert Ancestor(files, rank, p, x);
    if x != d { AncestorTransitive(files, rank, p, x, d); }
  }

  /** The state of the walk: what was seen or waits is below `d`; what is finished is explored. */
  ghost predicate Walking(files: Files, rank: Uuid -> nat, a: Uuid, d: Uuid, seen: set<Uuid>, waiting: set<Uuid>)
    requires Ranked(files, rank)
  {
    && seen <= Mentioned(files)
    && (forall x :: x in waiting || x in seen ==> Below(files, rank, x, d))
    && Explored(files, a, d, seen, waiting)
  }

  /** The walk over parent links with a stack and a seen set. */
  method IsAncestor(a: Uuid, d: Uuid, files: Files, ghost rank: Uuid -> nat) returns (r: bool)
    requires Ranked(files, rank)
    ensures r <==> Ancestor(files, rank, a, d)
  {
    var stack, seen: set<Uuid> := [d], {};
    while stack != []
      invariant Walking(files, rank, a, d, seen, Elements(stack))
      decreases |Mentioned(files) - seen|, |stack|
    {
      var found;
      found, stack, seen := WalkOne(a, d, files, stack, seen, rank);
      if found { return true; }
    }
    ExploredExcludes(files, rank, a, d, seen, d);
    return false;
  }

  method WalkOne(a: Uuid, d: Uuid, files: Files, stack: seq<Uuid>, seen: set<Uuid>, ghost rank: Uuid -> nat)
    returns (found: bool, stack': seq<Uuid>, seen': set<Uuid>)
    requires Ranked(files, rank) && stack != [] && Walking(files, rank, a, d, seen, Elements(stack))
    ensures found ==> Ancestor(files, rank, a, d)
    ensures !found ==> Walking(files, rank, a, d, seen', Elements(stack'))
    ensures !found ==> |Mentioned(files) - seen'| < |Mentioned(files) - seen| || (seen' == seen && |stack'| < |stack|)
  {
    var current := stack[|stack| - 1];
    var below := stack[..|stack| - 1];
    Popped(files, rank, a, d, seen, stack);
    if current !in files { return false, below, seen; }
    var added;
    found, stack', added := VisitParents(files, a, d, current, seen, below, rank);
    seen' := seen + added;
    if !found { PushedParents(files, rank, a, d, current, seen, Elements(below), added); }
  }

  /** The state with `current` taken off the stack and not looked at yet. */
  ghost predicate Popping(files: Files, rank: Uuid -> nat, a: Uuid, d: Uuid, seen: set<Uuid>, below: set<Uuid>,
                          current: Uuid)
    requires Ranked(files, rank)
  {
    && seen <= Mentioned(files) && Below(files, rank, current, d)
    && (forall x :: x in below || x in seen ==> Below(files, rank, x, d))
    && Explored(files, a, d, seen, below + {current})
  }

  lemma Popped(files: Files, rank: Uuid -> nat, a: Uuid, d: Uuid, seen: set<Uuid>, stack: seq<Uuid>)
    requires Ranked(files, rank) && stack != [] && Walking(files, rank, a, d, seen, Elements(stack))
    ensures Popping(files, rank, a, d, seen, Elements(stack[..|stack| - 1]), stack[|stack| - 1])
    ensures stack[|stack| - 1] !in files ==> Walking(files, rank, a, d, seen, Elements(stack[..|stack| - 1]))
  {
    assert stack == stack[..|stack| - 1] + [stack[|stack| - 1]];
    assert Elements(stack) == Elements(stack[..|stack| - 1]) + {stack[|stack| - 1]};
  }

  /** Pushes every parent not seen before, unless one of them is `a`. */
  method VisitParents(files: Files, a: Uuid, d: Uuid, current: Uuid, seen: set<Uuid>, below: seq<Uuid>,
                      ghost rank: Uuid -> nat)
    returns (found: bool, stack: seq<Uuid>, added: set<Uuid>)
    requires Ranked(files, rank) && current in files && Below(files, rank, current, d)
    ensures found ==> Ancestor(files, rank, a, d)
    ensures !found ==> forall p :: p in files[current].parents ==> p != a && p in seen + added
    ensures added !! seen && forall p :: p in added ==> p in Mentioned(files) && Ancestor(files, rank, p, d)
    ensures Elements(stack) == Elements(below) + added
    ensures added == {} ==> stack == below
  {
    hide Ranked, Mentioned, Ancestor, Below;
    var parents := files[current].parents;
    stack, added := below, {};
    var i := 0;
    while i < |parents|
      invariant 0 <= i <= |parents|
      invariant forall k :: 0 <= k < i ==> parents[k] != a && parents[k] in seen + added
      invariant added !! seen && forall p :: p in added ==> p in Mentioned(files) && Ancestor(files, rank, p, d)
      invariant Elements(stack) == Elements(below) + added
      invariant added == {} ==> stack == below
    {
      var p := parents[i];
      ParentIsBelow(files, rank, p, current, d);
      if p == a { return true, stack, added; }
      if p !in seen + added {
        assert Elements(stack + [p]) == Elements(stack) + {p};
        added, stack := added + {p}, stack + [p];
      }
      i := i + 1;
    }
    found := false;
  }

  lemma PushedParents(files: Files, rank: Uuid -> nat, a: Uuid, d: Uuid, current: Uuid, seen: set<Uuid>,
                      below: set<Uuid>, added: set<Uuid>)
    requires Ranked(files, rank) && current in files && Popping(files, rank, a, d, seen, below, current)
    requires forall p :: p in files[current].parents ==> p != a && p in seen + added
    requires added !! seen && forall p :: p in added ==> p in Mentioned(files) && Ancestor(files, rank, p, d)
    ensures Walking(files, rank, a, d, seen + added, below + added)
    ensures |Mentioned(files) - (seen + added)| < |Mentioned(files) - seen| || added == {}
  {
    hide Ranked, Mentioned, Ancestor;
    forall x | x == d || x in seen + added ensures x in below + added || Finished(files, a, seen + added, x) {
      assert x in added || x == current || x in below || Finished(files, a, seen, x);
    }
    if added != {} {
      var p :| p in added;
      assert p in Mentioned(files) - seen && p !in Mentioned(files) - (seen + added);
      SmallerSet(Mentioned(files) - (seen + added), Mentioned(files) - seen);
    }
  }

  /** Some transaction descends from every head. */
  ghost predicate Resolved(files: Files, rank: Uuid -> nat, heads: set<Uuid>)
    requires Ranked(files, rank)
  {
    exists c :: c in files && forall h :: h in heads ==> Ancestor(files, rank, h, c)
  }

  method ForkIsResolved(heads: seq<Uuid>, files: Files, ghost rank: Uuid -> nat) returns (r: bool)
    requires Ranked(files, rank)
    ensures r <==> Resolved(files, rank, Elements(heads))
  {
    var rest := files.Keys;
    while rest != {}
      invariant rest <= files.Keys
      invariant forall c :: c in files && c !in rest ==> exists h :: h in heads && !Ancestor(files, rank, h, c)
      decreases rest
    {
      var c :| c in rest;
      rest := rest - {c};
      var i := 0;
      while i < |heads|
        invariant 0 <= i <= |heads| && forall k :: 0 <= k < i ==> Ancestor(files, rank, heads[k], c)
      {
        var reached := IsAncestor(heads[i], c, files, rank);
        if !reached { break; }
        i := i + 1;
      }
      if i == |heads| {
        assert forall h :: h in heads ==> Ancestor(files, rank, h, c);
        return true;
      }
      assert heads[i] in heads && !Ancestor(files, rank, heads[i], c);
    }
    assert forall h :: h in heads <==> h in Elements(heads);
    return false;
  }

  // ------------------------------------------------------------- one chain per replica

  ghost predicate Related(files: Files, rank: Uuid -> nat, x: Uuid, y: Uuid)
    requires Ranked(files, rank)
  {
    Ancestor(files, rank, x, y) || Ancestor(files, rank, y, x)
  }

  /** Every two transactions of one replica are in an ancestor relation. */
  ghost predicate OneChainPerReplica(files: Files, rank: Uuid -> nat)
    requires Ranked(files, rank)
  {
    forall x, y :: x in files && y in files && x != y && files[x].replica == files[y].replica ==>
        Related(files, rank, x, y)
  }

  datatype Collision = Collision(first: Uuid, second: Uuid, replica: Uuid)

  /** Looks for two concurrent transactions with the same replica id. */
  method CheckReplicaCollisions(files: Files, ghost rank: Uuid -> nat) returns (c: Option<Collision>)
    requires Ranked(files, rank)
    ensures c.None? <==> OneChainPerReplica(files, rank)
    ensures c.Some? ==>
              && c.value.first in files && c.value.second in files && c.value.first != c.value.second
              && files[c.value.first].replica == files[c.value.second].replica == c.value.replica
              && !Related(files, rank, c.value.first, c.value.second)
  {
    var rest := files.Keys;
    while rest != {}
      invariant rest <= files.Keys
      invariant forall x, y ::
                  x in files && x !in rest && y in files && x != y && files[x].replica == files[y].replica ==>
                    Related(files, rank, x, y)
      decreases rest
    {
      var x :| x in rest;
      rest := rest - {x};
      var others := rest;
      while others != {}
        invariant others <= rest
        invariant forall y :: y in rest && y !in others && files[x].replica == files[y].replica ==>
                    Related(files, rank, x, y)
        decreases others
      {
        var y :| y in others;
        others := others - {y};
        if files[y].replica == files[x].replica {
          var forwards := IsAncestor(x, y, files, rank);
          var backwards := IsAncestor(y, x, files, rank);
          if !forwards && !backwards {
            return Some(Collision(x, y, files[x].replica));
          }
        }
      }
    }
    return None;
  }

  /** Everything a replica wrote is one of the heads or below one. */
  ghost predicate JoinsOwn(files: Files, rank: Uuid -> nat, replica: Uuid, heads: seq<Uuid>)
    requires Ranked(files, rank)
  {
    forall x :: x in files && files[x].replica == replica ==> exists h :: h in heads && Below(files, rank, x, h)
  }

  /** When a merge transaction keeps its replica's history a chain: exactly when every earlier
      transaction of that replica is already below one of the heads it joins. */
  lemma MergeKeepsChainIff(files: Files, rank: Uuid -> nat, id: Uuid, t: Transaction)
    requires Ranked(files, rank) && Ranked(files[id := t], rank) && OneChainPerReplica(files, rank)
    requires id !in files && forall c :: c in files ==> id !in files[c].parents
    requires forall h :: h in t.parents ==> h in files
    ensures OneChainPerReplica(files[id := t], rank) <==> JoinsOwn(files, rank, t.replica, t.parents)
  {
    hide Ranked, Related, Below;
    var g := files[id := t];
    forall x, y | x in files && y in files ensures Related(g, rank, x, y) <==> Related(files, rank, x, y) {
      SameRelated(files, rank, id, t, x, y);
    }
    forall x | x in files
      ensures Related(g, rank, x, id) <==> exists h :: h in t.parents && Below(files, rank, x, h)
      ensures Related(g, rank, id, x) <==> exists h :: h in t.parents && Below(files, rank, x, h)
    {
      NewIsRelatedIff(files, rank, id, t, x);
    }
  }

  lemma SameRelated(files: Files, rank: Uuid -> nat, id: Uuid, t: Transaction, x: Uuid, y: Uuid)
    requires Ranked(files, rank) && Ranked(files[id := t], rank) && id !in files && x != id && y != id
    requires forall c :: c in files ==> id !in files[c].parents
    ensures Related(files[id := t], rank, x, y) <==> Related(files, rank, x, y)
  {
    hide Ranked, Ancestor;
    SameAncestors(files, rank, id, t, x, y);
    SameAncestors(files, rank, id, t, y, x);
  }

  lemma NewIsRelatedIff(files: Files, rank: Uuid -> nat, id: Uuid, t: Transaction, x: Uuid)
    requires Ranked(files, rank) && Ranked(files[id := t], rank) && id !in files && x in files
    requires forall c :: c in files ==> id !in files[c].parents
    requires forall h :: h in t.parents ==> h in files
    ensures Related(files[id := t], rank, x, id) <==> exists h :: h in t.parents && Below(files, rank, x, h)
    ensures Related(files[id := t], rank, id, x) <==> exists h :: h in t.parents && Below(files, rank, x, h)
  {
    hide Ranked, Ancestor;
    NewIsNobodysAncestor(files, rank, id, t, x);
    NewAncestors(files, rank, id, t, x);
  }

  /** No later transaction relates what was unrelated. */
  lemma ChainStaysBroken(files: Files, rank: Uuid -> nat, id: Uuid, t: Transaction)
    requires Ranked(files, rank) && Ranked(files[id := t], rank) && !OneChainPerReplica(files, rank)
    requires id !in files && forall c :: c in files ==> id !in files[c].parents
    ensures !OneChainPerReplica(files[id := t], rank)
  {
    hide Ranked, Related;
    var x, y :| x in files && y in files && x != y && files[x].replica == files[y].replica
        && !Related(files, rank, x, y);
    SameRelated(files, rank, id, t, x, y);
    assert !Related(files[id := t], rank, x, y);
  }

  lemma {:induction false} NewIsNobodysAncestor(files: Files, rank: Uuid -> nat, id: Uuid, t: Transaction, x: Uuid)
    requires Ranked(files, rank) && Ranked(files[id := t], rank) && id !in files
    requires forall c :: c in files ==> id !in files[c].parents
    ensures x in files ==> !Ancestor(files[id := t], rank, id, x)
    decreases rank(x)
  {
    var g := files[id := t];
    if x in files {
      forall p | p in g[x].parents ensures p != id && !Ancestor(g, rank, id, p) {
        NewIsNobodysAncestor(files, rank, id, t, p);
      }
    }
  }

  lemma {:induction false} SameAncestors(files: Files, rank: Uuid -> nat, id: Uuid, t: Transaction, a: Uuid, d: Uuid)
    requires Ranked(files, rank) && Ranked(files[id := t], rank) && id !in files
    requires forall c :: c in files ==> id !in files[c].parents
    ensures d != id ==> (Ancestor(files[id := t], rank, a, d) <==> Ancestor(files, rank, a, d))
    decreases rank(d)
  {
    if d in files {
      forall p | p in files[d].parents
        ensures Ancestor(files[id := t], rank, a, p) <==> Ancestor(files, rank, a, p)
      {
        SameAncestors(files, rank, id, t, a, p);
      }
    }
  }

  lemma NewAncestors(files: Files, rank: Uuid -> nat, id: Uuid, t: Transaction, x: Uuid)
    requires Ranked(files, rank) && Ranked(files[id := t], rank) && id !in files
    requires forall c :: c in files ==> id !in files[c].parents
    requires forall h :: h in t.parents ==> h in files
    ensures Ancestor(files[id := t], rank, x, id) <==>
              exists h :: h in t.parents && (h == x || Ancestor(files, rank, x, h))
  {
    var g := files[id := t];
    forall h | h in t.parents ensures Ancestor(g, rank, x, h) <==> Ancestor(files, rank, x, h) {
      SameAncestors(files, rank, id, t, x, h);
    }
    assert g[id].parents == t.parents;
  }

  /** Resolving two forks in one pass writes two merge transactions, each below one fork's
      heads only: the replica then always fails its own identity check. */
  lemma TwoMergesCollide(files: Files, rank: Uuid -> nat, m1: Uuid, t1: Transaction, m2: Uuid, t2: Transaction)
    requires Ranked(files, rank) && Ranked(files[m1 := t1], rank) && Ranked(files[m1 := t1][m2 := t2], rank)
    requires m1 !in files && m2 !in files && m1 != m2 && t1.replica == t2.replica
    requires forall c :: c in files ==> m1 !in files[c].parents && m2 !in files[c].parents
    requires forall h :: h in t1.parents || h in t2.parents ==> h in files
    ensures !OneChainPerReplica(files[m1 := t1][m2 := t2], rank)
  {
    var f := files[m1 := t1];
    NewIsNobodysAncestor(f, rank, m2, t2, m1);
    NewAncestors(f, rank, m2, t2, m1);
    forall h | h in t2.parents ensures h != m1 && !Ancestor(f, rank, m1, h) {
      NewIsNobodysAncestor(files, rank, m1, t1, h);
    }
    assert !Related(f[m2 := t2], rank, m1, m2);
  }

  // ------------------------------------------------------------- fork detection

  /** A version that some transaction says it built a stream on. */
  datatype Claim = Claim(stream: StreamId, base: nat)

  predicate Claims(t: Transaction, c: Claim) {
    c.stream in t.bases && t.bases[c.stream] == c.base
  }

  function Claimants(files: Files, ids: set<Uuid>, c: Claim): set<Uuid> {
    set id | id in ids && id in files && Claims(files[id], c)
  }

  /** Two or more transactions claim the same base and nothing joins them. */
  ghost predicate ForkAt(files: Files, rank: Uuid -> nat, c: Claim)
    requires Ranked(files, rank)
  {
    |Claimants(files, files.Keys, c)| >= 2 && !Resolved(files, rank, Claimants(files, files.Keys, c))
  }

  datatype Fork = Fork(claim: Claim, transactions: seq<Uuid>)

  ghost predicate IsFork(files: Files, rank: Uuid -> nat, f: Fork)
    requires Ranked(files, rank)
  {
    && ForkAt(files, rank, f.claim)
    && SortedBy(f.transactions, Itself)
    && Elements(f.transactions) == Claimants(files, files.Keys, f.claim)
  }

  function GroupOf(groups: map<Claim, set<Uuid>>, c: Claim): set<Uuid> {
    if c in groups then groups[c] else {}
  }

  /** Groups the transactions by the (stream, base) they claim. */
  method GroupClaims(files: Files) returns (groups: map<Claim, set<Uuid>>)
    ensures forall c :: GroupOf(groups, c) == Claimants(files, files.Keys, c)
  {
    groups := map[];
    var rest := files.Keys;
    while rest != {}
      invariant rest <= files.Keys
      invariant forall c :: GroupOf(groups, c) == Claimants(files, files.Keys - rest, c)
      decreases rest
    {
      var id :| id in rest;
      ghost var done := files.Keys - rest;
      groups := AddClaims(files, id, groups, done);
      rest := rest - {id};
      assert files.Keys - rest == done + {id};
    }
    assert files.Keys - rest == files.Keys;
  }

  method AddClaims(files: Files, id: Uuid, groups: map<Claim, set<Uuid>>, ghost done: set<Uuid>)
    returns (groups': map<Claim, set<Uuid>>)
    requires id in files && id !in done
    requires forall c :: GroupOf(groups, c) == Claimants(files, done, c)
    ensures forall c :: GroupOf(groups', c) == Claimants(files, done + {id}, c)
  {
    groups' := groups;
    var bases := files[id].bases;
    var streams := bases.Keys;
    while streams != {}
      invariant streams <= bases.Keys
      invariant forall c: Claim :: GroupOf(groups', c) ==
                  Claimants(files, done, c) + (if Claims(files[id], c) && c.stream !in streams then {id} else {})
      decreases streams
    {
      var s :| s in streams;
      var claim := Claim(s, bases[s]);
      ghost var before := groups';
      groups' := groups'[claim := GroupOf(groups', claim) + {id}];
      streams := streams - {s};
      forall c: Claim
        ensures GroupOf(groups', c) ==
                Claimants(files, done, c) + (if Claims(files[id], c) && c.stream !in streams then {id} else {})
      {
        assert GroupOf(before, c)
              == Claimants(files, done, c) + (if Claims(files[id], c) && c.stream !in streams + {s} then {id} else {});
      }
    }
    forall c ensures GroupOf(groups', c) == Claimants(files, done + {id}, c) {
      assert Claimants(files, done + {id}, c)
            == Claimants(files, done, c) + (if Claims(files[id], c) then {id} else {});
    }
  }

  method SortIds(ids: set<Uuid>) returns (r: seq<Uuid>)
    ensures SortedBy(r, Itself) && Elements(r) == ids
  {
    r := [];
    var rest := ids;
    while rest != {}
      invariant rest <= ids && SortedBy(r, Itself) && Elements(r) == ids - rest
      decreases rest
    {
      var id :| id in rest;
      assert forall x :: x in r ==> x in Elements(r);
      r := InsertBy(r, id, Itself);
      rest := rest - {id};
    }
  }

  /** Reports every unresolved group of two or more claimants once, by stream and base, and
      nothing else; fails loudly when some replica's transactions are not one chain. */
  method DetectForks(files: Files, ghost rank: Uuid -> nat) returns (r: Result<seq<Fork>, Collision>)
    requires Ranked(files, rank)
    ensures r.Ok? <==> OneChainPerReplica(files, rank)
    ensures r.Ok? ==> forall f :: f in r.value ==> IsFork(files, rank, f)
    ensures r.Ok? ==> forall c :: ForkAt(files, rank, c) <==> c in ClaimsOf(r.value)
    ensures r.Ok? ==> Ascending(r.value) && DistinctClaims(r.value)
  {
    var collision := CheckReplicaCollisions(files, rank);
    if collision.Some? { return Err(collision.value); }
    var groups := GroupClaims(files);
    ghost var good := (f: Fork) => IsFork(files, rank, f);
    ghost var due := (c: Claim) => ForkAt(files, rank, c);
    var forks := CollectForks(files, groups, rank, good, due);
    AllReported(files, rank, good, due, forks, groups);
    AscendingIsDistinct(forks);
    return Ok(forks);
  }

  method CollectForks(files: Files, groups: map<Claim, set<Uuid>>, ghost rank: Uuid -> nat, ghost good: Fork -> bool,
                      ghost due: Claim -> bool)
    returns (forks: seq<Fork>)
    requires Ranked(files, rank)
    requires forall c :: GroupOf(groups, c) == Claimants(files, files.Keys, c)
    requires forall f :: good(f) == IsFork(files, rank, f)
    requires forall c :: due(c) == ForkAt(files, rank, c)
    ensures Reports(good, due, forks, groups.Keys) && Ascending(forks)
  {
    hide Ranked, IsFork, ForkAt, Claimants, Reports, Ascending, InClaimOrder;
    forks := [];
    NothingReported(good, due);
    var claims := SortClaims(groups.Keys);
    var i := 0;
    assert Elements(claims[..0]) == {};
    while i < |claims|
      invariant 0 <= i <= |claims| && Reports(good, due, forks, Elements(claims[..i])) && Ascending(forks)
    {
      var c := claims[i];
      assert c in Elements(claims) && claims[..i + 1] == claims[..i] + [c];
      assert groups[c] == GroupOf(groups, c);
      var found := ForkOf(files, c, groups[c], rank);
      assert due(c) == ForkAt(files, rank, c);
      ReportsOneMore(good, due, forks, Elements(claims[..i]), c, found);
      assert Elements(claims[..i]) + {c} == Elements(claims[..i + 1]);
      if found.Some? {
        AscendsOneMore(good, due, forks, claims, i, found.value);
        forks := forks + [found.value];
      }
      i := i + 1;
    }
    assert claims[..i] == claims;
  }

  // ------------------------------------------------------------- the order of the report

  /** By stream, then by base. */
  predicate ClaimBefore(a: Claim, b: Claim) {
    Before(a.stream, b.stream) || (a.stream == b.stream && a.base < b.base)
  }

  ghost predicate InClaimOrder(claims: seq<Claim>) {
    forall i, j :: 0 <= i < j < |claims| ==> ClaimBefore(claims[i], claims[j])
  }

  ghost predicate Ascending(forks: seq<Fork>) {
    forall i, j :: 0 <= i < j < |forks| ==> ClaimBefore(forks[i].claim, forks[j].claim)
  }

  ghost predicate DistinctClaims(forks: seq<Fork>) {
    forall i, j :: 0 <= i < j < |forks| ==> forks[i].claim != forks[j].claim
  }

  lemma AscendingIsDistinct(forks: seq<Fork>)
    requires Ascending(forks)
    ensures DistinctClaims(forks)
  {
    forall i, j | 0 <= i < j < |forks| ensures forks[i].claim != forks[j].claim {
      BeforeIrreflexive(forks[i].claim.stream);
    }
  }

  lemma ClaimBeforeTransitive(a: Claim, b: Claim, c: Claim)
    requires ClaimBefore(a, b) && ClaimBefore(b, c)
    ensures ClaimBefore(a, c)
  {
    if Before(a.stream, b.stream) && Before(b.stream, c.stream) { BeforeTransitive(a.stream, b.stream, c.stream); }
  }

  /** Where `c` belongs. */
  function ClaimRank(claims: seq<Claim>, c: Claim): (i: nat)
    ensures i <= |claims| && (forall k :: 0 <= k < i ==> ClaimBefore(claims[k], c))
    ensures i < |claims| ==> !ClaimBefore(claims[i], c)
  {
    if claims == [] || !ClaimBefore(claims[0], c) then 0 else 1 + ClaimRank(claims[1..], c)
  }

  lemma InsertedInClaimOrder(claims: seq<Claim>, i: nat, c: Claim)
    requires InClaimOrder(claims) && c !in claims && i <= |claims|
    requires forall k :: 0 <= k < i ==> ClaimBefore(claims[k], c)
    requires i < |claims| ==> !ClaimBefore(claims[i], c)
    ensures InClaimOrder(claims[..i] + [c] + claims[i..])
    ensures Elements(claims[..i] + [c] + claims[i..]) == Elements(claims) + {c}
  {
    hide Before;
    assert claims == claims[..i] + claims[i..];
    forall k | i <= k < |claims| ensures ClaimBefore(c, claims[k]) {
      BeforeTotal(claims[i].stream, c.stream);
      assert claims[i] in claims;
      if i < k { ClaimBeforeTransitive(c, claims[i], claims[k]); }
    }
  }

  method SortClaims(claims: set<Claim>) returns (order: seq<Claim>)
    ensures InClaimOrder(order) && Elements(order) == claims
  {
    order := [];
    var rest := claims;
    while rest != {}
      invariant rest <= claims && InClaimOrder(order) && Elements(order) == claims - rest
      decreases rest
    {
      var c :| c in rest;
      rest := rest - {c};
      assert forall y :: y in order ==> y in Elements(order);
      var i := ClaimRank(order, c);
      InsertedInClaimOrder(order, i, c);
      order := order[..i] + [c] + order[i..];
    }
  }

  /** The claims of the reported forks come before the one that is looked at now. */
  lemma AscendsOneMore(good: Fork -> bool, due: Claim -> bool, forks: seq<Fork>, claims: seq<Claim>, i: nat, f: Fork)
    requires InClaimOrder(claims) && i < |claims| && f.claim == claims[i]
    requires Ascending(forks) && Reports(good, due, forks, Elements(claims[..i]))
    ensures Ascending(forks + [f])
  {
    forall k | 0 <= k < |forks| ensures ClaimBefore(forks[k].claim, f.claim) {
      assert forks[k] in forks && forks[k].claim in claims[..i];
      var n :| 0 <= n < i && claims[..i][n] == forks[k].claim;
      assert claims[n] == forks[k].claim;
    }
  }

  // ------------------------------------------------------------- what is reported

  function ClaimsOf(forks: seq<Fork>): set<Claim> {
    set f | f in forks :: f.claim
  }

  /** The forks found among the claims in `done`; `good` and `due` say what a fork is. */
  ghost predicate Reports(good: Fork -> bool, due: Claim -> bool, forks: seq<Fork>, done: set<Claim>) {
    && (forall f :: f in forks ==> good(f) && f.claim in done)
    && (forall c :: c in done && due(c) ==> c in ClaimsOf(forks))
  }

  lemma NothingReported(good: Fork -> bool, due: Claim -> bool)
    ensures Reports(good, due, [], {}) && Ascending([])
  {
  }

  lemma ReportsOneMore(good: Fork -> bool, due: Claim -> bool, forks: seq<Fork>, done: set<Claim>, c: Claim,
                       found: Option<Fork>)
    requires Reports(good, due, forks, done)
    requires found.Some? <==> due(c)
    requires found.Some? ==> good(found.value) && found.value.claim == c
    ensures Reports(good, due, if found.Some? then forks + [found.value] else forks, done + {c})
  {
    if found.Some? { ClaimsSnoc(forks, found.value); }
  }

  lemma ClaimsSnoc(forks: seq<Fork>, f: Fork)
    ensures ClaimsOf(forks + [f]) == ClaimsOf(forks) + {f.claim}
    ensures forall g :: g in forks + [f] <==> g in forks || g == f
  {
    assert f in forks + [f];
    assert forall g :: g in forks ==> g in forks + [f];
  }

  lemma AllReported(files: Files, rank: Uuid -> nat, good: Fork -> bool, due: Claim -> bool, forks: seq<Fork>,
                    groups: map<Claim, set<Uuid>>)
    requires Ranked(files, rank) && Reports(good, due, forks, groups.Keys)
    requires forall f :: good(f) == IsFork(files, rank, f)
    requires forall c :: due(c) == ForkAt(files, rank, c)
    requires forall c :: GroupOf(groups, c) == Claimants(files, files.Keys, c)
    ensures forall f :: f in forks ==> IsFork(files, rank, f)
    ensures forall c :: ForkAt(files, rank, c) <==> c in ClaimsOf(forks)
  {
    forall f | f in forks ensures IsFork(files, rank, f) {
      assert good(f);
    }
    forall c ensures ForkAt(files, rank, c) <==> c in ClaimsOf(forks) {
      assert due(c) == ForkAt(files, rank, c);
      assert GroupOf(groups, c) == Claimants(files, files.Keys, c);
    }
  }

  method ForkOf(files: Files, c: Claim, candidates: set<Uuid>, ghost rank: Uuid -> nat) returns (f: Option<Fork>)
    requires Ranked(files, rank) && candidates == Claimants(files, files.Keys, c)
    ensures f.Some? <==> ForkAt(files, rank, c)
    ensures f.Some? ==> IsFork(files, rank, f.value) && f.value.claim == c
  {
    hide Ranked, Resolved, Claimants, SortedBy;
    if |candidates| < 2 { return None; }
    var sorted := SortIds(candidates);
    var resolved := ForkIsResolved(sorted, files, rank);
    return if resolved then None else Some(Fork(c, sorted));
  }

  /** A merge whose parents are a fork's heads resolves it in every larger history. */
  lemma ResolutionPersists(files: Files, g: Files, rank: Uuid -> nat, id: Uuid, heads: set<Uuid>)
    requires Ranked(files, rank) && Ranked(g, rank) && Includes(g, files)
    requires id in files && forall h :: h in heads ==> h in files[id].parents
    ensures Resolved(g, rank, heads)
  {
    forall h | h in heads ensures Ancestor(g, rank, h, id) {
      assert h in g[id].parents;
    }
  }

  /** A group with a tip in it is never resolved. */
  lemma TipIsUnresolved(files: Files, rank: Uuid -> nat, heads: set<Uuid>, tip: Uuid)
    requires Ranked(files, rank) && tip in heads && forall c :: c in files ==> tip !in files[c].parents
    ensures !Resolved(files, rank, heads)
  {
    forall c | c in files ensures !Ancestor(files, rank, tip, c) {
      TipHasNoDescendants(files, rank, tip, c);
    }
  }

  lemma {:induction false} TipHasNoDescendants(files: Files, rank: Uuid -> nat, tip: Uuid, c: Uuid)
    requires Ranked(files, rank) && forall x :: x in files ==> tip !in files[x].parents
    ensures !Ancestor(files, rank, tip, c)
    decreases rank(c)
  {
    if c in files {
      forall p | p in files[c].parents ensures p != tip && !Ancestor(files, rank, tip, p) {
        TipHasNoDescendants(files, rank, tip, p);
      }
    }
  }
}
