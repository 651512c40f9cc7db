/** Modeled fields and the mappings that produce them: the order in which a depth-first walk
    discovers the fields, and the cycles that it must not enter the wrong way. */
module ProvenanceGraph {
  import opened Streams
  import opened StringOrder

  datatype Source = Source(field: string, temporal: bool)

  datatype Recipe = Recipe(name: string, sources: seq<Source>)

  datatype Options = Options(allowAll: bool, allowed: set<string>)

  /** Fields with their root flag, recipes and assumption names by target. */
  datatype Graph = Graph(
    fields: map<string, bool>,
    mappings: map<string, seq<Recipe>>,
    assumptions: map<string, seq<string>>,
    options: Options)

  predicate IsRoot(g: Graph, f: string) {
    f in g.fields && g.fields[f]
  }

  predicate Allowed(o: Options, name: string) {
    o.allowAll || name in o.allowed
  }

  /** Every target that is listed has something listed under it. */
  ghost predicate Populated(g: Graph) {
    (forall t :: t in g.mappings ==> g.mappings[t] != []) && (forall t :: t in g.assumptions ==> g.assumptions[t] != [])
  }

  predicate HasNonTemporalSeed(g: Graph, f: string) {
    IsRoot(g, f)
    || (f in g.mappings
        && exists r :: r in g.mappings[f] && forall s :: s in r.sources ==> !s.temporal)
  }

  // ------------------------------------------------------------- provenance as an order

  /** A source that may be used given what has been established: an ordinary source is a known
      field established before; a temporal one is that, or has a seed of its own. */
  predicate SourceHolds(g: Graph, before: seq<string>, s: Source) {
    && s.field in g.fields
    && (s.field in before || (s.temporal && HasNonTemporalSeed(g, s.field)))
  }

  ghost predicate RecipeHolds(g: Graph, before: seq<string>, r: Recipe) {
    forall s :: s in r.sources ==> SourceHolds(g, before, s)
  }

  ghost predicate RecipesHold(g: Graph, before: seq<string>, f: string) {
    f in g.mappings && forall i :: 0 <= i < |g.mappings[f]| ==> RecipeHolds(g, before, g.mappings[f][i])
  }

  ghost predicate AssumptionHolds(g: Graph, f: string) {
    f in g.assumptions && exists name :: name in g.assumptions[f] && Allowed(g.options, name)
  }

  ghost predicate Established(g: Graph, before: seq<string>, f: string) {
    IsRoot(g, f) || (if f in g.assumptions then AssumptionHolds(g, f) else RecipesHold(g, before, f))
  }

  /** A witness of completeness: fields in an order in which each rests on earlier ones only. */
  ghost predicate Witness(g: Graph, order: seq<string>) {
    forall i :: 0 <= i < |order| ==> Established(g, order[..i], order[i])
  }

  lemma WitnessSnoc(g: Graph, order: seq<string>, f: string)
    requires Witness(g, order) && Established(g, order, f)
    ensures Witness(g, order + [f])
  {
    forall i | 0 <= i < |order + [f]| ensures Established(g, (order + [f])[..i], (order + [f])[i]) {
      assert (order + [f])[..i] == order[..i];
      if i == |order| { assert order[..i] == order; }
    }
  }

  lemma RecipeLater(g: Graph, before: seq<string>, after: seq<string>, r: Recipe)
    requires RecipeHolds(g, before, r) && before <= after
    ensures RecipeHolds(g, after, r)
  {
    forall s | s in r.sources ensures SourceHolds(g, after, s) {
      assert SourceHolds(g, before, s);
    }
  }

  /** Ranks under which every non-root field either has an accepted assumption boundary, or has
      no boundary and a producer all of whose sources are known fields of lower rank. */
  ghost predicate Grounded(g: Graph, rank: string -> nat) {
    forall f :: f in g.fields && !g.fields[f] ==>
        if f in g.assumptions then AssumptionHolds(g, f) else GroundedAt(g, rank, f)
  }

  ghost predicate GroundedAt(g: Graph, rank: string -> nat, f: string) {
    && f in g.mappings
    && forall r, s :: r in g.mappings[f] && s in r.sources ==>
       s.field in g.fields && (IsRoot(g, s.field) || rank(s.field) < rank(f))
  }

  /** No temporal sources. */
  ghost predicate Plain(g: Graph) {
    forall f, r, s :: f in g.mappings && r in g.mappings[f] && s in r.sources ==> !s.temporal
  }

  /** Some field rests on an assumption boundary. */
  ghost predicate Assumes(g: Graph) {
    exists f :: f in g.fields && !g.fields[f] && f in g.assumptions
  }

  // ------------------------------------------------------------- cycles

  predicate Walkable(g: Graph, f: string) {
    f in g.fields && !g.fields[f]
  }

  /** `r` is one of the producers through which `f` is walked. */
  predicate Reads(g: Graph, f: string, r: Recipe) {
    Walkable(g, f) && f !in g.assumptions && f in g.mappings && r in g.mappings[f]
  }

  predicate HasSource(r: Recipe, field: string) {
    exists s :: s in r.sources && s.field == field
  }

  /** A producer of `a` reads `b`. */
  ghost predicate Depends(g: Graph, a: string, b: string) {
    exists r :: Reads(g, a, r) && HasSource(r, b)
  }

  /** Walked fields, each reading the next. */
  ghost predicate Chain(g: Graph, path: seq<string>) {
    && NoDuplicates(path)
    && (forall i :: 0 <= i < |path| ==> Walkable(g, path[i]))
    && (forall i :: 0 < i < |path| ==> Depends(g, path[i - 1], path[i]))
  }

  /** The last field of the chain has a producer of that name that reads the first. */
  ghost predicate Closes(g: Graph, cycle: seq<string>, name: string, s: Source) {
    && cycle != [] && Chain(g, cycle) && s.field == cycle[0]
    && exists r :: Reads(g, cycle[|cycle| - 1], r) && r.name == name && s in r.sources
  }

  /** A value of the cycle's first field may be carried over from an earlier state. */
  predicate Carried(g: Graph, s: Source) {
    s.temporal && HasNonTemporalSeed(g, s.field)
  }

  // ------------------------------------------------------------- the order of discovery

  /** The place of `f`, or the length if it has none. */
  function Place(order: seq<string>, f: string): nat {
    if order == [] || order[0] == f then 0 else 1 + Place(order[1..], f)
  }

  lemma {:induction false} PlaceIs(order: seq<string>, f: string)
    ensures Place(order, f) <= |order| && (f in order <==> Place(order, f) < |order|)
    ensures f in order ==> order[Place(order, f)] == f
    ensures forall i :: 0 <= i < |order| && order[i] == f ==> Place(order, f) <= i
    decreases order
  {
    if order != [] {
      assert order == [order[0]] + order[1..];
      PlaceIs(order[1..], f);
      forall i | 0 <= i < |order| && order[i] == f ensures Place(order, f) <= i {
        if i > 0 { assert order[1..][i - 1] == f; }
      }
    }
  }

  lemma {:induction false} PlacePrefix(a: seq<string>, b: seq<string>, f: string)
    requires a <= b
    ensures if f in a then Place(b, f) == Place(a, f) else |a| <= Place(b, f)
    decreases a
  {
    if a != [] {
      assert a == [a[0]] + a[1..] && a[1..] <= b[1..];
      PlacePrefix(a[1..], b[1..], f);
    }
  }

  lemma PlaceAppended(a: seq<string>, x: string, f: string)
    ensures Place(a + [x], f) == if f in a then Place(a, f) else if f == x then |a| else |a| + 1
  {
    PlaceIs(a + [x], f);
    PlacePrefix(a, a + [x], f);
    if f !in a && f == x { assert (a + [x])[|a|] == f; }
  }

  function Fields(sources: seq<Source>): (fields: seq<string>)
    ensures |fields| == |sources| && forall i :: 0 <= i < |sources| ==> fields[i] == sources[i].field
  {
    seq(|sources|, i requires 0 <= i < |sources| => sources[i].field)
  }

  function ReadByAll(recipes: seq<Recipe>): seq<string> {
    if recipes == [] then [] else ReadByAll(recipes[..|recipes| - 1]) + Fields(recipes[|recipes| - 1].sources)
  }

  /** What the producers of `f` read, in order. */
  function ReadBy(g: Graph, f: string): seq<string> {
    if f in g.mappings && f !in g.assumptions then ReadByAll(g.mappings[f]) else []
  }

  /** The walked fields in the order in which a depth-first walk through `todo` discovers them. */
  ghost function Discover(g: Graph, seen: seq<string>, todo: seq<string>): (after: seq<string>)
    ensures seen <= after
    decreases Unseen(g, seen), |todo|
  {
    if todo == [] then seen
    else if todo[0] in seen || !Walkable(g, todo[0]) then Discover(g, seen, todo[1..])
    else
      FewerUnseen(g, seen, todo[0], seen + [todo[0]]);
      var inner := Discover(g, seen + [todo[0]], ReadBy(g, todo[0]));
      FewerUnseen(g, seen, todo[0], inner);
      Discover(g, inner, todo[1..])
  }

  /** How many fields have not been discovered. */
  ghost function Unseen(g: Graph, seen: seq<string>): nat {
    |g.fields.Keys - Elements(seen)|
  }

  lemma FewerUnseen(g: Graph, seen: seq<string>, f: string, after: seq<string>)
    requires f in g.fields && f !in seen && seen + [f] <= after
    ensures Unseen(g, after) < Unseen(g, seen)
  {
    assert (seen + [f])[|seen|] == f && after[|seen|] == f;
    forall x | x in seen ensures x in after {
      var i :| 0 <= i < |seen| && seen[i] == x;
      assert (seen + [f])[i] == x && after[i] == x;
    }
    assert f in after;
    var (left, all) := (g.fields.Keys - Elements(after), g.fields.Keys - Elements(seen));
    assert left <= all && f in all && f !in left;
    SmallerSet(left, all);
  }

  /** A walk through two lists goes through one after the other. */
  lemma {:induction false} DiscoverBoth(g: Graph, seen: seq<string>, a: seq<string>, b: seq<string>)
    ensures Discover(g, seen, a + b) == Discover(g, Discover(g, seen, a), b)
    decreases Unseen(g, seen), |a|
  {
    if a == [] {
      assert a + b == b;
    } else {
      assert (a + b)[0] == a[0] && (a + b)[1..] == a[1..] + b;
      if a[0] in seen || !Walkable(g, a[0]) {
        DiscoverBoth(g, seen, a[1..], b);
      } else {
        var inner := Discover(g, seen + [a[0]], ReadBy(g, a[0]));
        FewerUnseen(g, seen, a[0], inner);
        DiscoverBoth(g, inner, a[1..], b);
      }
    }
  }

  lemma DiscoverOne(g: Graph, seen: seq<string>, f: string)
    ensures Discover(g, seen, [f]) == if f in seen || !Walkable(g, f) then seen
              else Discover(g, seen + [f], ReadBy(g, f))
  {
    assert [f][1..] == [];
  }

  // ------------------------------------------------------------- what the check accepts

  /** Of the fields of the cycle its first one is discovered first. */
  ghost predicate EnteredFirst(seen: seq<string>, cycle: seq<string>) {
    && cycle != [] && cycle[0] in seen
    && forall i :: 0 <= i < |cycle| ==> Place(seen, cycle[0]) <= Place(seen, cycle[i])
  }

  lemma StaysEntered(seen: seq<string>, after: seq<string>, cycle: seq<string>)
    requires EnteredFirst(seen, cycle) && seen <= after
    ensures EnteredFirst(after, cycle)
  {
    forall i | 0 <= i < |cycle| ensures Place(after, cycle[0]) <= Place(after, cycle[i]) {
      PlaceIs(seen, cycle[0]);
      PlacePrefix(seen, after, cycle[0]);
      PlacePrefix(seen, after, cycle[i]);
    }
  }

  /** Every cycle is carried over at the field that is discovered first. */
  ghost predicate SafeCycles(g: Graph, seen: seq<string>) {
    forall cycle, name, s :: Closes(g, cycle, name, s) && EnteredFirst(seen, cycle) ==> Carried(g, s)
  }

  /** Every field is a root, has an accepted boundary, or has producers that read known fields. */
  ghost predicate Produced(g: Graph) {
    forall f :: Walkable(g, f) ==>
      if f in g.assumptions then AssumptionHolds(g, f)
      else f in g.mappings && forall r, s :: r in g.mappings[f] && s in r.sources ==> s.field in g.fields
  }

  /** The model has a meaning for the check, whose walk starts at the fields of `names` in turn. */
  ghost predicate Sourced(g: Graph, names: seq<string>) {
    Produced(g) && SafeCycles(g, Discover(g, [], names))
  }

  // ------------------------------------------------------------- cycles of a finished walk

  /** In the order of discovery all that was found below a field stands right behind it: what
      stands between it and something finished no later is finished no later. */
  ghost predicate Nested(seen: seq<string>, order: seq<string>) {
    forall a, b, c ::
      a in seen && b in seen && c in seen && Between(seen, a, b, c) && Place(order, c) <= Place(order, a) ==>
        Place(order, b) <= Place(order, a)
  }

  predicate Between(seen: seq<string>, a: string, b: string, c: string) {
    Place(seen, a) <= Place(seen, b) <= Place(seen, c)
  }

  /** What a finished field reads was finished before it, or had been discovered before it. */
  ghost predicate LookedAt(g: Graph, seen: seq<string>, order: seq<string>, f: string) {
    forall r, s :: Reads(g, f, r) && s in r.sources && Walkable(g, s.field) ==> Behind(seen, order, f, s.field)
  }

  predicate Behind(seen: seq<string>, order: seq<string>, f: string, source: string) {
    Place(order, source) < Place(order, f) || (source in seen && Place(seen, source) <= Place(seen, f))
  }

  /** Everything is finished and has been looked at. */
  ghost predicate Finished(g: Graph, seen: seq<string>, order: seq<string>) {
    forall f :: Walkable(g, f) ==> f in seen && f in order && LookedAt(g, seen, order, f)
  }

  /** All of a cycle is finished before the field that was discovered first. */
  lemma {:induction false} CycleEndsAtItsEntry(g: Graph, seen: seq<string>, order: seq<string>, cycle: seq<string>,
                                               i: nat)
    requires Nested(seen, order) && Finished(g, seen, order) && cycle != [] && Chain(g, cycle)
               && EnteredFirst(seen, cycle)
    requires i < |cycle|
    ensures Place(order, cycle[i]) <= Place(order, cycle[0])
  {
    if i > 0 {
      CycleEndsAtItsEntry(g, seen, order, cycle, i - 1);
      var f, b := cycle[i - 1], cycle[i];
      assert Depends(g, f, b) && Walkable(g, b) && Walkable(g, f) && Walkable(g, cycle[0]);
      var r :| Reads(g, f, r) && HasSource(r, b);
      var s :| s in r.sources && s.field == b;
      assert LookedAt(g, seen, order, f);
      assert Behind(seen, order, f, b);
      if Place(order, b) >= Place(order, f) {
        assert Between(seen, cycle[0], b, f);
      }
    }
  }

  /** An order of provenance that such a walk finishes in leaves no cycle entered wrongly. */
  lemma FinishedIsSafe(g: Graph, seen: seq<string>, order: seq<string>)
    requires Nested(seen, order) && Finished(g, seen, order) && Witness(g, order)
    ensures SafeCycles(g, seen)
  {
    forall cycle, name, s | Closes(g, cycle, name, s) && EnteredFirst(seen, cycle) ensures Carried(g, s) {
      var y := cycle[|cycle| - 1];
      CycleEndsAtItsEntry(g, seen, order, cycle, |cycle| - 1);
      assert Walkable(g, y);
      var r :| Reads(g, y, r) && r.name == name && s in r.sources;
      WitnessHolds(g, order, y, r, s);
    }
  }

  /** What a field of the order reads stands before it or is carried over. */
  lemma WitnessHolds(g: Graph, order: seq<string>, f: string, r: Recipe, s: Source)
    requires Witness(g, order) && f in order && Reads(g, f, r) && s in r.sources
    ensures s.field in g.fields && (Place(order, s.field) < Place(order, f) || Carried(g, s))
  {
    PlaceIs(order, f);
    var k := Place(order, f);
    assert Established(g, order[..k], order[k]);
    var n :| 0 <= n < |g.mappings[f]| && g.mappings[f][n] == r;
    assert RecipeHolds(g, order[..k], r) && SourceHolds(g, order[..k], s);
    if s.field in order[..k] {
      var m :| 0 <= m < k && order[..k][m] == s.field;
      assert order[m] == s.field;
      PlaceIs(order, s.field);
    }
  }

  /** Every field of a complete order is produced. */
  lemma CompleteIsProduced(g: Graph, order: seq<string>)
    requires CompleteOrder(g, order)
    ensures Produced(g)
  {
    forall f | Walkable(g, f)
      ensures if f in g.assumptions then AssumptionHolds(g, f)
              else f in g.mappings && forall r, s :: r in g.mappings[f] && s in r.sources ==> s.field in g.fields {
      PlaceIs(order, f);
      assert Established(g, order[..Place(order, f)], order[Place(order, f)]);
      forall r, s | f !in g.assumptions && r in g.mappings[f] && s in r.sources ensures s.field in g.fields {
        WitnessHolds(g, order, f, r, s);
      }
    }
  }

  /** Every field has its place in one order of provenance. */
  ghost predicate CompleteOrder(g: Graph, order: seq<string>) {
    Witness(g, order) && forall f :: f in g.fields ==> f in order
  }

  // ------------------------------------------------------------- models without cycles

  /** Ranks rule cycles out. */
  lemma GroundedIsSourced(g: Graph, rank: string -> nat, names: seq<string>)
    requires Grounded(g, rank)
    ensures Sourced(g, names)
  {
    forall cycle, name, s | Closes(g, cycle, name, s) ensures false {
      RanksFall(g, rank, cycle, |cycle| - 1);
      ClosingFalls(g, rank, cycle, name, s);
    }
  }

  lemma ClosingFalls(g: Graph, rank: string -> nat, cycle: seq<string>, name: string, s: Source)
    requires Grounded(g, rank) && Closes(g, cycle, name, s)
    ensures rank(cycle[0]) < rank(cycle[|cycle| - 1])
  {
    var last := cycle[|cycle| - 1];
    var r :| Reads(g, last, r) && r.name == name && s in r.sources;
    assert GroundedAt(g, rank, last) && Walkable(g, cycle[0]);
  }

  lemma {:induction false} RanksFall(g: Graph, rank: string -> nat, path: seq<string>, i: nat)
    requires Grounded(g, rank) && Chain(g, path) && i < |path|
    ensures rank(path[i]) <= rank(path[0]) && Walkable(g, path[0])
  {
    if i > 0 {
      RanksFall(g, rank, path, i - 1);
      assert Depends(g, path[i - 1], path[i]) && Walkable(g, path[i]);
      var r :| Reads(g, path[i - 1], r) && HasSource(r, path[i]);
      var s :| s in r.sources && s.field == path[i];
      assert GroundedAt(g, rank, path[i - 1]);
    }
  }

  /** In a plain model an order of provenance grounds every field. */
  lemma WitnessGrounds(g: Graph, order: seq<string>) returns (rank: string -> nat)
    requires Plain(g) && CompleteOrder(g, order)
    ensures Grounded(g, rank)
  {
    rank := f => Place(order, f);
    CompleteIsProduced(g, order);
    forall f, r, s | Walkable(g, f) && f !in g.assumptions && r in g.mappings[f] && s in r.sources
      ensures s.field in g.fields && Place(order, s.field) < Place(order, f) {
      WitnessHolds(g, order, f, r, s);
    }
    forall f | Walkable(g, f) && f !in g.assumptions ensures GroundedAt(g, rank, f) {
    }
  }

  // ------------------------------------------------------------- what the names decide

  /** The check accepts whatever the fields are called, which is whatever order it visits them
      in, if and only if every source that closes a cycle is carried over. */
  lemma AcceptedUnderAnyNames(g: Graph)
    ensures (forall names :: NoDuplicates(names) && Elements(names) == g.fields.Keys ==> Sourced(g, names))
            <==> Produced(g) && forall cycle, name, s :: Closes(g, cycle, name, s) ==> Carried(g, s)
  {
    hide Produced, Sorted, Discover, EnteredFirst, Carried;
    if forall names :: NoDuplicates(names) && Elements(names) == g.fields.Keys ==> Sourced(g, names) {
      SortedIsDistinct(g.fields.Keys);
      assert Sourced(g, Sorted(g.fields.Keys));
      forall cycle, name, s | Closes(g, cycle, name, s) ensures Carried(g, s) {
        assert Walkable(g, cycle[0]);
        var rest := Sorted(g.fields.Keys - {cycle[0]});
        StartsWith(g, cycle[0], rest);
        FirstIsEntered(g, cycle, rest);
        assert Sourced(g, [cycle[0]] + rest);
      }
    }
  }

  lemma SortedIsDistinct(names: set<string>)
    ensures NoDuplicates(Sorted(names)) && Elements(Sorted(names)) == names
  {
    hide Sorted;
    forall i, j | 0 <= i < j < |Sorted(names)| ensures Sorted(names)[i] != Sorted(names)[j] {
      BeforeIrreflexive(Sorted(names)[i]);
    }
  }

  lemma StartsWith(g: Graph, f: string, rest: seq<string>)
    requires f in g.fields && rest == Sorted(g.fields.Keys - {f})
    ensures NoDuplicates([f] + rest) && Elements([f] + rest) == g.fields.Keys
  {
    hide Sorted;
    SortedIsDistinct(g.fields.Keys - {f});
    assert forall x :: x in rest ==> x in Elements(rest);
    assert Elements([f] + rest) == {f} + Elements(rest);
  }

  /** A walk that starts at a field enters its cycles there. */
  lemma FirstIsEntered(g: Graph, cycle: seq<string>, rest: seq<string>)
    requires cycle != [] && Walkable(g, cycle[0])
    ensures EnteredFirst(Discover(g, [], [cycle[0]] + rest), cycle)
  {
    FirstOfWalk(g, cycle[0], rest);
  }

  lemma FirstOfWalk(g: Graph, f: string, rest: seq<string>)
    requires Walkable(g, f)
    ensures var seen := Discover(g, [], [f] + rest); f in seen && Place(seen, f) == 0
  {
    var todo := [f] + rest;
    var inner := Discover(g, [] + [f], ReadBy(g, f));
    assert Discover(g, [], todo) == Discover(g, inner, todo[1..]);
    var seen := Discover(g, [], todo);
    assert [f] <= inner && inner <= seen;
    assert [f] <= seen && seen[0] == f;
  }

  /** `a` is made from the previous `b`, and `b` is made from `a`. */
  function CarriedPair(a: string, b: string, options: Options): Graph {
    Graph(map[a := false, b := false],
          map[a := [Recipe("carry", [Source(b, true)])], b := [Recipe("derive", [Source(a, false)])]],
          map[], options)
  }

  /** Such a pair is accepted exactly when the name of `b` comes first. */
  lemma TheNamesDecide(a: string, b: string, options: Options)
    requires a != b
    ensures var g := CarriedPair(a, b, options); Sourced(g, Sorted(g.fields.Keys)) <==> Before(b, a)
  {
    var g := CarriedPair(a, b, options);
    BeforeTotal(a, b);
    BeforeAsymmetric(a, b);
    var names := Sorted(g.fields.Keys);
    if Before(a, b) {
      OrderIsUnique(names, [a, b]);
      PairIsEntered(a, b, g, names);
    } else {
      OrderIsUnique(names, [b, a]);
      PairIsCarried(a, b, g, names);
    }
  }

  lemma PairIsEntered(a: string, b: string, g: Graph, names: seq<string>)
    requires a != b && g == CarriedPair(a, b, g.options) && names == [a, b]
    ensures !SafeCycles(g, Discover(g, [], names))
  {
    var cycle, s := [a, b], Source(a, false);
    assert Reads(g, a, g.mappings[a][0]) && HasSource(g.mappings[a][0], b) by {
      assert Source(b, true) in g.mappings[a][0].sources;
    }
    assert Depends(g, a, b);
    assert Chain(g, cycle);
    assert Reads(g, b, g.mappings[b][0]) && s in g.mappings[b][0].sources;
    assert Closes(g, cycle, "derive", s);
    FirstIsEntered(g, cycle, [b]);
    assert names == [a] + [b];
  }

  lemma PairHasSeed(a: string, b: string, g: Graph)
    requires a != b && g == CarriedPair(a, b, g.options)
    ensures HasNonTemporalSeed(g, b)
  {
    assert g.mappings[b][0] in g.mappings[b];
  }

  lemma PairIsCarried(a: string, b: string, g: Graph, names: seq<string>)
    requires a != b && g == CarriedPair(a, b, g.options) && names == [b, a]
    ensures Sourced(g, names)
  {
    hide Place, Discover, HasNonTemporalSeed, Closes;
    var seen := Discover(g, [], names);
    assert names == [b] + [a];
    assert Produced(g);
    PairHasSeed(a, b, g);
    FirstOfWalk(g, b, [a]);
    PlaceIs(seen, a);
    PlaceIs(seen, b);
    forall cycle, name, s | Closes(g, cycle, name, s) && EnteredFirst(seen, cycle) ensures Carried(g, s) {
      assert Place(seen, cycle[0]) <= Place(seen, cycle[|cycle| - 1]);
      PairCloses(a, b, g, cycle, name, s);
    }
  }

  /** `b` leads to `a` as it is, `a` to `b` only as it was. */
  lemma PairCloses(a: string, b: string, g: Graph, cycle: seq<string>, name: string, s: Source)
    requires a != b && g == CarriedPair(a, b, g.options) && Closes(g, cycle, name, s)
    ensures if cycle[|cycle| - 1] == b then cycle[0] == a else cycle[0] == b && s == Source(b, true)
  {
    hide Depends, NoDuplicates;
    var r :| Reads(g, cycle[|cycle| - 1], r) && r.name == name && s in r.sources;
  }
}
