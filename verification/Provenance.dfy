/** The information-completeness checker: a memoised depth-first walk over modeled fields and
    the mappings that produce them. */
module Provenance {
  import opened Streams
  import opened Sorting
  import opened StringOrder
  import opened ProvenanceGraph

  datatype Descriptor =
    | Field(field: string, root: bool)
    | Mapping(name: string, target: string, sources: seq<Source>)
    | Assumption(name: string, target: string)

  datatype Code = ECM001 | ECM002 | ECM003 | ECM004 | ECM005 | ECM006 | ECM007 | ECM008

  datatype Diagnostic = Diagnostic(code: Code, subject: string)

  datatype Status = Verified | Assumed

  // ------------------------------------------------------------- what a diagnostic means

  predicate Listed(g: Graph, target: string, name: string) {
    || (target in g.mappings && exists r :: r in g.mappings[target] && r.name == name)
    || (target in g.assumptions && name in g.assumptions[target])
  }

  /** A producer of that name reads a field that is not there. */
  ghost predicate ReadsUnknown(g: Graph, name: string, s: Source) {
    s.field !in g.fields && exists f, r :: Reads(g, f, r) && r.name == name && s in r.sources
  }

  /** A diagnostic is raised only on the defect that it names: cycles are real cycles, which the
      walk enters at the field to which they lead back. */
  ghost predicate Justified(ds: seq<Descriptor>, g: Graph, seen: seq<string>, d: Diagnostic) {
    match d.code
    case ECM001 => ds == []
    case ECM002 => exists i, j :: 0 <= i < j < |ds| && StableId(ds[i]) == StableId(ds[j]) == d.subject
    case ECM003 => Walkable(g, d.subject) && d.subject !in g.mappings && d.subject !in g.assumptions
    case ECM004 => exists s :: ReadsUnknown(g, d.subject, s)
    case ECM005 => exists t :: t !in g.fields && Listed(g, t, d.subject)
    case ECM006 => exists cycle, s :: Closes(g, cycle, d.subject, s) && EnteredFirst(seen, cycle) && !s.temporal
    case ECM007 =>
      exists cycle, s ::
        Closes(g, cycle, d.subject, s) && EnteredFirst(seen, cycle) && s.temporal && !HasNonTemporalSeed(g, s.field)
    case ECM008 => exists f ::
        Walkable(g, f) && f in g.assumptions && d.subject in g.assumptions[f] && !AssumptionHolds(g, f)
  }

  ghost predicate AllJustified(ds: seq<Descriptor>, g: Graph, seen: seq<string>, errors: seq<Diagnostic>) {
    forall d :: d in errors ==> Justified(ds, g, seen, d)
  }

  lemma StaysJustified(ds: seq<Descriptor>, g: Graph, seen: seq<string>, after: seq<string>, d: Diagnostic)
    requires Justified(ds, g, seen, d) && seen <= after
    ensures Justified(ds, g, after, d)
  {
    hide Closes, EnteredFirst;
    if d.code == ECM006 {
      var cycle, s :| Closes(g, cycle, d.subject, s) && EnteredFirst(seen, cycle) && !s.temporal;
      StaysEntered(seen, after, cycle);
    }
    if d.code == ECM007 {
      var cycle, s :| Closes(g, cycle, d.subject, s) && EnteredFirst(seen, cycle) && s.temporal
          && !HasNonTemporalSeed(g, s.field);
      StaysEntered(seen, after, cycle);
    }
  }

  lemma AllStayJustified(ds: seq<Descriptor>, g: Graph, seen: seq<string>, after: seq<string>, errors: seq<Diagnostic>)
    requires AllJustified(ds, g, seen, errors) && seen <= after
    ensures AllJustified(ds, g, after, errors)
  {
    hide Justified;
    forall d | d in errors ensures Justified(ds, g, after, d) {
      StaysJustified(ds, g, seen, after, d);
    }
  }

  /** A justified diagnostic rules acceptance out. */
  lemma JustifiedRefutes(ds: seq<Descriptor>, g: Graph, names: seq<string>, d: Diagnostic)
    requires Justified(ds, g, Discover(g, [], names), d)
    ensures ds == [] || !WellNamed(ds, g) || !Sourced(g, names)
  {
    hide Discover, HasNonTemporalSeed, AssumptionHolds, EnteredFirst, Chain;
    var seen := Discover(g, [], names);
    match d.code
    case ECM002 => assert !Unique(ds, |ds|);
    case ECM004 =>
      var s :| ReadsUnknown(g, d.subject, s);
      var f, r :| Reads(g, f, r) && r.name == d.subject && s in r.sources;
      assert r in g.mappings[f];
    case _ =>
  }

  // ------------------------------------------------------------- the state of the walk

  /** The evaluation's fields; `seen` lists the walked fields as they are discovered, `order` all
      fields as they are finished. */
  datatype Walk = Walk(usedAssumption: bool, memo: map<string, bool>, path: seq<string>, errors: seq<Diagnostic>,
                       order: seq<string>, seen: seq<string>)

  /** The path is listed in the order of discovery. */
  ghost predicate Rising(seen: seq<string>, path: seq<string>) {
    forall i, j :: 0 <= i < j < |path| ==> Place(seen, path[i]) < Place(seen, path[j])
  }

  /** What has been discovered is finished or on the path. */
  ghost predicate Settled(g: Graph, w: Walk) {
    && (forall f :: f in w.memo <==> f in w.order)
    && (forall f :: f in w.order ==> f in g.fields && (Walkable(g, f) ==> f in w.seen))
    && (forall f :: f in w.seen ==> Walkable(g, f) && (f in w.order || f in w.path))
    && (forall f :: f in w.path ==> f in w.seen && f !in w.order)
    && (forall f :: f in w.memo && !w.memo[f] ==> w.errors != [])
  }

  ghost predicate AllLookedAt(g: Graph, seen: seq<string>, order: seq<string>) {
    forall f :: f in order && Walkable(g, f) ==> LookedAt(g, seen, order, f)
  }

  /** Without an error what is finished is an order of provenance. */
  ghost predicate Backed(g: Graph, w: Walk) {
    && (w.errors == [] ==> Witness(g, w.order))
    && (w.errors == [] && !w.usedAssumption ==> forall f :: f in w.order && Walkable(g, f) ==> f !in g.assumptions)
    && (w.usedAssumption ==> Assumes(g))
  }

  /** The diagnostic for a source that closes a cycle wrongly. */
  function CycleDiagnostic(r: Recipe, s: Source): Diagnostic {
    Diagnostic(if s.temporal then ECM007 else ECM006, r.name)
  }

  /** What is wrong with a source of the finished field `f` has been told. */
  ghost predicate SourceTold(g: Graph, order: seq<string>, errors: seq<Diagnostic>, f: string, r: Recipe, s: Source) {
    if s.field !in g.fields then Diagnostic(ECM004, r.name) in errors
    else Place(order, s.field) < Place(order, f) || Carried(g, s) || CycleDiagnostic(r, s) in errors
  }

  /** A field without an accepted boundary, or without a producer, has been told of. */
  ghost predicate ProductionTold(g: Graph, errors: seq<Diagnostic>, f: string) {
    if f in g.assumptions then
      AssumptionHolds(g, f) || forall name :: name in g.assumptions[f] ==> Diagnostic(ECM008, name) in errors
    else f !in g.mappings ==> Diagnostic(ECM003, f) in errors
  }

  ghost predicate Told(g: Graph, order: seq<string>, errors: seq<Diagnostic>, f: string) {
    && ProductionTold(g, errors, f)
    && forall r, s :: Reads(g, f, r) && s in r.sources ==> SourceTold(g, order, errors, f, r, s)
  }

  /** Whatever is wrong with the finished fields has been told. */
  ghost predicate AllTold(g: Graph, order: seq<string>, errors: seq<Diagnostic>) {
    forall f :: f in order && Walkable(g, f) ==> Told(g, order, errors, f)
  }

  lemma ToldLater(g: Graph, order: seq<string>, errors: seq<Diagnostic>, order': seq<string>, errors': seq<Diagnostic>,
                  f: string)
    requires Told(g, order, errors, f) && f in order && order <= order' && errors <= errors'
    ensures Told(g, order', errors', f)
  {
    hide HasNonTemporalSeed, AssumptionHolds, Reads;
    forall d | d in errors ensures d in errors' { ErrorStays(errors, errors', d); }
    forall r, s | Reads(g, f, r) && s in r.sources ensures SourceTold(g, order', errors', f, r, s) {
      assert SourceTold(g, order, errors, f, r, s);
      PlaceIs(order, f);
      PlaceIs(order, s.field);
      PlacePrefix(order, order', f);
      PlacePrefix(order, order', s.field);
    }
  }

  lemma ErrorStays(errors: seq<Diagnostic>, errors': seq<Diagnostic>, d: Diagnostic)
    requires errors <= errors' && d in errors
    ensures d in errors'
  {
    var i :| 0 <= i < |errors| && errors[i] == d;
    assert errors'[i] == d;
  }

  lemma AllToldLater(g: Graph, order: seq<string>, errors: seq<Diagnostic>, order': seq<string>,
                     errors': seq<Diagnostic>)
    requires AllTold(g, order, errors) && order <= order' && errors <= errors'
    requires forall f :: f in order' && f !in order && Walkable(g, f) ==> Told(g, order', errors', f)
    ensures AllTold(g, order', errors')
  {
    hide Told;
    forall f | f in order' && Walkable(g, f) ensures Told(g, order', errors', f) {
      if f in order { ToldLater(g, order, errors, order', errors', f); }
    }
  }

  ghost predicate Sound(ds: seq<Descriptor>, g: Graph, w: Walk) {
    && Chain(g, w.path) && Rising(w.seen, w.path) && Settled(g, w)
    && Nested(w.seen, w.order) && AllLookedAt(g, w.seen, w.order) && AllTold(g, w.order, w.errors)
    && Backed(g, w) && AllJustified(ds, g, w.seen, w.errors)
  }

  /** A part of the walk: it ends where it began, and what it has discovered is finished. */
  ghost predicate Walked(ds: seq<Descriptor>, g: Graph, w: Walk, v: Walk) {
    && Sound(ds, g, v) && v.path == w.path
    && w.errors <= v.errors && w.order <= v.order && w.seen <= v.seen
    && forall i :: |w.seen| <= i < |v.seen| ==> v.seen[i] in v.order
  }

  lemma WalkedItself(ds: seq<Descriptor>, g: Graph, w: Walk)
    requires Sound(ds, g, w)
    ensures Walked(ds, g, w, w)
  {
    hide Sound;
  }

  lemma WalkedOn(ds: seq<Descriptor>, g: Graph, u: Walk, v: Walk, w: Walk)
    requires Walked(ds, g, u, v) && Walked(ds, g, v, w)
    ensures Walked(ds, g, u, w) && (u.errors != [] ==> w.errors != []) && (v.errors != [] ==> w.errors != [])
  {
    hide Sound;
    forall i | |u.seen| <= i < |w.seen| ensures w.seen[i] in w.order {
      if i < |v.seen| {
        assert v.seen[i] == w.seen[i] && v.seen[i] in v.order;
        Earlier(v.order, w.order, w.seen[i]);
      }
    }
  }

  lemma Earlier(a: seq<string>, b: seq<string>, f: string)
    requires a <= b && f in a
    ensures f in b
  {
    var i :| 0 <= i < |a| && a[i] == f;
    assert b[i] == f;
  }

  lemma WalkFacts(ds: seq<Descriptor>, g: Graph, w: Walk, v: Walk)
    requires Walked(ds, g, w, v)
    ensures Sound(ds, g, v) && w.order <= v.order && w.errors <= v.errors && w.seen <= v.seen && v.path == w.path
    ensures forall f :: f in w.order ==> f in v.order
  {
    hide Sound;
    forall f | f in w.order ensures f in v.order { Earlier(w.order, v.order, f); }
  }

  /** One more error. */
  lemma ErrorAdded(ds: seq<Descriptor>, g: Graph, w: Walk, d: Diagnostic)
    requires Sound(ds, g, w) && Justified(ds, g, w.seen, d)
    ensures Walked(ds, g, w, w.(errors := w.errors + [d]))
  {
    hide Justified, Chain, Rising, Nested, AllLookedAt, Witness, Assumes, Walkable, AllTold;
    AllToldLater(g, w.order, w.errors, w.order, w.errors + [d]);
  }

  // ------------------------------------------------------------- going down

  function Entered(w: Walk, f: string): Walk {
    w.(path := w.path + [f], seen := w.seen + [f])
  }

  /** Going down to a field that the last one on the path reads. */
  lemma EnteredIsSound(ds: seq<Descriptor>, g: Graph, w: Walk, f: string)
    requires Sound(ds, g, w) && Walkable(g, f) && f !in w.path && f !in w.memo
    requires w.path != [] ==> Depends(g, w.path[|w.path| - 1], f)
    ensures Sound(ds, g, Entered(w, f)) && f !in w.seen && f !in w.order
    ensures Unseen(g, w.path + [f]) < Unseen(g, w.path)
  {
    hide Justified, Depends, Witness, Chain, Assumes, Rising, Nested, AllLookedAt, AllJustified, AllTold, Walkable,
      Unseen;
    ChainGrows(g, w.path, f);
    RisingGrows(w.seen, w.path, f);
    NestedWithSeen(w.seen, w.order, f);
    LookedAtWithSeen(g, w.seen, w.order, f);
    AllStayJustified(ds, g, w.seen, w.seen + [f], w.errors);
    FewerUnseen(g, w.path, f, w.path + [f]) by { assert f in g.fields by { WalkableIsField(g, f); } }
  }

  lemma WalkableIsField(g: Graph, f: string)
    requires Walkable(g, f)
    ensures f in g.fields
  {
  }

  lemma ChainGrows(g: Graph, path: seq<string>, f: string)
    requires Chain(g, path) && Walkable(g, f) && f !in path
    requires path != [] ==> Depends(g, path[|path| - 1], f)
    ensures Chain(g, path + [f])
  {
    hide Depends, Walkable;
  }

  lemma RisingGrows(seen: seq<string>, path: seq<string>, f: string)
    requires Rising(seen, path) && f !in seen && forall x :: x in path ==> x in seen
    ensures Rising(seen + [f], path + [f])
  {
    forall i, j | 0 <= i < j < |path + [f]|
      ensures Place(seen + [f], (path + [f])[i]) < Place(seen + [f], (path + [f])[j]) {
      PlaceAppended(seen, f, path[i]);
      PlaceIs(seen, path[i]);
      PlaceAppended(seen, f, (path + [f])[j]);
    }
  }

  lemma NestedWithSeen(seen: seq<string>, order: seq<string>, f: string)
    requires Nested(seen, order) && f !in seen && f !in order
    ensures Nested(seen + [f], order)
  {
    var s := seen + [f];
    forall a, b, c | a in s && b in s && c in s && Between(s, a, b, c) && Place(order, c) <= Place(order, a)
      ensures Place(order, b) <= Place(order, a) {
      PlaceAppended(seen, f, a);
      PlaceAppended(seen, f, b);
      PlaceAppended(seen, f, c);
      PlaceIs(seen, a);
      PlaceIs(seen, b);
      PlaceIs(seen, c);
      PlaceIs(order, f);
      PlaceIs(order, a);
      PlaceIs(order, b);
      if c != f { assert Between(seen, a, b, c); }
    }
  }

  lemma LookedAtWithSeen(g: Graph, seen: seq<string>, order: seq<string>, f: string)
    requires AllLookedAt(g, seen, order) && forall x :: x in order && Walkable(g, x) ==> x in seen
    ensures AllLookedAt(g, seen + [f], order)
  {
    forall x, r, s | x in order && Walkable(g, x) && Reads(g, x, r) && s in r.sources && Walkable(g, s.field)
      ensures Behind(seen + [f], order, x, s.field) {
      assert LookedAt(g, seen, order, x) && Behind(seen, order, x, s.field);
      PlaceAppended(seen, f, x);
      PlaceAppended(seen, f, s.field);
    }
  }

  // ------------------------------------------------------------- finishing a field

  function Left(w: Walk, f: string, complete: bool): Walk
    requires w.path != []
  {
    w.(path := w.path[..|w.path| - 1], memo := w.memo[f := complete], order := w.order + [f])
  }

  /** Everything that `f` reads is finished or still being walked. */
  ghost predicate AllReached(g: Graph, w: Walk, f: string) {
    forall r :: Reads(g, f, r) ==> SourcesReached(g, w, r, |r.sources|)
  }

  ghost predicate SourcesReached(g: Graph, w: Walk, r: Recipe, n: nat)
    requires n <= |r.sources|
  {
    forall i :: 0 <= i < n ==> SourceSeen(g, w, r, r.sources[i])
  }

  /** A source that was looked at: it is reached, and if it is not finished, fit, or told of. */
  ghost predicate SourceSeen(g: Graph, w: Walk, r: Recipe, s: Source) {
    && (Walkable(g, s.field) ==> Reached(w, s.field))
    && (if s.field !in g.fields then Diagnostic(ECM004, r.name) in w.errors
        else s.field in w.order || Carried(g, s) || CycleDiagnostic(r, s) in w.errors)
  }

  predicate Reached(w: Walk, f: string) {
    f in w.order || f in w.path
  }

  /** What finishing `f` needs. */
  ghost predicate Concluded(g: Graph, w: Walk, f: string, complete: bool) {
    && (complete || w.errors != [])
    && (complete ==> Established(g, w.order, f))
    && (complete && !w.usedAssumption ==> f !in g.assumptions)
  }

  lemma LeftIsSound(ds: seq<Descriptor>, g: Graph, w: Walk, v: Walk, f: string, complete: bool)
    requires Sound(ds, g, w) && Walkable(g, f) && f !in w.path && f !in w.seen && f !in w.order
    requires Walked(ds, g, Entered(w, f), v) && AllReached(g, v, f) && Concluded(g, v, f, complete)
    requires ProductionTold(g, v.errors, f)
    ensures v.path != [] && Walked(ds, g, w, Left(v, f, complete))
  {
    hide Justified, Chain, Rising, Nested, AllLookedAt, AllJustified, Settled, Backed, Established, AllReached,
      Walkable, AllTold, ProductionTold;
    var u := Left(v, f, complete);
    assert v.path == w.path + [f] && u.path == w.path;
    TopIsLast(g, w, v, f);
    RisingPrefix(v.seen, w.path, f);
    PathIsSeen(g, v);
    SettledAfter(g, v, w.path, f, complete);
    NestedWithOrder(v.seen, v.order, f);
    LookedAtWithOrder(g, v, w.path, f);
    BackedAfter(g, v, f, complete);
    ToldAtLast(g, v, f);
    AllToldLater(g, v.order, v.errors, u.order, u.errors);
    forall i | |w.seen| <= i < |u.seen| ensures u.seen[i] in u.order {
      if i == |w.seen| { assert (w.seen + [f])[i] == f && u.seen[i] == f && u.order[|v.order|] == f; }
      else { assert v.seen[i] in v.order; }
    }
  }

  lemma PathIsSeen(g: Graph, w: Walk)
    requires Settled(g, w)
    ensures forall f :: f in w.path ==> f in w.seen
  {
  }

  /** Whatever was discovered after the end of the path is finished. */
  lemma TopIsLast(g: Graph, w: Walk, v: Walk, f: string)
    requires f !in w.seen && w.seen + [f] <= v.seen && Settled(g, v) && v.path == w.path + [f]
    requires forall i :: |w.seen + [f]| <= i < |v.seen| ==> v.seen[i] in v.order
    ensures f in v.seen && f !in v.order
    ensures forall x :: x in v.seen && Place(v.seen, x) > Place(v.seen, f) ==> x in v.order
  {
    assert v.path[|w.path|] == f;
    PlaceAppended(w.seen, f, f);
    PlacePrefix(w.seen + [f], v.seen, f);
    assert (w.seen + [f])[|w.seen|] == f;
    forall x | x in v.seen && Place(v.seen, x) > Place(v.seen, f) ensures x in v.order {
      PlaceIs(v.seen, x);
    }
  }

  lemma ToldAtLast(g: Graph, v: Walk, f: string)
    requires AllReached(g, v, f) && ProductionTold(g, v.errors, f) && f !in v.order
    ensures Told(g, v.order + [f], v.errors, f)
    ensures forall x :: x in v.order + [f] && x !in v.order ==> x == f
  {
    hide ProductionTold, Reads, Carried, CycleDiagnostic;
    PlaceAppended(v.order, f, f);
    forall r, s | Reads(g, f, r) && s in r.sources ensures SourceTold(g, v.order + [f], v.errors, f, r, s) {
      assert SourcesReached(g, v, r, |r.sources|);
      var i :| 0 <= i < |r.sources| && r.sources[i] == s;
      assert SourceSeen(g, v, r, r.sources[i]);
      PlaceIs(v.order, s.field);
      PlaceAppended(v.order, f, s.field);
    }
  }

  lemma RisingPrefix(seen: seq<string>, path: seq<string>, f: string)
    requires Rising(seen, path + [f])
    ensures Rising(seen, path)
  {
    forall i, j | 0 <= i < j < |path| ensures Place(seen, path[i]) < Place(seen, path[j]) {
      assert (path + [f])[i] == path[i] && (path + [f])[j] == path[j];
    }
  }

  lemma SettledAfter(g: Graph, v: Walk, path: seq<string>, f: string, complete: bool)
    requires Settled(g, v) && v.path == path + [f] && f !in path && Walkable(g, f) && (complete || v.errors != [])
    ensures Settled(g, Left(v, f, complete))
  {
    hide Walkable;
    WalkableIsField(g, f);
    assert v.path[|path|] == f;
    assert Left(v, f, complete).path == path;
    forall x | x in path ensures x in v.path {
      var i :| 0 <= i < |path| && path[i] == x;
      assert v.path[i] == x;
    }
  }

  lemma NestedWithOrder(seen: seq<string>, order: seq<string>, f: string)
    requires Nested(seen, order) && f !in order
    requires forall x :: x in seen && f in seen && Place(seen, x) > Place(seen, f) ==> x in order
    ensures Nested(seen, order + [f])
  {
    forall a, b, c | a in seen && b in seen && c in seen && Between(seen, a, b, c)
        && Place(order + [f], c) <= Place(order + [f], a)
      ensures Place(order + [f], b) <= Place(order + [f], a) {
      PlaceAppended(order, f, a);
      PlaceAppended(order, f, b);
      PlaceAppended(order, f, c);
      PlaceIs(order, a);
      PlaceIs(order, b);
      PlaceIs(order, c);
      SamePlace(seen, f, b);
    }
  }

  lemma SamePlace(order: seq<string>, a: string, b: string)
    requires b in order
    ensures Place(order, a) == Place(order, b) ==> a == b
  {
    PlaceIs(order, a);
    PlaceIs(order, b);
  }

  lemma LookedAtWithOrder(g: Graph, v: Walk, path: seq<string>, f: string)
    requires AllLookedAt(g, v.seen, v.order) && v.path == path + [f] && Rising(v.seen, v.path) && AllReached(g, v, f)
    requires f !in v.order && forall x :: x in v.path ==> x in v.seen
    ensures AllLookedAt(g, v.seen, v.order + [f])
  {
    hide AllReached, Rising;
    forall x, r, s | x in v.order + [f] && Walkable(g, x) && Reads(g, x, r) && s in r.sources && Walkable(g, s.field)
      ensures Behind(v.seen, v.order + [f], x, s.field) {
      if x in v.order { assert LookedAt(g, v.seen, v.order, x) && Behind(v.seen, v.order, x, s.field); }
      else { TopReaches(g, v, path, f, r, s); }
      PlaceIs(v.order, x);
      PlaceIs(v.order, s.field);
      PlaceAppended(v.order, f, x);
      PlaceAppended(v.order, f, s.field);
    }
  }

  lemma TopReaches(g: Graph, v: Walk, path: seq<string>, f: string, r: Recipe, s: Source)
    requires v.path == path + [f] && Rising(v.seen, v.path) && AllReached(g, v, f)
    requires forall x :: x in v.path ==> x in v.seen
    requires Reads(g, f, r) && s in r.sources && Walkable(g, s.field)
    ensures s.field in v.order || (s.field in v.seen && Place(v.seen, s.field) <= Place(v.seen, f))
  {
    assert SourcesReached(g, v, r, |r.sources|);
    var i :| 0 <= i < |r.sources| && r.sources[i] == s;
    assert SourceSeen(g, v, r, r.sources[i]);
    if s.field in v.path {
      var k :| 0 <= k < |v.path| && v.path[k] == s.field;
      assert v.path[|path|] == f;
    }
  }

  lemma BackedAfter(g: Graph, v: Walk, f: string, complete: bool)
    requires Backed(g, v) && Concluded(g, v, f, complete) && v.path != []
    ensures Backed(g, Left(v, f, complete))
  {
    hide Witness, Established, Assumes;
    if v.errors == [] { WitnessSnoc(g, v.order, f); }
  }

  /** A root is known as soon as it is met. */
  lemma RootIsSound(ds: seq<Descriptor>, g: Graph, w: Walk, f: string)
    requires Sound(ds, g, w) && f in g.fields && g.fields[f] && f !in w.memo
    ensures Walked(ds, g, w, w.(memo := w.memo[f := true], order := w.order + [f]))
  {
    hide Justified, Chain, Rising, Nested, AllLookedAt, AllJustified, Witness, Assumes, Established, AllTold;
    RootIsTold(g, w, f);
    NestedWithOrder(w.seen, w.order, f);
    LookedAtWithRoot(g, w.seen, w.order, f);
    RootIsEstablished(g, w.order, f);
    if w.errors == [] { WitnessSnoc(g, w.order, f); }
  }

  lemma RootIsTold(g: Graph, w: Walk, f: string)
    requires AllTold(g, w.order, w.errors) && f in g.fields && g.fields[f]
    ensures AllTold(g, w.order + [f], w.errors)
  {
    AllToldLater(g, w.order, w.errors, w.order + [f], w.errors);
  }

  lemma LookedAtWithRoot(g: Graph, seen: seq<string>, order: seq<string>, f: string)
    requires AllLookedAt(g, seen, order) && !Walkable(g, f)
    ensures AllLookedAt(g, seen, order + [f])
  {
    forall x, r, s | x in order + [f] && Walkable(g, x) && Reads(g, x, r) && s in r.sources && Walkable(g, s.field)
      ensures Behind(seen, order + [f], x, s.field) {
      assert LookedAt(g, seen, order, x) && Behind(seen, order, x, s.field);
      PlaceIs(order, x);
      PlaceIs(order, s.field);
      PlaceAppended(order, f, x);
      PlaceAppended(order, f, s.field);
    }
  }

  /** The truth about a root may be written again. */
  lemma RootAgain(ds: seq<Descriptor>, g: Graph, w: Walk, f: string)
    requires Sound(ds, g, w) && f in w.memo
    ensures Walked(ds, g, w, w.(memo := w.memo[f := true]))
  {
    hide Justified, Chain, Rising, Nested, AllLookedAt, AllJustified, AllTold, Witness, Assumes, Walkable;
  }

  lemma RootIsEstablished(g: Graph, order: seq<string>, f: string)
    requires f in g.fields && g.fields[f]
    ensures Established(g, order, f) && !Walkable(g, f)
  {
  }

  /** A source on the path closes a cycle that the walk entered where it leads back to. */
  lemma SourceCloses(g: Graph, seen: seq<string>, path: seq<string>, r: Recipe, s: Source)
    requires Chain(g, path) && Rising(seen, path) && path != [] && Reads(g, path[|path| - 1], r)
    requires s in r.sources && s.field in path && s.field in seen
    ensures exists cycle :: Closes(g, cycle, r.name, s) && EnteredFirst(seen, cycle)
  {
    hide Depends, Reads, Rising, Place;
    var i :| 0 <= i < |path| && path[i] == s.field;
    var cycle := path[i..];
    ChainSuffix(g, path, i);
    RisingSuffix(seen, path, i);
    assert cycle[|cycle| - 1] == path[|path| - 1];
    assert Closes(g, cycle, r.name, s) && EnteredFirst(seen, cycle);
  }

  lemma ChainSuffix(g: Graph, path: seq<string>, i: nat)
    requires Chain(g, path) && i < |path|
    ensures Chain(g, path[i..])
  {
    hide Depends, Walkable;
    var cycle := path[i..];
    forall k | 0 < k < |cycle| ensures Depends(g, cycle[k - 1], cycle[k]) {
      assert cycle[k - 1] == path[i + k - 1] && cycle[k] == path[i + k];
    }
  }

  lemma RisingSuffix(seen: seq<string>, path: seq<string>, i: nat)
    requires Rising(seen, path) && i < |path|
    ensures forall k :: 0 <= k < |path[i..]| ==> Place(seen, path[i]) <= Place(seen, path[i..][k])
  {
    hide Place;
    forall k | 0 <= k < |path[i..]| ensures Place(seen, path[i]) <= Place(seen, path[i..][k]) {
      assert path[i..][k] == path[i + k];
    }
  }

  // ------------------------------------------------------------- the walk

  class CheckerEvaluation {
    var usedAssumption: bool
    var memo: map<string, bool>
    var path: seq<string>
    var errors: seq<Diagnostic>
    ghost var order: seq<string>
    ghost var seen: seq<string>

    constructor (errors: seq<Diagnostic>)
      ensures Value() == Walk(false, map[], [], errors, [], [])
    {
      usedAssumption, memo, path, this.errors, order, seen := false, map[], [], errors, [], [];
    }

    ghost function Value(): Walk
      reads this
    {
      Walk(usedAssumption, memo, path, errors, order, seen)
    }

    /** Whether `f` has known provenance.  Callers look for cycles first, so that `f` is never on
        the path already. */
    method IsComplete(f: string, g: Graph, ghost ds: seq<Descriptor>) returns (complete: bool)
      requires Sound(ds, g, Value()) && Populated(g) && f in g.fields && f !in path
      requires path != [] ==> Depends(g, path[|path| - 1], f)
      modifies this
      ensures Walked(ds, g, old(Value()), Value()) && f in order && (complete || errors != [])
      ensures seen == Discover(g, old(seen), [f])
      decreases Unseen(g, path), 2
    {
      hide Sound, Depends, Unseen, Walked, Discover;
      DiscoverOne(g, seen, f);
      if f in memo {
        MemoIsSound(ds, g, Value(), f);
        WalkedItself(ds, g, Value());
        return memo[f];
      }
      if g.fields[f] {
        ConcludeRoot(f, g, ds);
        return true;
      }
      complete := Visit(f, g, ds);
    }

    method ConcludeRoot(f: string, g: Graph, ghost ds: seq<Descriptor>)
      requires Sound(ds, g, Value()) && f in g.fields && g.fields[f]
      modifies this`memo, this`order
      ensures Walked(ds, g, old(Value()), Value()) && memo == old(memo)[f := true] && f in order
    {
      hide Sound, Walked;
      if f in memo {
        MemoIsSound(ds, g, Value(), f);
        RootAgain(ds, g, Value(), f);
      } else {
        RootIsSound(ds, g, Value(), f);
        order := order + [f];
      }
      memo := memo[f := true];
    }

    /** Explores `f` as the end of the path and takes it off again. */
    method Visit(f: string, g: Graph, ghost ds: seq<Descriptor>) returns (complete: bool)
      requires Sound(ds, g, Value()) && Populated(g) && Walkable(g, f) && f !in path && f !in memo
      requires path != [] ==> Depends(g, path[|path| - 1], f)
      modifies this
      ensures Walked(ds, g, old(Value()), Value()) && f in order && (complete || errors != [])
      ensures f !in old(seen) && seen == Discover(g, old(seen) + [f], ReadBy(g, f))
      decreases Unseen(g, path), 1
    {
      hide Sound, Depends, Established, Populated, Walked, Unseen, Discover, AllReached;
      ghost var above := Value();
      EnteredIsSound(ds, g, above, f);
      path, seen := path + [f], seen + [f];
      complete := Explore(f, g, ds);
      LeftIsSound(ds, g, above, Value(), f, complete);
      memo, order := memo[f := complete], order + [f];
      path := path[..|path| - 1];
    }

    /** Looks for an accepted boundary or checks every producer. */
    method Explore(f: string, g: Graph, ghost ds: seq<Descriptor>) returns (complete: bool)
      requires Sound(ds, g, Value()) && Populated(g) && path != [] && path[|path| - 1] == f && Walkable(g, f)
      modifies this
      ensures Walked(ds, g, old(Value()), Value()) && AllReached(g, Value(), f) && Concluded(g, Value(), f, complete)
      ensures ProductionTold(g, errors, f)
      ensures seen == Discover(g, old(seen), ReadBy(g, f))
      decreases Unseen(g, path), 6
    {
      hide Sound, Walked, AssumptionHolds, RecipesHold, Unseen, SourcesReached;
      ListedNames(g, f);
      if f in g.assumptions {
        complete := CheckAssumptions(f, g, ds);
      } else if f !in g.mappings {
        ErrorAdded(ds, g, Value(), Diagnostic(ECM003, f));
        errors := errors + [Diagnostic(ECM003, f)];
        complete := false;
      } else {
        complete := CheckRecipes(f, g, ds);
      }
    }

    method CheckAssumptions(f: string, g: Graph, ghost ds: seq<Descriptor>) returns (complete: bool)
      requires Sound(ds, g, Value()) && Walkable(g, f) && f in g.assumptions && g.assumptions[f] != []
      modifies this`usedAssumption, this`errors
      ensures Walked(ds, g, old(Value()), Value())
      ensures complete <==> AssumptionHolds(g, f)
      ensures if complete then usedAssumption && errors == old(errors) else errors != []
      ensures !complete ==> forall name :: name in g.assumptions[f] ==> Diagnostic(ECM008, name) in errors
    {
      hide Sound, Walked;
      var names := g.assumptions[f];
      var i := 0;
      while i < |names|
        invariant 0 <= i <= |names| && Value() == old(Value())
        invariant forall k :: 0 <= k < i ==> !Allowed(g.options, names[k])
      {
        if Allowed(g.options, names[i]) {
          assert names[i] in g.assumptions[f];
          AssumedIsSound(ds, g, Value(), f);
          usedAssumption := true;
          return true;
        }
        i := i + 1;
      }
      i := 0;
      WalkedItself(ds, g, Value());
      while i < |names|
        invariant 0 <= i <= |names| && Walked(ds, g, old(Value()), Value()) && (i > 0 ==> errors != [])
        invariant seen == old(seen)
        invariant forall k :: 0 <= k < i ==> Diagnostic(ECM008, names[k]) in errors
      {
        ghost var now := Value();
        WalkFacts(ds, g, old(Value()), now);
        assert names[i] in g.assumptions[f];
        ErrorAdded(ds, g, now, Diagnostic(ECM008, names[i]));
        errors := errors + [Diagnostic(ECM008, names[i])];
        WalkedOn(ds, g, old(Value()), now, Value());
        i := i + 1;
      }
      return false;
    }

    method CheckSource(s: Source, recipe: Recipe, g: Graph, ghost ds: seq<Descriptor>) returns (ok: bool)
      requires Sound(ds, g, Value()) && Populated(g) && path != [] && Reads(g, path[|path| - 1], recipe)
                 && s in recipe.sources
      modifies this
      ensures Walked(ds, g, old(Value()), Value()) && SourceSeen(g, Value(), recipe, s)
      ensures if ok then SourceHolds(g, order, s) else errors != []
      ensures seen == Discover(g, old(seen), [s.field])
      decreases Unseen(g, path), 3
    {
      hide Sound, Populated, HasNonTemporalSeed, Unseen, Discover, Walked, Closes, EnteredFirst, Depends, Reads;
      ghost var last := path[|path| - 1];
      PathFacts(ds, g, Value());
      WalkedItself(ds, g, Value());
      DiscoverOne(g, seen, s.field);
      if s.field in path { SourceCloses(g, seen, path, recipe, s); }
      if s.field !in g.fields {
        assert ReadsUnknown(g, recipe.name, s) by { assert Reads(g, last, recipe); }
        ErrorAdded(ds, g, Value(), Diagnostic(ECM004, recipe.name));
        errors := errors + [Diagnostic(ECM004, recipe.name)];
        return false;
      }
      if s.field in path && !s.temporal {
        ErrorAdded(ds, g, Value(), Diagnostic(ECM006, recipe.name));
        errors := errors + [Diagnostic(ECM006, recipe.name)];
        return false;
      }
      if s.field in path {
        if !HasNonTemporalSeed(g, s.field) {
          ErrorAdded(ds, g, Value(), Diagnostic(ECM007, recipe.name));
          errors := errors + [Diagnostic(ECM007, recipe.name)];
          return false;
        }
        return true;
      }
      assert HasSource(recipe, s.field);
      IsRead(g, last, recipe, s.field);
      ok := IsComplete(s.field, g, ds);
    }

    method CheckRecipe(recipe: Recipe, f: string, g: Graph, ghost ds: seq<Descriptor>) returns (complete: bool)
      requires Sound(ds, g, Value()) && Populated(g) && path != [] && path[|path| - 1] == f && Reads(g, f, recipe)
      modifies this
      ensures Walked(ds, g, old(Value()), Value()) && SourcesReached(g, Value(), recipe, |recipe.sources|)
      ensures if complete then RecipeHolds(g, order, recipe) else errors != []
      ensures seen == Discover(g, old(seen), Fields(recipe.sources))
      decreases Unseen(g, path), 4
    {
      hide Sound, Walked, Populated, Reads, SourceHolds, FirstHold, RecipeHolds, Unseen, Discover, SourcesReached,
        SourceSeen, Walkable, Fields;
      FirstHolds(g, order, recipe);
      ghost var first := Value();
      ghost var todo := Fields(recipe.sources);
      complete := true;
      var i := 0;
      WalkedItself(ds, g, first);
      NothingToDiscover(g, seen);
      NoneReached(g, first, recipe);
      while i < |recipe.sources|
        invariant 0 <= i <= |recipe.sources| && Walked(ds, g, first, Value())
        invariant if complete then FirstHold(g, order, recipe, i) else errors != []
        invariant SourcesReached(g, Value(), recipe, i)
        invariant seen == Discover(g, first.seen, todo[..i])
      {
        ghost var now := Value();
        WalkFacts(ds, g, first, now);
        var ok := CheckSource(recipe.sources[i], recipe, g, ds);
        WalkFacts(ds, g, now, Value());
        SourceChecked(ds, g, first, now, Value(), recipe, i, complete, ok);
        ReachedOneMore(g, now, Value(), recipe, i);
        DiscoveredOneMore(g, first.seen, recipe.sources, i);
        complete := complete && ok;
        i := i + 1;
      }
      AllHold(g, order, recipe);
      assert todo[..i] == todo;
    }

    method CheckRecipes(f: string, g: Graph, ghost ds: seq<Descriptor>) returns (complete: bool)
      requires Sound(ds, g, Value()) && Populated(g) && path != [] && path[|path| - 1] == f
      requires Walkable(g, f) && f !in g.assumptions && f in g.mappings
      modifies this
      ensures Walked(ds, g, old(Value()), Value()) && AllReached(g, Value(), f)
      ensures if complete then RecipesHold(g, order, f) else errors != []
      ensures seen == Discover(g, old(seen), ReadBy(g, f))
      decreases Unseen(g, path), 5
    {
      hide Sound, Walked, Populated, RecipeHolds, Unseen, Discover, SourcesReached, Walkable, ReadByAll;
      ghost var first := Value();
      complete := true;
      var recipes := g.mappings[f];
      var i := 0;
      WalkedItself(ds, g, first);
      NothingToDiscover(g, seen);
      NothingRead(recipes);
      while i < |recipes|
        invariant 0 <= i <= |recipes| && Walked(ds, g, first, Value())
        invariant complete ==> forall k :: 0 <= k < i ==> RecipeHolds(g, order, recipes[k])
        invariant !complete ==> errors != []
        invariant forall k :: 0 <= k < i ==> SourcesReached(g, Value(), recipes[k], |recipes[k].sources|)
        invariant seen == Discover(g, first.seen, ReadByAll(recipes[..i]))
      {
        ghost var now := Value();
        WalkFacts(ds, g, first, now);
        assert recipes[i] in g.mappings[f];
        var ok := CheckRecipe(recipes[i], f, g, ds);
        WalkedOn(ds, g, first, now, Value());
        WalkFacts(ds, g, now, Value());
        forall k | 0 <= k < i
          ensures RecipeHolds(g, now.order, recipes[k]) ==> RecipeHolds(g, order, recipes[k])
          ensures SourcesReached(g, Value(), recipes[k], |recipes[k].sources|) {
          if RecipeHolds(g, now.order, recipes[k]) { RecipeLater(g, now.order, order, recipes[k]); }
          ReachedLater(g, now, Value(), recipes[k], |recipes[k].sources|);
        }
        ReadOneMore(g, first.seen, recipes, i);
        complete := complete && ok;
        i := i + 1;
      }
      assert recipes[..i] == recipes;
    }
  }

  lemma IsRead(g: Graph, f: string, r: Recipe, source: string)
    requires Reads(g, f, r) && HasSource(r, source)
    ensures Depends(g, f, source)
  {
  }

  lemma PathFacts(ds: seq<Descriptor>, g: Graph, w: Walk)
    requires Sound(ds, g, w)
    ensures Chain(g, w.path) && Rising(w.seen, w.path) && forall f :: f in w.path ==> f in w.seen
  {
  }

  lemma MemoIsSound(ds: seq<Descriptor>, g: Graph, w: Walk, f: string)
    requires Sound(ds, g, w) && f in w.memo
    ensures f in w.order && (w.memo[f] || w.errors != []) && (Walkable(g, f) ==> f in w.seen)
  {
    hide Chain, Rising, Nested, AllLookedAt, Backed, AllJustified, Walkable;
  }

  lemma ListedNames(g: Graph, f: string)
    requires Populated(g)
    ensures f in g.assumptions ==> g.assumptions[f] != []
  {
  }

  lemma AssumedIsSound(ds: seq<Descriptor>, g: Graph, w: Walk, f: string)
    requires Sound(ds, g, w) && Walkable(g, f) && f in g.assumptions
    ensures Walked(ds, g, w, w.(usedAssumption := true))
  {
    hide Justified, Chain, Witness, Rising, Nested, AllLookedAt;
  }

  ghost predicate FirstHold(g: Graph, before: seq<string>, recipe: Recipe, n: nat)
    requires n <= |recipe.sources|
  {
    forall k :: 0 <= k < n ==> SourceHolds(g, before, recipe.sources[k])
  }

  lemma FirstHolds(g: Graph, before: seq<string>, recipe: Recipe)
    ensures FirstHold(g, before, recipe, 0)
  {
  }

  lemma SourceChecked(ds: seq<Descriptor>, g: Graph, first: Walk, now: Walk, after: Walk, recipe: Recipe, i: nat,
                      complete: bool, ok: bool)
    requires Walked(ds, g, first, now) && Walked(ds, g, now, after) && i < |recipe.sources|
    requires if complete then FirstHold(g, now.order, recipe, i) else now.errors != []
    requires if ok then SourceHolds(g, after.order, recipe.sources[i]) else after.errors != []
    ensures Walked(ds, g, first, after)
    ensures if complete && ok then FirstHold(g, after.order, recipe, i + 1) else after.errors != []
  {
    hide FirstHold, SourceHolds, Walked;
    WalkedOn(ds, g, first, now, after);
    WalkFacts(ds, g, now, after);
    OneMoreHolds(g, now.order, after.order, recipe, i);
  }

  lemma OneMoreHolds(g: Graph, before: seq<string>, after: seq<string>, recipe: Recipe, n: nat)
    requires n < |recipe.sources| && before <= after
    ensures FirstHold(g, before, recipe, n) && SourceHolds(g, after, recipe.sources[n]) ==>
              FirstHold(g, after, recipe, n + 1)
  {
  }

  lemma AllHold(g: Graph, before: seq<string>, recipe: Recipe)
    ensures FirstHold(g, before, recipe, |recipe.sources|) ==> RecipeHolds(g, before, recipe)
  {
  }

  lemma NoneReached(g: Graph, w: Walk, recipe: Recipe)
    ensures SourcesReached(g, w, recipe, 0)
  {
  }

  lemma ReachedLater(g: Graph, w: Walk, v: Walk, recipe: Recipe, n: nat)
    requires n <= |recipe.sources| && SourcesReached(g, w, recipe, n)
    requires v.path == w.path && w.errors <= v.errors && forall f :: f in w.order ==> f in v.order
    ensures SourcesReached(g, v, recipe, n)
  {
    hide Walkable, Carried, CycleDiagnostic;
    forall d | d in w.errors ensures d in v.errors { ErrorStays(w.errors, v.errors, d); }
    forall i | 0 <= i < n ensures SourceSeen(g, v, recipe, recipe.sources[i]) {
      assert SourceSeen(g, w, recipe, recipe.sources[i]);
    }
  }

  lemma ReachedOneMore(g: Graph, w: Walk, v: Walk, recipe: Recipe, n: nat)
    requires n < |recipe.sources| && SourcesReached(g, w, recipe, n)
    requires v.path == w.path && w.errors <= v.errors && forall f :: f in w.order ==> f in v.order
    requires SourceSeen(g, v, recipe, recipe.sources[n])
    ensures SourcesReached(g, v, recipe, n + 1)
  {
    hide SourceSeen;
    ReachedLater(g, w, v, recipe, n);
  }

  lemma NothingToDiscover(g: Graph, seen: seq<string>)
    ensures Discover(g, seen, []) == seen
  {
  }

  lemma NothingRead(recipes: seq<Recipe>)
    ensures ReadByAll(recipes[..0]) == []
  {
  }

  lemma DiscoveredOneMore(g: Graph, seen: seq<string>, sources: seq<Source>, i: nat)
    requires i < |sources|
    ensures Discover(g, seen, Fields(sources)[..i + 1])
                == Discover(g, Discover(g, seen, Fields(sources)[..i]), [sources[i].field])
  {
    hide Discover;
    var todo := Fields(sources);
    assert todo[..i + 1] == todo[..i] + [sources[i].field];
    DiscoverBoth(g, seen, todo[..i], [sources[i].field]);
  }

  lemma ReadOneMore(g: Graph, seen: seq<string>, recipes: seq<Recipe>, i: nat)
    requires i < |recipes|
    ensures Discover(g, seen, ReadByAll(recipes[..i + 1]))
         == Discover(g, Discover(g, seen, ReadByAll(recipes[..i])), Fields(recipes[i].sources))
  {
    hide Discover;
    assert recipes[..i + 1][..i] == recipes[..i];
    DiscoverBoth(g, seen, ReadByAll(recipes[..i]), Fields(recipes[i].sources));
  }

  // ------------------------------------------------------------- the whole check

  function StableId(d: Descriptor): string {
    match d
    case Field(field, _) => field
    case Mapping(name, _, _) => name
    case Assumption(name, _) => name
  }

  /** Descriptors in the order of their identifiers; equal ones stay as they were. */
  function ById(ds: seq<Descriptor>): (sorted: seq<Descriptor>)
    ensures multiset(sorted) == multiset(ds) && InIdOrder(sorted)
  {
    if ds == [] then []
    else
      assert ds == ds[..|ds| - 1] + [ds[|ds| - 1]];
      var rest, d := ById(ds[..|ds| - 1]), ds[|ds| - 1];
      var i := IdRank(rest, d);
      PlacedById(rest, d, i);
      rest[..i] + [d] + rest[i..]
  }

  /** Behind the last one whose identifier is not after that of `d`. */
  function IdRank(sorted: seq<Descriptor>, d: Descriptor): (i: nat)
    ensures i <= |sorted| && (forall k :: i <= k < |sorted| ==> Before(StableId(d), StableId(sorted[k])))
    ensures i > 0 ==> NotAfter(sorted[i - 1], d)
  {
    if sorted == [] || !Before(StableId(d), StableId(sorted[|sorted| - 1])) then |sorted|
        else IdRank(sorted[..|sorted| - 1], d)
  }

  ghost predicate InIdOrder(sorted: seq<Descriptor>) {
    forall i, j :: 0 <= i < j < |sorted| ==> NotAfter(sorted[i], sorted[j])
  }

  ghost predicate NotAfter(a: Descriptor, b: Descriptor) {
    !Before(StableId(b), StableId(a))
  }

  lemma PlacedById(sorted: seq<Descriptor>, d: Descriptor, i: nat)
    requires InIdOrder(sorted) && i <= |sorted|
    requires forall k :: i <= k < |sorted| ==> Before(StableId(d), StableId(sorted[k]))
    requires i > 0 ==> NotAfter(sorted[i - 1], d)
    ensures var r := sorted[..i] + [d] + sorted[i..]; multiset(r) == multiset(sorted + [d]) && InIdOrder(r)
  {
    hide NotAfter, StableId, Before;
    var r := sorted[..i] + [d] + sorted[i..];
    SameMembers(sorted, d, i);
    forall a, b | 0 <= a < b < |r| ensures NotAfter(r[a], r[b]) {
      InsertedAt(sorted, i, d, r, a);
      InsertedAt(sorted, i, d, r, b);
      if b == i { FrontNotAfter(sorted, d, i, a); }
      if a == i { BackNotBefore(d, sorted[b - 1]); }
    }
  }

  lemma SameMembers(sorted: seq<Descriptor>, d: Descriptor, i: nat)
    requires i <= |sorted|
    ensures multiset(sorted[..i] + [d] + sorted[i..]) == multiset(sorted + [d])
  {
    assert sorted == sorted[..i] + sorted[i..];
  }

  lemma FrontNotAfter(sorted: seq<Descriptor>, d: Descriptor, i: nat, k: nat)
    requires InIdOrder(sorted) && k < i <= |sorted| && NotAfter(sorted[i - 1], d)
    ensures NotAfter(sorted[k], d)
  {
    hide Before, StableId;
    if Before(StableId(d), StableId(sorted[k])) && k < i - 1 {
      assert NotAfter(sorted[k], sorted[i - 1]);
      LaterBefore(StableId(d), StableId(sorted[k]), StableId(sorted[i - 1]));
    }
  }

  lemma BackNotBefore(d: Descriptor, e: Descriptor)
    requires Before(StableId(d), StableId(e))
    ensures NotAfter(d, e)
  {
    hide Before, StableId;
    BeforeAsymmetric(StableId(d), StableId(e));
  }

  lemma LaterBefore(a: string, b: string, c: string)
    requires Before(a, b) && !Before(c, b)
    ensures Before(a, c)
  {
    BeforeTotal(b, c);
    if Before(b, c) { BeforeTransitive(a, b, c); }
  }

  function Under<T>(m: map<string, seq<T>>, target: string): seq<T> {
    if target in m then m[target] else []
  }

  function Register(g: Graph, d: Descriptor): Graph {
    match d
    case Field(field, root) => g.(fields := g.fields[field := root])
    case Mapping(name, target, sources) =>
      g.(mappings := g.mappings[target := Under(g.mappings, target) + [Recipe(name, sources)]])
    case Assumption(name, target) =>
      g.(assumptions := g.assumptions[target := Under(g.assumptions, target) + [name]])
  }

  function GraphOf(ds: seq<Descriptor>, o: Options): Graph {
    if ds == [] then Graph(map[], map[], map[], o) else Register(GraphOf(ds[..|ds| - 1], o), ds[|ds| - 1])
  }

  /** A target's recipes and assumption names are those registered for it, in their order. */
  lemma {:induction false} RegisteredInOrder(ds: seq<Descriptor>, o: Options, t: string)
    returns (mapped: seq<Descriptor>, assumed: seq<Descriptor>)
    ensures var g := GraphOf(ds, o);
            && IsFiltered(mapped, ds, (d: Descriptor) => d.Mapping? && d.target == t)
            && IsFiltered(assumed, ds, (d: Descriptor) => d.Assumption? && d.target == t)
            && (t in g.mappings <==> mapped != []) && (t in g.assumptions <==> assumed != [])
            && RecipesAre(Under(g.mappings, t), mapped) && NamesAre(Under(g.assumptions, t), assumed)
  {
    hide IsFiltered, Register, Under;
    var maps := (d: Descriptor) => d.Mapping? && d.target == t;
    var assumes := (d: Descriptor) => d.Assumption? && d.target == t;
    if ds == [] {
      mapped, assumed := [], [];
      NothingRegistered(o, t);
      FilteredNone(maps);
      FilteredNone(assumes);
    } else {
      var before, d := ds[..|ds| - 1], ds[|ds| - 1];
      mapped, assumed := RegisteredInOrder(before, o, t);
      RegisterAdds(GraphOf(before, o), d, t);
      FilteredSnoc(mapped, before, maps, d);
      FilteredSnoc(assumed, before, assumes, d);
      mapped := mapped + (if maps(d) then [d] else []);
      assumed := assumed + (if assumes(d) then [d] else []);
      assert before + [d] == ds;
    }
  }

  lemma NothingRegistered(o: Options, t: string)
    ensures var g := GraphOf([], o);
            Under(g.mappings, t) == [] && Under(g.assumptions, t) == [] && t !in g.mappings && t !in g.assumptions
  {
  }

  lemma RegisterAdds(g: Graph, d: Descriptor, t: string)
    ensures var next := Register(g, d);
            && Under(next.mappings, t) == Under(g.mappings, t)
                 + (if d.Mapping? && d.target == t then [Recipe(d.name, d.sources)] else [])
            && Under(next.assumptions, t) == Under(g.assumptions, t)
                 + (if d.Assumption? && d.target == t then [d.name] else [])
            && (t in next.mappings <==> t in g.mappings || (d.Mapping? && d.target == t))
            && (t in next.assumptions <==> t in g.assumptions || (d.Assumption? && d.target == t))
  {
  }

  ghost predicate RecipesAre(recipes: seq<Recipe>, ds: seq<Descriptor>) {
    && |recipes| == |ds|
    && forall k :: 0 <= k < |ds| ==> ds[k].Mapping? && recipes[k] == Recipe(ds[k].name, ds[k].sources)
  }

  ghost predicate NamesAre(names: seq<string>, ds: seq<Descriptor>) {
    |names| == |ds| && forall k :: 0 <= k < |ds| ==> ds[k].Assumption? && names[k] == ds[k].name
  }

  /** A field is modeled if it is registered, with the root flag of its last registration. */
  lemma {:induction false} LastRegistrationHolds(ds: seq<Descriptor>, o: Options, f: string)
    ensures var g := GraphOf(ds, o);
            && (f in g.fields <==> exists i :: 0 <= i < |ds| && ds[i].Field? && ds[i].field == f)
            && (f in g.fields ==> exists i :: 0 <= i < |ds| && IsLastOf(ds, i, f) && ds[i].root == g.fields[f])
            && g.options == o
  {
    if ds != [] {
      var before, d := ds[..|ds| - 1], ds[|ds| - 1];
      LastRegistrationHolds(before, o, f);
      if d.Field? && d.field == f {
        assert IsLastOf(ds, |ds| - 1, f);
      } else if f in GraphOf(before, o).fields {
        var i :| 0 <= i < |before| && IsLastOf(before, i, f) && before[i].root == GraphOf(before, o).fields[f];
        assert IsLastOf(ds, i, f) && ds[i] == before[i];
      }
    }
  }

  ghost predicate IsLastOf(ds: seq<Descriptor>, i: nat, f: string) {
    && i < |ds| && ds[i].Field? && ds[i].field == f
    && forall j :: i < j < |ds| ==> !(ds[j].Field? && ds[j].field == f)
  }

  /** Names are unique and every registration is for a modeled field. */
  ghost predicate WellNamed(ds: seq<Descriptor>, g: Graph) {
    && Unique(ds, |ds|)
    && g.mappings.Keys <= g.fields.Keys && g.assumptions.Keys <= g.fields.Keys
  }

  ghost predicate Unique(ds: seq<Descriptor>, n: nat)
    requires n <= |ds|
  {
    forall i, j :: 0 <= i < j < n ==> StableId(ds[i]) != StableId(ds[j])
  }

  method BuildGraph(ds: seq<Descriptor>, o: Options) returns (g: Graph, errors: seq<Diagnostic>)
    ensures g == GraphOf(ds, o) && Populated(g)
    ensures errors == [] <==> WellNamed(ds, g)
    ensures AllJustified(ds, g, [], errors) && NamesTold(ds, g, errors)
  {
    hide AllJustified, GraphOf, Unique, DuplicatesTold, TargetsTold;
    g := RegisterAll(ds, o);
    var duplicates := CheckIdentifiers(ds, g);
    var mapped := CheckTargets(MappingNames(g), g, ds, duplicates);
    errors := CheckTargets(g.assumptions, g, ds, mapped);
    AllNamesTold(ds, g, duplicates, mapped, errors);
  }

  /** Every name that is used twice has been told. */
  ghost predicate DuplicatesTold(ds: seq<Descriptor>, errors: seq<Diagnostic>, n: nat)
    requires n <= |ds|
  {
    forall i, j :: 0 <= i < j < n && StableId(ds[i]) == StableId(ds[j]) ==>
        Diagnostic(ECM002, StableId(ds[j])) in errors
  }

  /** Every registration for one of these targets that is no modeled field has been told. */
  ghost predicate TargetsTold(listed: map<string, seq<string>>, targets: set<string>, g: Graph,
                              errors: seq<Diagnostic>) {
    forall t, name :: t in targets && t in listed && t !in g.fields && name in listed[t] ==>
      Diagnostic(ECM005, name) in errors
  }

  ghost predicate NamesTold(ds: seq<Descriptor>, g: Graph, errors: seq<Diagnostic>) {
    && DuplicatesTold(ds, errors, |ds|)
    && forall t, name :: t !in g.fields && Listed(g, t, name) ==> Diagnostic(ECM005, name) in errors
  }

  lemma AllNamesTold(ds: seq<Descriptor>, g: Graph, duplicates: seq<Diagnostic>, mapped: seq<Diagnostic>,
                     errors: seq<Diagnostic>)
    requires DuplicatesTold(ds, duplicates, |ds|) && duplicates <= mapped <= errors
    requires TargetsTold(MappingNames(g), g.mappings.Keys, g, mapped)
    requires TargetsTold(g.assumptions, g.assumptions.Keys, g, errors)
    ensures NamesTold(ds, g, errors)
  {
    hide MappingNames;
    forall d | d in mapped ensures d in errors { ErrorStays(mapped, errors, d); }
    forall d | d in duplicates ensures d in errors { ErrorStays(duplicates, mapped, d); }
  }

  method RegisterAll(ds: seq<Descriptor>, o: Options) returns (g: Graph)
    ensures g == GraphOf(ds, o) && Populated(g)
  {
    g := Graph(map[], map[], map[], o);
    var i := 0;
    while i < |ds|
      invariant 0 <= i <= |ds| && g == GraphOf(ds[..i], o) && Populated(g)
    {
      assert ds[..i + 1][..i] == ds[..i];
      g := Register(g, ds[i]);
      i := i + 1;
    }
    assert ds[..i] == ds;
  }

  method CheckIdentifiers(ds: seq<Descriptor>, ghost g: Graph) returns (errors: seq<Diagnostic>)
    ensures errors == [] <==> Unique(ds, |ds|)
    ensures AllJustified(ds, g, [], errors) && DuplicatesTold(ds, errors, |ds|)
  {
    hide Unique, DuplicatesTold, AllJustified, StableId;
    errors := [];
    var identifiers: set<string> := {};
    var i := 0;
    NobodyIsTwice(ds, g);
    while i < |ds|
      invariant 0 <= i <= |ds| && IdsOf(ds, i, identifiers)
      invariant errors == [] <==> Unique(ds, i)
      invariant DuplicatesTold(ds, errors, i)
      invariant AllJustified(ds, g, [], errors)
    {
      NextIdentifier(ds, g, identifiers, i, errors);
      if StableId(ds[i]) in identifiers {
        errors := errors + [Diagnostic(ECM002, StableId(ds[i]))];
      }
      identifiers := identifiers + {StableId(ds[i])};
      i := i + 1;
    }
  }

  ghost predicate IdsOf(ds: seq<Descriptor>, n: nat, identifiers: set<string>)
    requires n <= |ds|
  {
    forall id :: id in identifiers <==> exists k :: 0 <= k < n && StableId(ds[k]) == id
  }

  lemma NobodyIsTwice(ds: seq<Descriptor>, g: Graph)
    ensures IdsOf(ds, 0, {}) && Unique(ds, 0) && DuplicatesTold(ds, [], 0) && AllJustified(ds, g, [], [])
  {
  }

  lemma NextIdentifier(ds: seq<Descriptor>, g: Graph, identifiers: set<string>, i: nat, errors: seq<Diagnostic>)
    requires i < |ds| && IdsOf(ds, i, identifiers)
    requires DuplicatesTold(ds, errors, i) && AllJustified(ds, g, [], errors)
    ensures IdsOf(ds, i + 1, identifiers + {StableId(ds[i])})
    ensures Unique(ds, i + 1) <==> Unique(ds, i) && StableId(ds[i]) !in identifiers
    ensures var errors' := errors + [Diagnostic(ECM002, StableId(ds[i]))];
            if StableId(ds[i]) in identifiers then
              DuplicatesTold(ds, errors', i + 1) && AllJustified(ds, g, [], errors')
            else DuplicatesTold(ds, errors, i + 1)
  {
    hide StableId;
    var id := StableId(ds[i]);
    if id in identifiers {
      var k :| 0 <= k < i && StableId(ds[k]) == id;
      assert Justified(ds, g, [], Diagnostic(ECM002, id));
    }
  }

  /** The names of the mappings by target. */
  function MappingNames(g: Graph): (names: map<string, seq<string>>)
    ensures names.Keys == g.mappings.Keys
    ensures forall t, name :: t in names && name in names[t] ==> Listed(g, t, name)
    ensures forall t, r :: t in g.mappings && r in g.mappings[t] ==> r.name in names[t]
    ensures forall t :: t in names ==> |names[t]| == |g.mappings[t]|
  {
    map t | t in g.mappings :: NamesOf(g.mappings[t])
  }

  function NamesOf(recipes: seq<Recipe>): (names: seq<string>)
    ensures |names| == |recipes| && forall i :: 0 <= i < |recipes| ==> names[i] == recipes[i].name
    ensures forall r :: r in recipes ==> r.name in names
  {
    var names := seq(|recipes|, i requires 0 <= i < |recipes| => recipes[i].name);
    assert forall r :: r in recipes ==> r.name in names by {
      forall r | r in recipes ensures r.name in names {
        var i :| 0 <= i < |recipes| && recipes[i] == r;
        assert names[i] == r.name;
      }
    }
    names
  }

  /** Every registration whose target is not a modeled field is an error. */
  method CheckTargets(listed: map<string, seq<string>>, g: Graph, ghost ds: seq<Descriptor>, errors: seq<Diagnostic>)
    returns (errors': seq<Diagnostic>)
    requires forall t, name :: t in listed && name in listed[t] ==> Listed(g, t, name)
    requires (forall t :: t in listed ==> listed[t] != []) && AllJustified(ds, g, [], errors)
    ensures errors' == [] <==> errors == [] && listed.Keys <= g.fields.Keys
    ensures AllJustified(ds, g, [], errors') && errors <= errors' && TargetsTold(listed, listed.Keys, g, errors')
  {
    hide Listed;
    errors' := errors;
    var rest := listed.Keys;
    ghost var done: set<string> := {};
    while rest != {}
      invariant done + rest == listed.Keys && AllJustified(ds, g, [], errors')
      invariant errors <= errors' && TargetsTold(listed, done, g, errors')
      invariant errors' == [] <==> errors == [] && done <= g.fields.Keys
      decreases rest
    {
      var t :| t in rest;
      done, rest := done + {t}, rest - {t};
      ghost var earlier := errors';
      if t !in g.fields { errors' := Blame(listed[t], t, g, ds, errors'); }
      forall d | d in earlier ensures d in errors' { ErrorStays(earlier, errors', d); }
    }
  }

  method Blame(names: seq<string>, ghost t: string, ghost g: Graph, ghost ds: seq<Descriptor>, errors: seq<Diagnostic>)
    returns (errors': seq<Diagnostic>)
    requires t !in g.fields && names != [] && (forall name :: name in names ==> Listed(g, t, name))
               && AllJustified(ds, g, [], errors)
    ensures errors' != [] && AllJustified(ds, g, [], errors') && errors <= errors'
    ensures forall name :: name in names ==> Diagnostic(ECM005, name) in errors'
  {
    hide Listed;
    errors' := errors;
    var i := 0;
    while i < |names|
      invariant 0 <= i <= |names| && AllJustified(ds, g, [], errors') && (i > 0 ==> errors' != []) && errors <= errors'
      invariant forall k :: 0 <= k < i ==> Diagnostic(ECM005, names[k]) in errors'
    {
      assert Listed(g, t, names[i]);
      errors' := errors' + [Diagnostic(ECM005, names[i])];
      i := i + 1;
    }
  }

  lemma NamesToldLater(ds: seq<Descriptor>, g: Graph, errors: seq<Diagnostic>, errors': seq<Diagnostic>)
    requires NamesTold(ds, g, errors) && errors <= errors'
    ensures NamesTold(ds, g, errors')
  {
    hide Listed;
    forall d | d in errors ensures d in errors' { ErrorStays(errors, errors', d); }
  }

  /** Walks all fields by name. */
  method EvaluateFields(g: Graph, errors: seq<Diagnostic>, ghost ds: seq<Descriptor>) returns (e: CheckerEvaluation)
    requires Populated(g) && AllJustified(ds, g, [], errors)
    ensures fresh(e) && Sound(ds, g, e.Value()) && errors <= e.errors && e.path == []
    ensures (forall f :: f in g.fields ==> f in e.order) && e.seen == Discover(g, [], Sorted(g.fields.Keys))
  {
    hide Sound, Walked, Depends, Discover, Sorted, Populated, AllJustified, Unseen, InOrder, Walkable;
    e := new CheckerEvaluation(errors);
    ghost var first := e.Value();
    NothingWalked(ds, g, first);
    WalkedItself(ds, g, first);
    NothingToDiscover(g, []);
    var names := SortNames(g.fields.Keys);
    var i := 0;
    while i < |names|
      invariant 0 <= i <= |names| && Walked(ds, g, first, e.Value())
      invariant forall k :: 0 <= k < i ==> names[k] in e.order
      invariant e.seen == Discover(g, [], names[..i])
    {
      var f := names[i];
      assert f in Elements(names);
      ghost var now := e.Value();
      WalkFacts(ds, g, first, now);
      DiscoveredByName(g, names, i);
      if g.fields[f] {
        RootIsEstablished(g, [], f);
        e.ConcludeRoot(f, g, ds);
      } else {
        var _ := e.IsComplete(f, g, ds);
      }
      WalkedOn(ds, g, first, now, e.Value());
      WalkFacts(ds, g, now, e.Value());
      i := i + 1;
    }
    assert names[..i] == names;
    WalkFacts(ds, g, first, e.Value());
    forall f | f in g.fields ensures f in e.order {
      assert f in Elements(names);
    }
  }

  lemma DiscoveredByName(g: Graph, names: seq<string>, i: nat)
    requires i < |names|
    ensures Discover(g, [], names[..i + 1]) == Discover(g, Discover(g, [], names[..i]), [names[i]])
    ensures Walkable(g, names[i]) || Discover(g, [], names[..i + 1]) == Discover(g, [], names[..i])
  {
    hide Discover;
    assert names[..i + 1] == names[..i] + [names[i]];
    DiscoverBoth(g, [], names[..i], [names[i]]);
    DiscoverOne(g, Discover(g, [], names[..i]), names[i]);
  }

  lemma NothingWalked(ds: seq<Descriptor>, g: Graph, w: Walk)
    requires w == Walk(false, map[], [], w.errors, [], []) && AllJustified(ds, g, [], w.errors)
    ensures Sound(ds, g, w)
  {
  }

  /** A walk of all fields without an error. */
  lemma ConclusionOfWalk(ds: seq<Descriptor>, g: Graph, w: Walk)
    requires Sound(ds, g, w) && w.path == [] && w.errors == [] && forall f :: f in g.fields ==> f in w.order
    ensures CompleteOrder(g, w.order) && Produced(g) && SafeCycles(g, w.seen)
    ensures w.usedAssumption <==> Assumes(g)
  {
    hide Justified, Chain, Witness, Nested, LookedAt, SafeCycles, Produced;
    CompleteIsProduced(g, w.order);
    FinishedIsSafe(g, w.seen, w.order);
  }

  /** After a walk of all fields every defect has been told. */
  lemma DefectsAreTold(ds: seq<Descriptor>, g: Graph, w: Walk, d: Diagnostic)
    requires Sound(ds, g, w) && w.path == [] && (forall f :: f in g.fields ==> f in w.order)
    requires ds != [] && NamesTold(ds, g, w.errors) && Justified(ds, g, w.seen, d)
    ensures d in w.errors
  {
    hide Chain, Witness, Backed, HasNonTemporalSeed, AssumptionHolds, Settled, Listed, AllJustified, Rising, Closes,
      Told, EnteredFirst, ReadsUnknown;
    match d.code
    case ECM003 => FieldIsTold(g, w, d.subject);
    case ECM008 =>
      var f :| Walkable(g, f) && f in g.assumptions && d.subject in g.assumptions[f] && !AssumptionHolds(g, f);
      FieldIsTold(g, w, f);
    case ECM004 =>
      var s :| ReadsUnknown(g, d.subject, s);
      UnknownIsTold(g, w, d.subject, s);
    case ECM006 =>
      var cycle, s :| Closes(g, cycle, d.subject, s) && EnteredFirst(w.seen, cycle) && !s.temporal;
      CycleIsTold(ds, g, w, cycle, d.subject, s);
    case ECM007 =>
      var cycle, s :|
        Closes(g, cycle, d.subject, s) && EnteredFirst(w.seen, cycle) && s.temporal && !HasNonTemporalSeed(g, s.field);
      CycleIsTold(ds, g, w, cycle, d.subject, s);
    case _ =>
  }

  lemma FieldIsTold(g: Graph, w: Walk, f: string)
    requires AllTold(g, w.order, w.errors) && (forall f :: f in g.fields ==> f in w.order) && Walkable(g, f)
    ensures ProductionTold(g, w.errors, f)
  {
    assert Told(g, w.order, w.errors, f);
  }

  lemma UnknownIsTold(g: Graph, w: Walk, name: string, s: Source)
    requires AllTold(g, w.order, w.errors) && (forall f :: f in g.fields ==> f in w.order) && ReadsUnknown(g, name, s)
    ensures Diagnostic(ECM004, name) in w.errors
  {
    var f, r :| Reads(g, f, r) && r.name == name && s in r.sources;
    assert Told(g, w.order, w.errors, f) && SourceTold(g, w.order, w.errors, f, r, s);
  }

  /** The last field of a cycle is finished before the first, so that its source was on the path. */
  lemma CycleIsTold(ds: seq<Descriptor>, g: Graph, w: Walk, cycle: seq<string>, name: string, s: Source)
    requires Sound(ds, g, w) && w.path == [] && (forall f :: f in g.fields ==> f in w.order)
    requires Closes(g, cycle, name, s) && EnteredFirst(w.seen, cycle) && !Carried(g, s)
    ensures Diagnostic(if s.temporal then ECM007 else ECM006, name) in w.errors
  {
    hide Carried, Witness, AllJustified, Backed, EnteredFirst, Nested, LookedAt, Depends, Rising;
    var y := cycle[|cycle| - 1];
    assert Finished(g, w.seen, w.order) by { WalkIsFinished(ds, g, w); }
    CycleEndsAtItsEntry(g, w.seen, w.order, cycle, |cycle| - 1);
    assert Walkable(g, y) && Walkable(g, cycle[0]);
    var r :| Reads(g, y, r) && r.name == name && s in r.sources;
    assert Told(g, w.order, w.errors, y) && SourceTold(g, w.order, w.errors, y, r, s);
  }

  lemma WalkIsFinished(ds: seq<Descriptor>, g: Graph, w: Walk)
    requires Sound(ds, g, w) && w.path == [] && (forall f :: f in g.fields ==> f in w.order)
    ensures Finished(g, w.seen, w.order)
  {
    hide Chain, Witness, Backed, AllJustified, Rising, Nested, LookedAt, AllTold;
  }

  lemma ErrorsOfWalk(ds: seq<Descriptor>, g: Graph, w: Walk)
    requires Sound(ds, g, w)
    ensures AllJustified(ds, g, w.seen, w.errors)
  {
    hide AllJustified;
  }

  /** The check.  It accepts exactly the models whose names are sound, whose fields are produced,
      and whose cycles are all carried over where the walk enters them; acceptance means there
      is an order of provenance, `Assumed` that it rests on an assumption.  Otherwise every
      defect is reported, and nothing that is none. */
  method CheckReferences(ds: seq<Descriptor>, o: Options) returns (r: Result<Status, seq<Diagnostic>>)
    ensures ds == [] ==> r == Err([Diagnostic(ECM001, "registry")])
    ensures var g := GraphOf(ById(ds), o);
            r.Ok? <==> ds != [] && WellNamed(ById(ds), g) && Sourced(g, Sorted(g.fields.Keys))
    ensures r.Ok? ==> exists order :: CompleteOrder(GraphOf(ById(ds), o), order)
    ensures r.Ok? ==> (r.value.Assumed? <==> Assumes(GraphOf(ById(ds), o)))
    ensures r.Err? ==> r.error != []
    ensures r.Err? && ds != [] ==>
              var g := GraphOf(ById(ds), o);
              forall d :: d in r.error <==> Justified(ById(ds), g, Discover(g, [], Sorted(g.fields.Keys)), d)
  {
    hide Justified, Sound, Produced, SafeCycles, Witness, GraphOf, WellNamed, Populated, Assumes, Discover, ById,
      Sorted, NamesTold;
    var sorted := ById(ds);
    SameEmptiness(ds);
    if ds == [] {
      EmptyIsJustified(GraphOf(sorted, o), Discover(GraphOf(sorted, o), [], Sorted(GraphOf(sorted, o).fields.Keys)));
      return Err([Diagnostic(ECM001, "registry")]);
    }
    var g, errors := BuildGraph(sorted, o);
    var e := EvaluateFields(g, errors, sorted);
    ErrorsOfWalk(sorted, g, e.Value());
    if e.errors != [] {
      assert e.errors[0] in e.errors;
      JustifiedRefutes(sorted, g, Sorted(g.fields.Keys), e.errors[0]);
      NamesToldLater(sorted, g, errors, e.errors);
      forall d | Justified(sorted, g, e.seen, d) ensures d in e.errors {
        DefectsAreTold(sorted, g, e.Value(), d);
      }
      return Err(e.errors);
    }
    ConclusionOfWalk(sorted, g, e.Value());
    return Ok(if e.usedAssumption then Assumed else Verified);
  }

  lemma SameEmptiness(ds: seq<Descriptor>)
    ensures ById(ds) == [] <==> ds == []
  {
    assert |ById(ds)| == |multiset(ById(ds))| == |multiset(ds)| == |ds|;
  }

  lemma EmptyIsJustified(g: Graph, seen: seq<string>)
    ensures Justified([], g, seen, Diagnostic(ECM001, "registry"))
  {
  }
}
