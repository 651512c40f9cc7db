/** Strings compared character by character, and names in that order. */
module StringOrder {
  import opened Streams

  predicate Before(a: string, b: string) {
    b != [] && (a == [] || a[0] < b[0] || (a[0] == b[0] && Before(a[1..], b[1..])))
  }

  /** A string comes before its continuations, and otherwise the first difference decides. */
  lemma {:induction false} FirstDifferenceDecides(a: string, b: string, i: nat)
    requires i <= |a| && i < |b| && a[..i] == b[..i] && (i < |a| ==> a[i] != b[i])
    ensures Before(a, b) <==> i == |a| || a[i] < b[i]
    decreases i
  {
    if i > 0 {
      assert a[0] == a[..i][0] == b[..i][0] == b[0];
      assert a[1..][..i - 1] == a[..i][1..] && b[1..][..i - 1] == b[..i][1..];
      FirstDifferenceDecides(a[1..], b[1..], i - 1);
    }
  }

  lemma {:induction false} BeforeTransitive(a: string, b: string, c: string)
    requires Before(a, b) && Before(b, c)
    ensures Before(a, c)
    decreases |a|
  {
    if a != [] && a[0] == b[0] && b[0] == c[0] { BeforeTransitive(a[1..], b[1..], c[1..]); }
  }

  lemma {:induction false} BeforeTotal(a: string, b: string)
    ensures a == b || Before(a, b) || Before(b, a)
    decreases |a|
  {
    if a != [] && b != [] && a[0] == b[0] {
      BeforeTotal(a[1..], b[1..]);
      assert a == [a[0]] + a[1..] && b == [b[0]] + b[1..];
    }
  }

  lemma {:induction false} BeforeIrreflexive(a: string)
    ensures !Before(a, a)
    decreases |a|
  {
    if a != [] { BeforeIrreflexive(a[1..]); }
  }

  lemma BeforeAsymmetric(a: string, b: string)
    ensures !(Before(a, b) && Before(b, a))
  {
    BeforeIrreflexive(a);
    if Before(b, a) && Before(a, b) { BeforeTransitive(a, b, a); }
  }

  ghost predicate InOrder(order: seq<string>) {
    forall i, j :: 0 <= i < j < |order| ==> Before(order[i], order[j])
  }

  /** The names in string order. */
  ghost function Sorted(names: set<string>): (order: seq<string>)
    ensures InOrder(order) && Elements(order) == names
    decreases names
  {
    if names == {} then []
    else
      var x :| x in names;
      var rest := Sorted(names - {x});
      assert forall y :: y in rest ==> y in Elements(rest);
      Insert(rest, x)
  }

  ghost function Insert(order: seq<string>, x: string): (r: seq<string>)
    requires InOrder(order) && x !in order
    ensures InOrder(r) && Elements(r) == Elements(order) + {x}
  {
    var i := Rank(order, x);
    InsertedInOrder(order, i, x);
    order[..i] + [x] + order[i..]
  }

  /** How many names at the front come before `x`. */
  function Rank(order: seq<string>, x: string): (i: nat)
    ensures i <= |order| && (forall k :: 0 <= k < i ==> Before(order[k], x)) && (i < |order| ==> !Before(order[i], x))
  {
    if order == [] || !Before(order[0], x) then 0 else 1 + Rank(order[1..], x)
  }

  lemma InsertedInOrder(order: seq<string>, i: nat, x: string)
    requires InOrder(order) && x !in order && i <= |order|
    requires forall k :: 0 <= k < i ==> Before(order[k], x)
    requires i < |order| ==> !Before(order[i], x)
    ensures InOrder(order[..i] + [x] + order[i..])
    ensures Elements(order[..i] + [x] + order[i..]) == Elements(order) + {x}
  {
    var r := order[..i] + [x] + order[i..];
    assert order == order[..i] + order[i..];
    forall k | i <= k < |order| ensures Before(x, order[k]) {
      BeforeTotal(order[i], x);
      assert order[i] in order;
      if i < k { BeforeTransitive(x, order[i], order[k]); }
    }
  }

  /** There is one such order. */
  lemma {:induction false} OrderIsUnique(a: seq<string>, b: seq<string>)
    requires InOrder(a) && InOrder(b) && Elements(a) == Elements(b)
    ensures a == b
    decreases |a|
  {
    NothingListed(a);
    NothingListed(b);
    if a != [] {
      SameFirst(a, b);
      TailElements(a);
      TailElements(b);
      OrderIsUnique(a[1..], b[1..]);
      assert a == [a[0]] + a[1..] && b == [b[0]] + b[1..];
    }
  }

  lemma NothingListed(a: seq<string>)
    ensures Elements(a) == {} <==> a == []
  {
    if a != [] { assert a[0] in Elements(a); }
  }

  lemma SameFirst(a: seq<string>, b: seq<string>)
    requires InOrder(a) && InOrder(b) && Elements(a) == Elements(b) && a != [] && b != []
    ensures a[0] == b[0]
  {
    assert a[0] in Elements(b) && b[0] in Elements(a);
    BeforeAsymmetric(a[0], b[0]);
  }

  lemma TailElements(a: seq<string>)
    requires InOrder(a) && a != []
    ensures InOrder(a[1..]) && Elements(a[1..]) == Elements(a) - {a[0]}
  {
    BeforeIrreflexive(a[0]);
    assert a == [a[0]] + a[1..];
    assert a[0] !in a[1..];
  }

  /** Sorts a set of names. */
  method SortNames(names: set<string>) returns (order: seq<string>)
    ensures InOrder(order) && Elements(order) == names && order == Sorted(names)
  {
    order := [];
    var rest := names;
    while rest != {}
      invariant rest <= names && InOrder(order) && Elements(order) == names - rest
      decreases rest
    {
      var x :| x in rest;
      rest := rest - {x};
      assert forall y :: y in order ==> y in Elements(order);
      var i := Rank(order, x);
      InsertedInOrder(order, i, x);
      order := order[..i] + [x] + order[i..];
    }
    OrderIsUnique(order, Sorted(names));
  }
}
