/** Sequences sorted strictly by a numeric key. */
module Sorting {
  import opened Streams

  ghost predicate SortedBy<T>(xs: seq<T>, key: T -> nat) {
    forall i, j :: 0 <= i < j < |xs| ==> key(xs[i]) < key(xs[j])
  }

  lemma SortedTail<T>(xs: seq<T>, key: T -> nat)
    requires SortedBy(xs, key) && xs != []
    ensures SortedBy(xs[1..], key) && Elements(xs[1..]) == Elements(xs) - {xs[0]}
    ensures forall x :: x in Elements(xs) ==> x == xs[0] || key(xs[0]) < key(x)
  {
    assert xs == [xs[0]] + xs[1..];
  }

  /** If everything new lies above everything old, the old sequence is a prefix of the new one. */
  lemma {:induction false} SortedPrefix<T>(a: seq<T>, b: seq<T>, key: T -> nat)
    requires SortedBy(a, key) && SortedBy(b, key) && Elements(a) <= Elements(b)
    requires forall x, y :: x in Elements(a) && y in Elements(b) - Elements(a) ==> key(x) < key(y)
    ensures a <= b
    decreases |a|
  {
    if a != [] {
      SameFirst(a, b, key);
      SortedTail(a, key);
      SortedTail(b, key);
      SortedPrefix(a[1..], b[1..], key);
      PrefixFrom(a, b);
    }
  }

  lemma PrefixFrom<T>(a: seq<T>, b: seq<T>)
    requires a != [] && b != [] && a[0] == b[0] && a[1..] <= b[1..]
    ensures a <= b
  {
    assert a == [a[0]] + a[1..] && b == [a[0]] + b[1..];
  }

  lemma SameFirst<T>(a: seq<T>, b: seq<T>, key: T -> nat)
    requires SortedBy(a, key) && SortedBy(b, key) && Elements(a) <= Elements(b) && a != []
    requires forall x, y :: x in Elements(a) && y in Elements(b) - Elements(a) ==> key(x) < key(y)
    ensures b != [] && a[0] == b[0]
  {
    assert a[0] in Elements(a) && a[0] in Elements(b);
    assert b[0] in Elements(b);
    SortedTail(a, key);
    SortedTail(b, key);
  }

  lemma SortedIsUnique<T>(a: seq<T>, b: seq<T>, key: T -> nat)
    requires SortedBy(a, key) && SortedBy(b, key) && Elements(a) == Elements(b)
    ensures a == b
  {
    SortedPrefix(a, b, key);
    SortedPrefix(b, a, key);
  }

  method InsertBy<T>(xs: seq<T>, x: T, key: T -> nat) returns (r: seq<T>)
    requires SortedBy(xs, key) && forall y :: y in xs ==> key(y) != key(x)
    ensures SortedBy(r, key) && Elements(r) == Elements(xs) + {x}
  {
    var i := 0;
    while i < |xs| && key(xs[i]) < key(x)
      invariant 0 <= i <= |xs| && forall k :: 0 <= k < i ==> key(xs[k]) < key(x)
    {
      i := i + 1;
    }
    r := xs[..i] + [x] + xs[i..];
    assert i < |xs| ==> xs[i] in xs;
    Inserted(xs, i, x, key, r);
  }

  lemma Inserted<T>(xs: seq<T>, i: nat, x: T, key: T -> nat, r: seq<T>)
    requires SortedBy(xs, key) && i <= |xs| && r == xs[..i] + [x] + xs[i..]
    requires forall k :: 0 <= k < i ==> key(xs[k]) < key(x)
    requires i < |xs| ==> key(x) < key(xs[i])
    ensures SortedBy(r, key) && Elements(r) == Elements(xs) + {x}
  {
    InsertedElements(xs, i, x, r);
    forall a, b | 0 <= a < b < |r| ensures key(r[a]) < key(r[b]) {
      InsertedAt(xs, i, x, r, a);
      InsertedAt(xs, i, x, r, b);
    }
  }

  lemma InsertedAt<T>(xs: seq<T>, i: nat, x: T, r: seq<T>, k: nat)
    requires i <= |xs| && r == xs[..i] + [x] + xs[i..] && k < |r|
    ensures r[k] == if k < i then xs[k] else if k == i then x else xs[k - 1]
  {
  }

  lemma InsertedElements<T>(xs: seq<T>, i: nat, x: T, r: seq<T>)
    requires i <= |xs| && r == xs[..i] + [x] + xs[i..]
    ensures Elements(r) == Elements(xs) + {x}
  {
    assert xs == xs[..i] + xs[i..];
  }
}
