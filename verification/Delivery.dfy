/** The delivery sequence a projection reads: globally ordered, source-scoped positions, with
    the promise that nothing turns up late at or below a reported frontier. */
module Delivery {
  import opened Streams

  datatype Envelope = Envelope(position: nat, stream: StreamId, payload: Payload)

  datatype Selection = Selection(id: string, matches: Envelope -> bool)

  /** What a source has committed, by position, and the greatest frontier it has reported. */
  datatype Feed = Feed(events: map<nat, Envelope>, frontier: nat)

  ghost predicate WellPlaced(f: Feed) {
    forall n :: n in f.events ==> n > 0 && f.events[n].position == n
  }

  /** Committed events stay as they are and new ones appear above the reported frontier. */
  ghost predicate Grown(f: Feed, g: Feed) {
    && f.frontier <= g.frontier
    && (forall n :: n in f.events ==> n in g.events && g.events[n] == f.events[n])
    && (forall n :: n in g.events && n <= f.frontier ==> n in f.events)
  }

  lemma GrownTransitive(f: Feed, g: Feed, h: Feed)
    requires Grown(f, g) && Grown(g, h)
    ensures Grown(f, h)
  {
  }

  predicate Chosen(events: map<nat, Envelope>, sel: Selection, n: nat) {
    n in events && sel.matches(events[n])
  }

  /** The selected positions above `lo` up to and including `hi`, ascending. */
  function SelectedIn(events: map<nat, Envelope>, sel: Selection, lo: nat, hi: nat): seq<nat>
    decreases hi
  {
    if hi <= lo then []
    else SelectedIn(events, sel, lo, hi - 1) + (if Chosen(events, sel, hi) then [hi] else [])
  }

  lemma {:induction false} SelectedSplit(events: map<nat, Envelope>, sel: Selection, lo: nat, mid: nat, hi: nat)
    requires lo <= mid <= hi
    ensures SelectedIn(events, sel, lo, hi) == SelectedIn(events, sel, lo, mid) + SelectedIn(events, sel, mid, hi)
    decreases hi
  {
    if mid < hi { SelectedSplit(events, sel, lo, mid, hi - 1); }
  }

  /** Exactly the selected positions in range, each once, in ascending order. */
  lemma {:induction false} SelectedExactly(events: map<nat, Envelope>, sel: Selection, lo: nat, hi: nat)
    ensures var s := SelectedIn(events, sel, lo, hi);
            && (forall n :: n in s <==> lo < n <= hi && Chosen(events, sel, n))
            && (forall i, j :: 0 <= i < j < |s| ==> s[i] < s[j])
    decreases hi
  {
    if lo < hi {
      SelectedExactly(events, sel, lo, hi - 1);
      var s := SelectedIn(events, sel, lo, hi - 1);
      assert forall i :: 0 <= i < |s| ==> s[i] in s;
    }
  }

  /** Between two entries of a page, and before its first, nothing else is selected. */
  lemma NextOnPage(events: map<nat, Envelope>, sel: Selection, lo: nat, hi: nat, i: nat, n: nat)
    requires i < |SelectedIn(events, sel, lo, hi)|
    requires (if i == 0 then lo else SelectedIn(events, sel, lo, hi)[i - 1]) < n < SelectedIn(events, sel, lo, hi)[i]
    ensures !Chosen(events, sel, n)
  {
    SelectedExactly(events, sel, lo, hi);
    var s := SelectedIn(events, sel, lo, hi);
    assert s[i] in s;
    if Chosen(events, sel, n) {
      assert i > 0 ==> s[i - 1] in s;
      assert n in s;
      var k :| 0 <= k < |s| && s[k] == n;
    }
  }

  lemma {:induction false} SelectedNone(events: map<nat, Envelope>, sel: Selection, lo: nat, hi: nat)
    requires forall n :: lo < n <= hi ==> !Chosen(events, sel, n)
    ensures SelectedIn(events, sel, lo, hi) == []
    decreases hi
  {
    if lo < hi { SelectedNone(events, sel, lo, hi - 1); }
  }

  /** What lies at or below a reported frontier never changes. */
  lemma {:induction false} SelectedStable(f: Feed, g: Feed, sel: Selection, lo: nat, hi: nat)
    requires Grown(f, g) && hi <= f.frontier
    ensures SelectedIn(g.events, sel, lo, hi) == SelectedIn(f.events, sel, lo, hi)
    decreases hi
  {
    if lo < hi { SelectedStable(f, g, sel, lo, hi - 1); }
  }

  class ProjectionSource {
    const id: string
    var events: map<nat, Envelope>
    var frontier: nat

    ghost predicate Valid()
      reads this
    {
      WellPlaced(Value())
    }

    function Value(): Feed
      reads this
    {
      Feed(events, frontier)
    }

    constructor (id: string)
      ensures Valid() && Value() == Feed(map[], 0) && this.id == id
    {
      this.id, events, frontier := id, map[], 0;
    }

    /** Other transactions commit events while a projection awaits. */
    method Commit(arrivals: seq<Envelope>)
      requires Valid()
      modifies this`events
      ensures Valid() && Grown(old(Value()), Value())
      ensures arrivals == [] ==> events == old(events)
    {
      var i := 0;
      while i < |arrivals|
        invariant Valid() && Grown(old(Value()), Value())
        invariant arrivals == [] ==> events == old(events)
      {
        var n := arrivals[i].position;
        if n > frontier && n !in events {
          events := events[n := arrivals[i]];
        }
        i := i + 1;
      }
    }

    /** The greatest committed position of the whole sequence. */
    method HighWatermark() returns (w: Option<nat>)
      requires Valid() && frontier in events.Keys + {0}
      modifies this`frontier
      ensures Valid() && Grown(old(Value()), Value()) && frontier in events.Keys + {0}
      ensures w.None? <==> events == map[]
      ensures w.Some? ==> w.value in events && w.value == frontier && forall n :: n in events ==> n <= w.value
    {
      if events == map[] {
        return None;
      }
      var greatest :| greatest in events;
      var rest := events.Keys;
      while rest != {}
        invariant rest <= events.Keys && greatest in events
        invariant forall n :: n in events && n !in rest ==> n <= greatest
        decreases rest
      {
        var n :| n in rest;
        greatest := if n > greatest then n else greatest;
        rest := rest - {n};
      }
      frontier := greatest;
      return Some(greatest);
    }

    /** One page: the first `limit` selected events after `after` and up to `through`. */
    method ReadEnvelopes(sel: Selection, after: nat, through: nat, limit: nat) returns (page: seq<Envelope>)
      requires Valid()
      ensures var s := SelectedIn(events, sel, after, through);
              && |page| == (if |s| <= limit then |s| else limit)
              && forall i :: 0 <= i < |page| ==> s[i] in events && page[i] == events[s[i]]
    {
      page := [];
      var n := after;
      ghost var s := SelectedIn(events, sel, after, through);
      while n < through && |page| < limit
        invariant after <= n && n <= (if after <= through then through else after)
        invariant |page| == |SelectedIn(events, sel, after, n)| <= limit
        invariant n <= through ==> s == SelectedIn(events, sel, after, n) + SelectedIn(events, sel, n, through)
        invariant forall i :: 0 <= i < |page| ==>
                    var k := SelectedIn(events, sel, after, n)[i]; k in events && page[i] == events[k]
      {
        n := n + 1;
        SelectedSplit(events, sel, after, n, through);
        if n in events && sel.matches(events[n]) {
          page := page + [events[n]];
        }
      }
    }
  }
}
