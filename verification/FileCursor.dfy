/** Reading a file store through its cursor. */
module FileCursor {
  import opened Streams
  import opened Sorting
  import opened TransactionGraph
  import opened FileIndex
  import opened FileStore

  // ------------------------------------------------------------- the cursor

  /** The wanted entries among the first `n` of a view whose number lies above `after`. */
  function Matching(view: seq<Positioned>, n: nat, after: nat, wanted: FileEvent -> bool): seq<Positioned>
    requires n <= |view|
  {
    if n == 0 then []
    else
      Matching(view, n - 1, after, wanted)
      + (if view[n - 1].number > after && wanted(view[n - 1].event) then [view[n - 1]] else [])
  }

  function Page(view: seq<Positioned>, after: nat, wanted: FileEvent -> bool, limit: nat): seq<Positioned> {
    var all := Matching(view, |view|, after, wanted);
    if |all| <= limit then all else all[..limit]
  }

  /** The first wanted entries above `after`: as many as there are, up to the limit. */
  ghost predicate IsFirstPage(page: seq<Positioned>, view: seq<Positioned>, after: nat, wanted: FileEvent -> bool,
                              limit: nat) {
    exists all ::
      && IsFiltered(all, view, (p: Positioned) => p.number > after && wanted(p.event))
      && |page| == (if |all| <= limit then |all| else limit) && page <= all
  }

  lemma {:induction false} MatchingIsFiltered(view: seq<Positioned>, n: nat, after: nat, wanted: FileEvent -> bool)
    requires n <= |view|
    ensures IsFiltered(Matching(view, n, after, wanted), view[..n], (p: Positioned) => p.number > after
              && wanted(p.event))
  {
    hide IsFiltered;
    var keep := (p: Positioned) => p.number > after && wanted(p.event);
    if n == 0 {
      FilteredNone(keep);
      assert view[..0] == [];
    } else {
      MatchingIsFiltered(view, n - 1, after, wanted);
      FilteredSnoc(Matching(view, n - 1, after, wanted), view[..n - 1], keep, view[n - 1]);
      assert view[..n - 1] + [view[n - 1]] == view[..n];
    }
  }

  lemma PageIsFirst(view: seq<Positioned>, after: nat, wanted: FileEvent -> bool, limit: nat)
    ensures IsFirstPage(Page(view, after, wanted, limit), view, after, wanted, limit)
  {
    hide IsFiltered;
    MatchingIsFiltered(view, |view|, after, wanted);
    assert view[..|view|] == view;
  }

  /** One page, read off the view from its beginning. */
  method ReadEvents(view: seq<Positioned>, after: nat, wanted: FileEvent -> bool, limit: nat)
    returns (page: seq<Positioned>)
    ensures page == Page(view, after, wanted, limit) && IsFirstPage(page, view, after, wanted, limit)
  {
    hide IsFirstPage;
    PageIsFirst(view, after, wanted, limit);
    page := [];
    var i := 0;
    while i < |view| && |page| < limit
      invariant 0 <= i <= |view| && |page| <= limit && page == Matching(view, i, after, wanted)
    {
      if view[i].number > after && wanted(view[i].event) {
        page := page + [view[i]];
      }
      i := i + 1;
    }
    MatchingPrefix(view, i, |view|, after, wanted);
  }

  lemma {:induction false} MatchingPrefix(view: seq<Positioned>, n: nat, m: nat, after: nat, wanted: FileEvent -> bool)
    requires n <= m <= |view|
    ensures Matching(view, n, after, wanted) <= Matching(view, m, after, wanted)
  {
    if n < m { MatchingPrefix(view, n, m - 1, after, wanted); }
  }

  lemma {:induction false} MatchingAgree(a: seq<Positioned>, b: seq<Positioned>, n: nat, after: nat,
                                         wanted: FileEvent -> bool)
    requires n <= |a| && n <= |b| && a[..n] == b[..n]
    ensures Matching(a, n, after, wanted) == Matching(b, n, after, wanted)
  {
    if n > 0 {
      assert a[..n][n - 1] == b[..n][n - 1];
      assert a[..n - 1] == a[..n][..n - 1] && b[..n - 1] == b[..n][..n - 1];
      MatchingAgree(a, b, n - 1, after, wanted);
    }
  }

  /** Splitting the walk at a cursor that sits on entry `k - 1`: what lies above it is what the
      rest of the view contributes. */
  lemma {:induction false} MatchingSplit(view: seq<Positioned>, k: nat, n: nat, after: nat, wanted: FileEvent -> bool)
    requires SortedBy(view, Number) && k <= n <= |view|
    requires forall i :: 0 <= i < k ==> view[i].number <= after
    requires forall i :: k <= i < |view| ==> view[i].number > after
    ensures Matching(view, n, 0, wanted) == Matching(view, k, 0, wanted) + Matching(view, n, after, wanted)
    decreases n
  {
    if n == k {
      MatchingNone(view, k, after, wanted);
    } else {
      MatchingSplit(view, k, n - 1, after, wanted);
      assert view[n - 1].number > after;
    }
  }

  lemma {:induction false} MatchingNone(view: seq<Positioned>, k: nat, after: nat, wanted: FileEvent -> bool)
    requires k <= |view| && forall i :: 0 <= i < k ==> view[i].number <= after
    ensures Matching(view, k, after, wanted) == []
  {
    if k > 0 { MatchingNone(view, k - 1, after, wanted); }
  }

  /** A page that stops early ends exactly at an entry of the view. */
  lemma {:induction false} PageEnds(view: seq<Positioned>, n: nat, after: nat, wanted: FileEvent -> bool, limit: nat)
    returns (m: nat)
    requires n <= |view| && 0 < limit <= |Matching(view, n, after, wanted)|
    ensures 0 < m <= n && Matching(view, m, after, wanted) == Matching(view, n, after, wanted)[..limit]
    ensures Matching(view, m, after, wanted)[limit - 1] == view[m - 1] && view[m - 1].number > after
  {
    if |Matching(view, n - 1, after, wanted)| >= limit {
      m := PageEnds(view, n - 1, after, wanted, limit);
      MatchingPrefix(view, n - 1, n, after, wanted);
    } else {
      m := n;
    }
  }

  /** A projection's life with the store: the view grows (appends, merges with reopen), and the
      reader polls a page from its last position. */
  datatype Reading =
    | Started(view: seq<Positioned>)
    | Grew(before: Reading, view: seq<Positioned>)
    | Polled(before: Reading, limit: nat)

  function ViewOf(r: Reading): seq<Positioned> {
    if r.Polled? then ViewOf(r.before) else r.view
  }

  function CursorOf(r: Reading, wanted: FileEvent -> bool): nat {
    match r
    case Started(_) => 0
    case Grew(before, _) => CursorOf(before, wanted)
    case Polled(before, limit) =>
      var page := Page(ViewOf(before), CursorOf(before, wanted), wanted, limit);
      if page == [] then CursorOf(before, wanted) else page[|page| - 1].number
  }

  function DeliveredTo(r: Reading, wanted: FileEvent -> bool): seq<Positioned> {
    match r
    case Started(_) => []
    case Grew(before, _) => DeliveredTo(before, wanted)
    case Polled(before, limit) =>
      DeliveredTo(before, wanted) + Page(ViewOf(before), CursorOf(before, wanted), wanted, limit)
  }

  /** Views are sorted, numbered from 1, and only grow at their end. */
  ghost predicate Legal(r: Reading) {
    match r
    case Started(view) => SortedBy(view, Number) && forall p :: p in view ==> p.number > 0
    case Grew(before, view) =>
      Legal(before) && ViewOf(before) <= view && SortedBy(view, Number) && forall p :: p in view ==> p.number > 0
    case Polled(before, _) => Legal(before)
  }

  /** The cursor separates the first `k` entries of the view, delivered where wanted, from the rest. */
  ghost predicate CursorAt(view: seq<Positioned>, cursor: nat, delivered: seq<Positioned>, wanted: FileEvent -> bool,
                           k: nat) {
    && k <= |view|
    && (forall i :: 0 <= i < k ==> view[i].number <= cursor)
    && (forall i :: k <= i < |view| ==> view[i].number > cursor)
    && (if k == 0 then cursor == 0 else cursor == view[k - 1].number)
    && delivered == Matching(view, k, 0, wanted)
  }

  lemma {:induction false} NeverSkipsNorRepeats(r: Reading, wanted: FileEvent -> bool) returns (k: nat)
    requires Legal(r)
    ensures CursorAt(ViewOf(r), CursorOf(r, wanted), DeliveredTo(r, wanted), wanted, k)
    ensures SortedBy(ViewOf(r), Number)
    decreases r
  {
    match r {
      case Started(view) =>
        k := 0;
        assert forall i :: 0 <= i < |view| ==> view[i] in view;
      case Grew(before, view) =>
        k := NeverSkipsNorRepeats(before, wanted);
        GrowthKeepsCursor(ViewOf(before), view, CursorOf(before, wanted), DeliveredTo(before, wanted), wanted, k);
      case Polled(before, limit) =>
        k := NeverSkipsNorRepeats(before, wanted);
        k := PollAdvances(ViewOf(before), CursorOf(before, wanted), DeliveredTo(before, wanted), wanted, limit, k);
    }
  }

  lemma GrowthKeepsCursor(earlier: seq<Positioned>, view: seq<Positioned>, cursor: nat, delivered: seq<Positioned>,
                          wanted: FileEvent -> bool, k: nat)
    requires CursorAt(earlier, cursor, delivered, wanted, k) && earlier <= view
    requires SortedBy(view, Number) && forall p :: p in view ==> p.number > 0
    ensures CursorAt(view, cursor, delivered, wanted, k)
  {
    assert view[..k] == earlier[..k];
    MatchingAgree(earlier, view, k, 0, wanted);
    assert forall i :: 0 <= i < |view| ==> view[i] in view;
  }

  lemma PollAdvances(view: seq<Positioned>, cursor: nat, delivered: seq<Positioned>, wanted: FileEvent -> bool,
                     limit: nat, k: nat)
    returns (m: nat)
    requires SortedBy(view, Number) && CursorAt(view, cursor, delivered, wanted, k)
    ensures var page := Page(view, cursor, wanted, limit);
            CursorAt(view, if page == [] then cursor else page[|page| - 1].number, delivered + page, wanted, m)
  {
    hide Matching;
    var page := Page(view, cursor, wanted, limit);
    if page == [] {
      m := k;
      assert delivered + page == delivered;
    } else {
      m := PageEnds(view, |view|, cursor, wanted, |page|);
      assert page == Matching(view, m, cursor, wanted);
      MatchingSplit(view, k, m, cursor, wanted);
    }
  }

  /** A reader that drains, in any number of pages and whatever grew in between, was delivered
      every wanted event of the view exactly once, in view order. */
  lemma DrainedReaderSawEverything(r: Reading, wanted: FileEvent -> bool, limit: nat)
    requires Legal(r) && limit > 0 && Page(ViewOf(r), CursorOf(r, wanted), wanted, limit) == []
    ensures DeliveredTo(r, wanted) == Matching(ViewOf(r), |ViewOf(r)|, 0, wanted)
  {
    var k := NeverSkipsNorRepeats(r, wanted);
    MatchingSplit(ViewOf(r), k, |ViewOf(r)|, CursorOf(r, wanted), wanted);
  }

  // ------------------------------------------------------------- a reader of a real store

  /** A working copy's life from its opening, with a reader beside it: the copy moves on by
      appends, merge transactions, unions and reopens, and the reader asks for pages. */
  datatype Life = Opened(stage: Stage) | Moved(before: Life, stage: Stage) | Asked(before: Life, limit: nat)

  function StageOf(l: Life): Stage {
    if l.Asked? then StageOf(l.before) else l.stage
  }

  ghost predicate IsLife(l: Life, rank: Uuid -> nat) {
    match l
    case Opened(stage) => IsStage(stage, rank)
    case Moved(before, stage) => IsLife(before, rank) && IsStage(stage, rank) && Follows(StageOf(before), stage)
    case Asked(before, _) => IsLife(before, rank)
  }

  function ReadingOf(l: Life): Reading {
    match l
    case Opened(stage) => Started(stage.index.byIngestion)
    case Moved(before, stage) => Grew(ReadingOf(before), stage.index.byIngestion)
    case Asked(before, limit) => Polled(ReadingOf(before), limit)
  }

  /** Whatever happens to a store, the views it shows are a legal reading. */
  lemma {:induction false} StoreViewsAreLegal(l: Life, rank: Uuid -> nat)
    requires IsLife(l, rank)
    ensures Legal(ReadingOf(l)) && ViewOf(ReadingOf(l)) == StageOf(l).index.byIngestion && IsStage(StageOf(l), rank)
  {
    match l {
      case Opened(stage) =>
        NumbersArePositive(stage, rank);
      case Moved(before, stage) =>
        StoreViewsAreLegal(before, rank);
        NumbersArePositive(stage, rank);
        StagesGrow(StageOf(before), stage, rank);
      case Asked(before, _) =>
        StoreViewsAreLegal(before, rank);
    }
  }

  lemma NumbersArePositive(s: Stage, rank: Uuid -> nat)
    requires IsStage(s, rank)
    ensures SortedBy(s.index.byIngestion, Number) && forall p :: p in s.index.byIngestion ==> p.number > 0
  {
    LoggedNumbers(s.entries);
    forall p | p in s.index.byIngestion ensures p.number > 0 { assert p in Elements(s.index.byIngestion); }
  }

  lemma {:induction false} MatchingMember(view: seq<Positioned>, n: nat, wanted: FileEvent -> bool, p: Positioned)
    requires n <= |view| && forall q :: q in view ==> q.number > 0
    ensures p in Matching(view, n, 0, wanted) <==> p in view[..n] && wanted(p.event)
  {
    if n > 0 {
      MatchingMember(view, n - 1, wanted, p);
      assert view[..n] == view[..n - 1] + [view[n - 1]] && view[n - 1] in view;
    }
  }

  lemma {:induction false} MatchingIsSorted(view: seq<Positioned>, n: nat, wanted: FileEvent -> bool)
    requires SortedBy(view, Number) && n <= |view| && forall p :: p in view ==> p.number > 0
    ensures SortedBy(Matching(view, n, 0, wanted), Number)
  {
    if n > 0 {
      MatchingIsSorted(view, n - 1, wanted);
      MatchingIsBelow(view, n - 1, wanted);
    }
  }

  lemma MatchingIsBelow(view: seq<Positioned>, n: nat, wanted: FileEvent -> bool)
    requires SortedBy(view, Number) && n < |view| && forall p :: p in view ==> p.number > 0
    ensures forall p :: p in Matching(view, n, 0, wanted) ==> p.number < view[n].number
  {
    hide Matching;
    forall p | p in Matching(view, n, 0, wanted) ensures p.number < view[n].number {
      MatchingMember(view, n, wanted, p);
      var k :| 0 <= k < n && view[..n][k] == p;
      assert Number(view[k]) < Number(view[n]);
    }
  }

  /** After any life, a drained reader was delivered every wanted event of the directory, each
      exactly once. */
  lemma DrainedReaderSawTheDirectory(l: Life, rank: Uuid -> nat, wanted: FileEvent -> bool, limit: nat)
    requires IsLife(l, rank) && limit > 0
    requires Page(ViewOf(ReadingOf(l)), CursorOf(ReadingOf(l), wanted), wanted, limit) == []
    ensures var delivered := DeliveredTo(ReadingOf(l), wanted);
            && (forall e :: (exists i :: 0 <= i < |delivered| && delivered[i].event == e) <==>
                 e in EventsOf(StageOf(l).files) && wanted(e))
            && (forall i, j :: 0 <= i < j < |delivered| ==> delivered[i].event != delivered[j].event)
  {
    var view, delivered, s := ViewOf(ReadingOf(l)), DeliveredTo(ReadingOf(l), wanted), StageOf(l);
    StoreViewsAreLegal(l, rank);
    NumbersArePositive(s, rank);
    DrainedReaderSawEverything(ReadingOf(l), wanted, limit);
    MatchingIsSorted(view, |view|, wanted);
    forall p ensures p in delivered <==> p in view && wanted(p.event) {
      MatchingMember(view, |view|, wanted, p);
      assert view[..|view|] == view;
    }
    DeliveredIsWanted(s, rank, delivered, wanted);
  }

  lemma DeliveredIsWanted(s: Stage, rank: Uuid -> nat, delivered: seq<Positioned>, wanted: FileEvent -> bool)
    requires IsStage(s, rank) && SortedBy(delivered, Number)
    requires forall p :: p in delivered <==> p in s.index.byIngestion && wanted(p.event)
    ensures forall e :: (exists i :: 0 <= i < |delivered| && delivered[i].event == e) <==>
              e in EventsOf(s.files) && wanted(e)
    ensures forall i, j :: 0 <= i < j < |delivered| ==> delivered[i].event != delivered[j].event
  {
    var view, numbers := s.index.byIngestion, s.index.numbers;
    forall e | e in EventsOf(s.files) && wanted(e) ensures exists i :: 0 <= i < |delivered| && delivered[i].event == e {
      var p := Positioned(numbers[e.id], e);
      assert p in Elements(view) && p in delivered;
    }
    forall i | 0 <= i < |delivered|
      ensures delivered[i].event in EventsOf(s.files) && wanted(delivered[i].event)
      ensures delivered[i].event.id in numbers && numbers[delivered[i].event.id] == delivered[i].number
    {
      assert delivered[i] in delivered && delivered[i] in Elements(view);
    }
  }

  // ------------------------------------------------------------- positions as bytes

  /** The `k` low-order base-256 digits of `n`, most significant first. */
  function BigEndian(n: nat, k: nat): seq<nat> {
    if k == 0 then [] else BigEndian(n / 256, k - 1) + [n % 256]
  }

  ghost predicate BytesLess(a: seq<nat>, b: seq<nat>)
    requires |a| == |b|
  {
    exists i :: 0 <= i < |a| && a[..i] == b[..i] && a[i] < b[i]
  }

  function Power(k: nat): nat {
    if k == 0 then 1 else 256 * Power(k - 1)
  }

  const MAX_SEQ: nat := 0x1_0000_0000_0000_0000

  /** Eight bytes of sequence number, eight zero bytes. */
  method PositionFromSeq(n: nat) returns (bytes: seq<nat>)
    requires n < MAX_SEQ
    ensures bytes == BigEndian(n, 8) + seq(8, _ => 0)
  {
    var digits: seq<nat> := [];
    var rest := n;
    var k := 0;
    while k < 8
      invariant 0 <= k <= 8
      invariant BigEndian(n, 8) == BigEndian(rest, 8 - k) + digits
    {
      digits := [rest % 256] + digits;
      rest := rest / 256;
      k := k + 1;
    }
    bytes := digits + seq(8, _ => 0);
  }

  /** The number that bytes stand for. */
  function NumberIn(bytes: seq<nat>): nat {
    if bytes == [] then 0 else 256 * NumberIn(bytes[..|bytes| - 1]) + bytes[|bytes| - 1]
  }

  /** The digits are bytes, and give the number back. */
  lemma {:induction false} DigitsGiveNumber(n: nat, k: nat)
    requires n < Power(k)
    ensures |BigEndian(n, k)| == k && NumberIn(BigEndian(n, k)) == n
    ensures forall i :: 0 <= i < k ==> BigEndian(n, k)[i] < 256
  {
    if k > 0 {
      DigitsGiveNumber(n / 256, k - 1);
      assert BigEndian(n, k)[..k - 1] == BigEndian(n / 256, k - 1);
    }
  }

  lemma {:induction false} BigEndianLength(n: nat, k: nat)
    ensures |BigEndian(n, k)| == k
  {
    if k > 0 { BigEndianLength(n / 256, k - 1); }
  }

  lemma {:induction false} BigEndianOrder(n: nat, m: nat, k: nat)
    requires n < m < Power(k)
    ensures |BigEndian(n, k)| == |BigEndian(m, k)| == k && BytesLess(BigEndian(n, k), BigEndian(m, k))
  {
    BigEndianLength(n, k);
    BigEndianLength(m, k);
    var a, b := BigEndian(n, k), BigEndian(m, k);
    if n / 256 < m / 256 {
      BigEndianOrder(n / 256, m / 256, k - 1);
      var c, d := BigEndian(n / 256, k - 1), BigEndian(m / 256, k - 1);
      var i :| 0 <= i < |c| && c[..i] == d[..i] && c[i] < d[i];
      assert a[..i] == c[..i] && b[..i] == d[..i];
    } else {
      assert a[..k - 1] == b[..k - 1];
    }
  }

  /** Position order is sequence order, and no event gets the nil position. */
  lemma PositionsFollowSequence(n: nat, m: nat)
    requires 0 < n < m < MAX_SEQ
    ensures |BigEndian(n, 8) + seq(8, _ => 0)| == |BigEndian(m, 8) + seq(8, _ => 0)| == 16
    ensures BytesLess(BigEndian(n, 8) + seq(8, _ => 0), BigEndian(m, 8) + seq(8, _ => 0))
    ensures BytesLess(BigEndian(0, 8) + seq(8, _ => 0), BigEndian(n, 8) + seq(8, _ => 0))
  {
    assert Power(8) == MAX_SEQ;
    Padded(n, m);
    Padded(0, n);
  }

  lemma Padded(n: nat, m: nat)
    requires n < m < Power(8)
    ensures |BigEndian(n, 8) + seq(8, _ => 0)| == |BigEndian(m, 8) + seq(8, _ => 0)| == 16
    ensures BytesLess(BigEndian(n, 8) + seq(8, _ => 0), BigEndian(m, 8) + seq(8, _ => 0))
  {
    BigEndianOrder(n, m, 8);
    var a, b, z := BigEndian(n, 8), BigEndian(m, 8), seq(8, _ => 0);
    var i :| 0 <= i < |a| && a[..i] == b[..i] && a[i] < b[i];
    assert (a + z)[..i] == a[..i] && (b + z)[..i] == b[..i];
  }
}
