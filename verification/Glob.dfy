/** Stream globs pushed down as anchored regular expressions: the text that is produced parses
    to an expression that accepts exactly what the glob accepts. */
module Glob {
  import opened Streams

  // ------------------------------------------------------------- globs

  datatype Member = One(c: char) | Range(low: char, high: char)

  datatype Item = Literal(c: char) | AnyString | AnyChar | Bracket(negated: bool, members: seq<Member>)

  predicate InMember(m: Member, c: char) {
    match m
    case One(d) => c == d
    case Range(low, high) => low <= c <= high
  }

  predicate InClass(negated: bool, members: seq<Member>, c: char) {
    (exists m :: m in members && InMember(m, c)) != negated
  }

  /** The whole string matches: `*` any string, `?` any character, a bracket one of a class. */
  ghost predicate GlobAccepts(glob: seq<Item>, s: string)
    decreases |glob|
  {
    if glob == [] then s == []
    else
      match glob[0]
      case Literal(c) => s != [] && s[0] == c && GlobAccepts(glob[1..], s[1..])
      case AnyChar => s != [] && GlobAccepts(glob[1..], s[1..])
      case Bracket(negated, members) => s != [] && InClass(negated, members, s[0]) && GlobAccepts(glob[1..], s[1..])
      case AnyString => exists k :: 0 <= k <= |s| && GlobAccepts(glob[1..], s[k..])
  }

  /** Characters that stand for themselves inside a simple bracket. */
  predicate PlainInBracket(c: char) {
    c != ']' && c != '[' && c != '-'
  }

  predicate SimpleMember(m: Member) {
    match m
    case One(c) => PlainInBracket(c)
    case Range(low, high) =>
      && PlainInBracket(low) && PlainInBracket(high) && low != '\\' && high != '\\'
      && low != '^' && low != '!'
  }

  /** Literals other than the wildcards, and nonempty brackets of plain characters and ranges. */
  predicate SimpleItem(i: Item) {
    match i
    case Literal(c) => c != '*' && c != '?' && c != '['
    case Bracket(negated, members) =>
      && members != [] && (forall m :: m in members ==> SimpleMember(m))
      && (!negated ==> members[0] != One('!'))
    case _ => true
  }

  /** Ranges run upwards.  POSIX brackets (section 9.3.5 of POSIX.1-2017) refuse others. */
  predicate Ordered(members: seq<Member>) {
    forall m :: m in members ==> m.Range? ==> m.low <= m.high
  }

  predicate OrderedItem(i: Item) {
    i.Bracket? ==> Ordered(i.members)
  }

  ghost predicate RangesAreOrdered(glob: seq<Item>) {
    forall i :: i in glob ==> OrderedItem(i)
  }

  ghost predicate SimpleGlob(glob: seq<Item>) {
    forall i :: i in glob ==> SimpleItem(i)
  }

  function MemberText(m: Member): string {
    match m
    case One(c) => [c]
    case Range(low, high) => [low, '-', high]
  }

  function MembersText(members: seq<Member>): string {
    if members == [] then [] else MemberText(members[0]) + MembersText(members[1..])
  }

  function ItemText(i: Item): string {
    match i
    case Literal(c) => [c]
    case AnyString => "*"
    case AnyChar => "?"
    case Bracket(negated, members) => "[" + (if negated then "!" else "") + MembersText(members) + "]"
  }

  /** The glob as it is written. */
  function GlobText(glob: seq<Item>): string {
    if glob == [] then [] else ItemText(glob[0]) + GlobText(glob[1..])
  }

  // ------------------------------------------------------------- the translation

  predicate Meta(c: char) {
    c == '\\' || c == '^' || c == '$' || c == '.' || c == '+' || c == '(' || c == ')' || c == '|' || c == '{'
      || c == '}'
  }

  /** The first `]` at or after `from`, or the end. */
  function CloseAt(t: string, from: nat): (r: nat)
    requires from <= |t|
    ensures from <= r <= |t| && (forall k :: from <= k < r ==> t[k] != ']') && (r < |t| ==> t[r] == ']')
    decreases |t| - from
  {
    if from == |t| || t[from] == ']' then from else CloseAt(t, from + 1)
  }

  function ClassChar(c: char, first: bool): string {
    if first && c == '^' then "\\^" else if c == '\\' then "\\\\" else [c]
  }

  /** The class text, escaped; `first` holds at the start of a class that is not negated. */
  function EscapeClass(inner: string, first: bool): string {
    if inner == [] then [] else ClassChar(inner[0], first) + EscapeClass(inner[1..], false)
  }

  function BracketText(negated: bool, inner: string): string {
    "[" + (if negated then "^" else "") + EscapeClass(inner, !negated) + "]"
  }

  /** What one element of the glob becomes, and how many characters it takes up. */
  function Chunk(t: string): (r: (string, nat))
    requires t != []
    ensures 0 < r.1 <= |t|
  {
    if t[0] == '*' then (".*", 1)
    else if t[0] == '?' then (".", 1)
    else if t[0] == '[' then
      var negated := |t| > 1 && t[1] == '!';
      var from := if negated then 2 else 1;
      var close := CloseAt(t, from);
      if close < |t| then (BracketText(negated, t[from..close]), close + 1)
      else ("\\[" + (if negated then "^" else "") + t[from..], |t|)
    else if Meta(t[0]) then (['\\', t[0]], 1)
    else ([t[0]], 1)
  }

  function Translation(t: string): string
    decreases |t|
  {
    if t == [] then [] else Chunk(t).0 + Translation(t[Chunk(t).1..])
  }

  method GlobToAnchoredRegex(glob: string) returns (regex: string)
    ensures regex == "^" + Translation(glob) + "$"
  {
    hide Translation, Chunk;
    regex := "^";
    var i := 0;
    ghost var whole := "^" + Translation(glob);
    assert glob[0..] == glob;
    while i < |glob|
      invariant 0 <= i <= |glob|
      invariant regex + Translation(glob[i..]) == whole
    {
      var piece, taken := TranslateOne(glob, i);
      NextChunk(glob, i, regex, piece, taken);
      regex, i := regex + piece, i + taken;
    }
    assert glob[i..] == [];
    EmptyTranslation();
    assert regex == whole;
    regex := regex + "$";
  }

  lemma EmptyTranslation()
    ensures Translation([]) == []
  {
  }

  method TranslateOne(glob: string, i: nat) returns (piece: string, taken: nat)
    requires i < |glob|
    ensures (piece, taken) == Chunk(glob[i..])
  {
    var c := glob[i];
    piece, taken := [c], 1;
    if c == '*' {
      piece := ".*";
    } else if c == '?' {
      piece := ".";
    } else if c == '[' {
      piece, taken := TranslateBracket(glob, i);
    } else if Meta(c) {
      piece := ['\\', c];
    }
  }

  lemma NextChunk(glob: string, i: nat, regex: string, piece: string, taken: nat)
    requires i < |glob| && (piece, taken) == Chunk(glob[i..])
    ensures i < i + taken <= |glob|
    ensures regex + piece + Translation(glob[i + taken..]) == regex + Translation(glob[i..])
  {
    assert glob[i..][taken..] == glob[i + taken..];
    assert regex + piece + Translation(glob[i + taken..]) == regex + (piece + Translation(glob[i + taken..]));
  }

  /** The bracket that starts at `start`: its text and its length. */
  method TranslateBracket(glob: string, start: nat) returns (bracket: string, taken: nat)
    requires start < |glob| && glob[start] == '['
    ensures (bracket, taken) == Chunk(glob[start..])
  {
    ghost var t := glob[start..];
    var negated := start + 1 < |glob| && glob[start + 1] == '!';
    var from := start + (if negated then 2 else 1);
    var close := from;
    while close < |glob| && glob[close] != ']'
      invariant from <= close <= |glob| && CloseAt(glob, from) == CloseAt(glob, close)
    {
      close := close + 1;
    }
    CloseShift(glob, start, from);
    SliceShift(glob, start, from, close);
    if close == |glob| {
      assert t[from - start..] == t[from - start..close - start];
      return "\\[" + (if negated then "^" else "") + glob[from..close], |glob| - start;
    }
    var inner := EscapeInner(glob[from..close], !negated);
    return "[" + (if negated then "^" else "") + inner + "]", close + 1 - start;
  }

  method EscapeInner(inner: string, first: bool) returns (text: string)
    ensures text == EscapeClass(inner, first)
  {
    text := [];
    var k := 0;
    assert inner[0..] == inner;
    while k < |inner|
      invariant 0 <= k <= |inner|
      invariant text + EscapeClass(inner[k..], first && k == 0) == EscapeClass(inner, first)
    {
      assert inner[k..][1..] == inner[k + 1..];
      ghost var rest := EscapeClass(inner[k + 1..], false);
      assert text + ClassChar(inner[k], first && k == 0) + rest == text + (ClassChar(inner[k], first && k == 0) + rest);
      text := text + ClassChar(inner[k], first && k == 0);
      k := k + 1;
    }
    assert inner[k..] == [];
  }

  lemma SliceShift(s: string, skip: nat, from: nat, to: nat)
    requires skip <= from <= to <= |s|
    ensures s[skip..][from - skip..to - skip] == s[from..to]
  {
  }

  lemma {:induction false} CloseShift(glob: string, skip: nat, from: nat)
    requires skip <= from <= |glob|
    ensures CloseAt(glob[skip..], from - skip) == CloseAt(glob, from) - skip
    decreases |glob| - from
  {
    if from < |glob| && glob[from] != ']' { CloseShift(glob, skip, from + 1); }
  }

  // ------------------------------------------------------------- regular expressions

  datatype Atom = Just(c: char) | Dot | Class(negated: bool, members: seq<Member>)

  datatype Piece = Single(atom: Atom) | Repeated(atom: Atom)

  predicate AtomAccepts(a: Atom, c: char) {
    match a
    case Just(d) => c == d
    case Dot => true
    case Class(negated, members) => InClass(negated, members, c)
  }

  /** The whole string matches the pieces in turn; a repeated atom matches any number of times. */
  ghost predicate RegexAccepts(pieces: seq<Piece>, s: string)
    decreases |pieces| + |s|
  {
    if pieces == [] then s == []
    else
      match pieces[0]
      case Single(a) => s != [] && AtomAccepts(a, s[0]) && RegexAccepts(pieces[1..], s[1..])
      case Repeated(a) =>
        RegexAccepts(pieces[1..], s) || (s != [] && AtomAccepts(a, s[0]) && RegexAccepts(pieces, s[1..]))
  }

  /** One character of a bracket expression, a backslash taking the next one literally. */
  function ReadChar(t: string): Option<(char, string)> {
    if t == [] then None
    else if t[0] != '\\' then Some((t[0], t[1..]))
    else if |t| > 1 then Some((t[1], t[2..]))
    else None
  }

  /** The members of a bracket expression up to its closing `]`; a range that runs downwards is
      an error. */
  function ReadMembers(t: string): Option<(seq<Member>, string)>
    decreases |t|
  {
    if t == [] then None
    else if t[0] == ']' then Some(([], t[1..]))
    else
      match ReadChar(t)
      case None => None
      case Some((c, rest)) =>
        if |rest| > 1 && rest[0] == '-' && rest[1] != ']' then
          match ReadChar(rest[1..])
          case None => None
          case Some((d, more)) => if c <= d then Cons(Range(c, d), ReadMembers(more)) else None
        else Cons(One(c), ReadMembers(rest))
  }

  function Cons(m: Member, r: Option<(seq<Member>, string)>): Option<(seq<Member>, string)> {
    match r
    case None => None
    case Some((members, rest)) => Some(([m] + members, rest))
  }

  /** One atom.  Unescaped operators are not literals, so a translation that forgot to escape
      one would not parse. */
  function ReadAtom(t: string): (r: Option<(Atom, string)>)
    ensures r.Some? ==> |r.value.1| < |t|
  {
    if t == [] then None
    else if t[0] == '.' then Some((Dot, t[1..]))
    else if t[0] == '\\' then (if |t| > 1 then Some((Just(t[1]), t[2..])) else None)
    else if t[0] == '[' then ReadBracket(t[1..])
    else if Meta(t[0]) || t[0] == '*' || t[0] == '?' then None
    else Some((Just(t[0]), t[1..]))
  }

  function ReadBracket(t: string): (r: Option<(Atom, string)>)
    ensures r.Some? ==> |r.value.1| <= |t|
  {
    var negated := t != [] && t[0] == '^';
    ReadMembersShrinks(if negated then t[1..] else t);
    match ReadMembers(if negated then t[1..] else t)
    case None => None
    case Some((members, rest)) => if members == [] then None else Some((Class(negated, members), rest))
  }

  lemma {:induction false} ReadMembersShrinks(t: string)
    ensures ReadMembers(t).Some? ==> |ReadMembers(t).value.1| < |t|
    decreases |t|
  {
    if t != [] && t[0] != ']' && ReadChar(t).Some? {
      var rest := ReadChar(t).value.1;
      if |rest| > 1 && rest[0] == '-' && rest[1] != ']' {
        if ReadChar(rest[1..]).Some? { ReadMembersShrinks(ReadChar(rest[1..]).value.1); }
      } else {
        ReadMembersShrinks(rest);
      }
    }
  }

  /** The pieces of an anchored expression, after its `^` and up to its `$`. */
  function ReadPieces(t: string): Option<seq<Piece>>
    decreases |t|
  {
    if t == "$" then Some([])
    else
      match ReadAtom(t)
      case None => None
      case Some((a, rest)) =>
        if rest != [] && rest[0] == '*' then Prepend(Repeated(a), ReadPieces(rest[1..]))
        else if rest != [] && (rest[0] == '+' || rest[0] == '?' || rest[0] == '{') then None
        else Prepend(Single(a), ReadPieces(rest))
  }

  function Prepend(p: Piece, r: Option<seq<Piece>>): Option<seq<Piece>> {
    if r.None? then None else Some([p] + r.value)
  }

  function ParseAnchored(t: string): Option<seq<Piece>> {
    if t != [] && t[0] == '^' then ReadPieces(t[1..]) else None
  }

  // ------------------------------------------------------------- the text is read back

  function AtomOf(i: Item): Atom {
    match i
    case Literal(c) => Just(c)
    case Bracket(negated, members) => Class(negated, members)
    case _ => Dot
  }

  function PieceOf(i: Item): Piece {
    if i.AnyString? then Repeated(Dot) else Single(AtomOf(i))
  }

  function PiecesOf(glob: seq<Item>): seq<Piece> {
    if glob == [] then [] else [PieceOf(glob[0])] + PiecesOf(glob[1..])
  }

  /** The text an item is translated to, without the repetition sign. */
  function AtomText(i: Item): string {
    match i
    case Literal(c) => if Meta(c) then ['\\', c] else [c]
    case Bracket(negated, members) => BracketText(negated, MembersText(members))
    case _ => "."
  }

  function RegexText(i: Item): string {
    if i.AnyString? then ".*" else AtomText(i)
  }

  lemma {:induction false} MembersHaveNoClose(members: seq<Member>)
    requires forall m :: m in members ==> SimpleMember(m)
    ensures ']' !in MembersText(members)
    ensures members != [] ==> MembersText(members) != [] && MembersText(members)[0] == MemberText(members[0])[0]
    ensures members != [] ==> MembersText(members)[0] != '-'
    decreases |members|
  {
    if members != [] {
      assert members[0] in members;
      MembersHaveNoClose(members[1..]);
    }
  }

  lemma {:induction false} CloseFound(t: string, from: nat, close: nat)
    requires from <= close < |t| && t[close] == ']' && ']' !in t[from..close]
    ensures CloseAt(t, from) == close
    decreases close - from
  {
    if from < close {
      assert t[from] == t[from..close][0];
      assert t[from + 1..close] == t[from..close][1..];
      CloseFound(t, from + 1, close);
    }
  }

  lemma Middle(a: string, b: string, c: string)
    requires c != []
    ensures (a + b + c)[|a|..|a| + |b|] == b && (a + b + c)[|a| + |b|] == c[0]
  {
  }

  /** A bracket in front of any text is recognised as such. */
  lemma BracketChunk(negated: bool, members: seq<Member>, rest: string)
    requires SimpleItem(Bracket(negated, members))
    ensures var t := ItemText(Bracket(negated, members));
            Chunk(t + rest) == (BracketText(negated, MembersText(members)), |t|)
  {
    hide Chunk, MembersText, EscapeClass, BracketText;
    var inner := MembersText(members);
    MembersHaveNoClose(members);
    assert members[0] in members;
    var open := "[" + (if negated then "!" else "");
    Regroup(open, inner, "]", rest);
    OpenedChunk(negated, inner, rest);
  }

  lemma Regroup(a: string, b: string, c: string, d: string)
    ensures a + b + c + d == a + b + (c + d)
  {
  }

  lemma OpenedChunk(negated: bool, inner: string, rest: string)
    requires inner != [] && ']' !in inner && (!negated ==> inner[0] != '!')
    ensures var open := "[" + (if negated then "!" else "");
            Chunk(open + inner + ("]" + rest)) == (BracketText(negated, inner), |open| + |inner| + 1)
  {
    var open := "[" + (if negated then "!" else "");
    var t := open + inner + ("]" + rest);
    Middle(open, inner, "]" + rest);
    CloseFound(t, |open|, |open| + |inner|);
    SecondOf(open, inner, "]" + rest);
    ChunkOfBracket(t, negated, |open| + |inner|);
  }

  lemma SecondOf(open: string, inner: string, rest: string)
    requires inner != [] && (open == "[" || open == "[!")
    ensures var t := open + inner + rest;
            |t| > 1 && t[0] == '[' && t[1] == if open == "[" then inner[0] else '!'
  {
  }

  lemma ChunkOfBracket(t: string, negated: bool, close: nat)
    requires |t| > 1 && t[0] == '[' && (t[1] == '!' <==> negated)
    requires var from := if negated then 2 else 1;
             from <= |t| && CloseAt(t, from) == close < |t|
    ensures Chunk(t) == (BracketText(negated, t[if negated then 2 else 1..close]), close + 1)
  {
  }

  lemma ItemChunk(i: Item, rest: string)
    requires SimpleItem(i)
    ensures Chunk(ItemText(i) + rest) == (RegexText(i), |ItemText(i)|)
  {
    if i.Bracket? { BracketChunk(i.negated, i.members, rest); }
  }

  lemma TranslationOfItem(i: Item, rest: string)
    requires SimpleItem(i)
    ensures Translation(ItemText(i) + rest) == RegexText(i) + Translation(rest)
  {
    ItemChunk(i, rest);
    var t := ItemText(i) + rest;
    assert t[|ItemText(i)|..] == rest;
    assert t != [] by { assert |ItemText(i)| > 0; }
  }

  lemma {:induction false} EscapeConcat(a: string, b: string, first: bool)
    requires a != []
    ensures EscapeClass(a + b, first) == EscapeClass(a, first) + EscapeClass(b, false)
    decreases |a|
  {
    assert (a + b)[1..] == a[1..] + b;
    if |a| == 1 {
      assert a[1..] + b == b;
    } else {
      EscapeConcat(a[1..], b, false);
    }
  }

  /** Reading an escaped class gives its members back, or fails if a range runs downwards. */
  lemma {:induction false} MembersAreReadBack(members: seq<Member>, first: bool, rest: string)
    requires forall m :: m in members ==> SimpleMember(m)
    ensures ReadMembers(EscapeClass(MembersText(members), first) + "]" + rest) ==
            if Ordered(members) then Some((members, rest)) else None
    decreases |members|
  {
    hide ReadMembers, EscapeClass, MembersText, Ordered;
    if members == [] {
      ClassIsClosed(first, rest);
    } else {
      var m, tail := members[0], members[1..];
      var after := EscapeClass(MembersText(tail), false) + "]" + rest;
      FirstMember(members, first, rest);
      MembersAreReadBack(tail, false, rest);
      NoDashNext(tail, rest);
      MemberIsReadBack(m, first, after);
      OrderedSplit(members);
      assert members == [m] + tail;
    }
  }

  lemma ClassIsClosed(first: bool, rest: string)
    ensures ReadMembers(EscapeClass(MembersText([]), first) + "]" + rest) == Some(([], rest)) && Ordered([])
  {
    assert EscapeClass(MembersText([]), first) + "]" + rest == "]" + rest;
    assert ("]" + rest)[1..] == rest;
  }

  lemma FirstMember(members: seq<Member>, first: bool, rest: string)
    requires members != [] && forall m :: m in members ==> SimpleMember(m)
    ensures SimpleMember(members[0]) && forall m :: m in members[1..] ==> SimpleMember(m)
    ensures EscapeClass(MembersText(members), first) + "]" + rest ==
            EscapeClass(MemberText(members[0]), first) + (EscapeClass(MembersText(members[1..]), false) + "]" + rest)
  {
    assert members[0] in members;
    EscapeConcat(MemberText(members[0]), MembersText(members[1..]), first);
    Nested(EscapeClass(MemberText(members[0]), first), EscapeClass(MembersText(members[1..]), false), "]", rest);
  }

  lemma OrderedSplit(members: seq<Member>)
    requires members != []
    ensures Ordered(members) <==> Ordered([members[0]]) && Ordered(members[1..])
  {
    assert members == [members[0]] + members[1..];
    assert members[0] in [members[0]];
  }

  lemma NoDashNext(tail: seq<Member>, rest: string)
    requires forall m :: m in tail ==> SimpleMember(m)
    ensures var after := EscapeClass(MembersText(tail), false) + "]" + rest;
            after != [] && after[0] != '-'
  {
    MembersHaveNoClose(tail);
  }

  lemma MemberIsReadBack(m: Member, first: bool, after: string)
    requires SimpleMember(m) && after != [] && after[0] != '-'
    ensures ReadMembers(EscapeClass(MemberText(m), first) + after) == if Ordered([m]) then Cons(m, ReadMembers(after))
              else None
  {
    match m {
      case One(c) =>
        var text := ClassChar(c, first);
        assert EscapeClass([c], first) == text;
        assert (text + after)[|text|..] == after;
        assert ReadChar(text + after) == Some((c, after));
      case Range(low, high) =>
        assert EscapeClass([low, '-', high], first) == [low, '-', high] by { RangeIsPlain(low, high, first); }
        var t := [low, '-', high] + after;
        assert t[1..] == ['-', high] + after && t[1..][1..] == [high] + after;
        assert ReadChar(t) == Some((low, ['-', high] + after));
        assert ([high] + after)[1..] == after;
        assert ReadChar([high] + after) == Some((high, after));
        assert Ordered([m]) <==> low <= high;
    }
  }

  lemma RangeIsPlain(low: char, high: char, first: bool)
    requires low != '\\' && high != '\\' && low != '^'
    ensures EscapeClass([low, '-', high], first) == [low, '-', high]
  {
    assert [low, '-', high][1..] == ['-', high] && ['-', high][1..] == [high] && [high][1..] == [];
    assert EscapeClass([high], false) == [high];
    assert EscapeClass(['-', high], false) == ['-', high];
  }

  /** Every translated item is read back as one atom. */
  lemma AtomIsReadBack(i: Item, rest: string)
    requires SimpleItem(i)
    ensures ReadAtom(AtomText(i) + rest) == if OrderedItem(i) then Some((AtomOf(i), rest)) else None
  {
    var t := AtomText(i) + rest;
    assert t[|AtomText(i)|..] == rest;
    if i.Bracket? { BracketIsReadBack(i.negated, i.members, rest); }
  }

  lemma BracketIsReadBack(negated: bool, members: seq<Member>, rest: string)
    requires SimpleItem(Bracket(negated, members))
    ensures ReadAtom(BracketText(negated, MembersText(members)) + rest) ==
            if Ordered(members) then Some((Class(negated, members), rest)) else None
  {
    var inner := EscapeClass(MembersText(members), !negated);
    MembersAreReadBack(members, !negated, rest);
    EscapedStart(negated, members);
    OpenedBracket(negated, inner + "]" + rest);
    Nested("[" + (if negated then "^" else ""), inner, "]", rest);
  }

  lemma EscapedStart(negated: bool, members: seq<Member>)
    requires SimpleItem(Bracket(negated, members))
    ensures var inner := EscapeClass(MembersText(members), !negated);
            inner != [] && (!negated ==> inner[0] != '^')
  {
    MembersHaveNoClose(members);
  }

  lemma Nested(a: string, b: string, c: string, d: string)
    ensures a + b + c + d == a + (b + c + d)
  {
  }

  lemma OpenedBracket(negated: bool, body: string)
    requires body != [] && (!negated ==> body[0] != '^')
               && (ReadMembers(body).Some? ==> ReadMembers(body).value.0 != [])
    ensures var read := ReadMembers(body);
            ReadAtom("[" + (if negated then "^" else "") + body) ==
            if read.Some? then Some((Class(negated, read.value.0), read.value.1)) else None
  {
    hide ReadMembers;
    var sign := if negated then "^" else "";
    assert ("[" + sign + body)[1..] == sign + body;
    assert negated ==> (sign + body)[1..] == body;
    assert !negated ==> sign + body == body;
  }

  /** No translated item starts with something that would repeat the one before it. */
  lemma NothingRepeats(glob: seq<Item>)
    requires SimpleGlob(glob)
    ensures var t := Translation(GlobText(glob)) + "$";
            t[0] != '*' && t[0] != '+' && t[0] != '?' && t[0] != '{'
  {
    if glob != [] {
      assert glob[0] in glob;
      TranslationOfItem(glob[0], GlobText(glob[1..]));
      assert RegexText(glob[0]) != [];
    }
  }

  lemma {:induction false} PiecesAreReadBack(glob: seq<Item>)
    requires SimpleGlob(glob)
    ensures ReadPieces(Translation(GlobText(glob)) + "$") == if RangesAreOrdered(glob) then Some(PiecesOf(glob))
              else None
    decreases |glob|
  {
    if glob == [] {
      assert Translation(GlobText(glob)) + "$" == "$";
    } else {
      var i, tail := glob[0], glob[1..];
      assert i in glob;
      assert SimpleGlob(tail);
      PiecesAreReadBack(tail);
      NothingRepeats(tail);
      TranslationOfItem(i, GlobText(tail));
      var rest := Translation(GlobText(tail)) + "$";
      assert Translation(GlobText(glob)) + "$" == RegexText(i) + rest;
      PieceIsReadBack(i, rest);
      assert RangesAreOrdered(glob) <==> OrderedItem(i) && RangesAreOrdered(tail);
    }
  }

  lemma PieceIsReadBack(i: Item, rest: string)
    requires SimpleItem(i) && rest != [] && rest[0] != '*' && rest[0] != '+' && rest[0] != '?' && rest[0] != '{'
    ensures ReadPieces(RegexText(i) + rest) == if OrderedItem(i) then Prepend(PieceOf(i), ReadPieces(rest)) else None
  {
    var more := if i.AnyString? then "*" + rest else rest;
    assert RegexText(i) + rest == AtomText(i) + more;
    AtomIsReadBack(i, more);
    assert AtomText(i) + more != "$";
    if i.AnyString? { assert more[1..] == rest; }
  }

  // ------------------------------------------------------------- the meaning is kept

  /** A repeated dot takes any number of characters. */
  lemma {:induction false} DotsTakeAnyString(pieces: seq<Piece>, s: string)
    requires pieces != [] && pieces[0] == Repeated(Dot)
    ensures RegexAccepts(pieces, s) <==> exists k :: 0 <= k <= |s| && RegexAccepts(pieces[1..], s[k..])
    decreases |s|
  {
    assert s[0..] == s;
    if s != [] {
      DotsTakeAnyString(pieces, s[1..]);
      if k :| 0 <= k <= |s[1..]| && RegexAccepts(pieces[1..], s[1..][k..]) {
        assert s[1..][k..] == s[k + 1..];
      }
      if k :| 0 < k <= |s| && RegexAccepts(pieces[1..], s[k..]) {
        assert s[1..][k - 1..] == s[k..];
      }
    }
  }

  lemma {:induction false} PiecesAcceptTheSame(glob: seq<Item>, s: string)
    ensures RegexAccepts(PiecesOf(glob), s) <==> GlobAccepts(glob, s)
    decreases |glob|
  {
    if glob != [] {
      var pieces := PiecesOf(glob);
      assert pieces[1..] == PiecesOf(glob[1..]);
      if glob[0].AnyString? {
        DotsTakeAnyString(pieces, s);
        forall k | 0 <= k <= |s| ensures RegexAccepts(PiecesOf(glob[1..]), s[k..]) <==> GlobAccepts(glob[1..], s[k..]) {
          PiecesAcceptTheSame(glob[1..], s[k..]);
        }
      } else if s != [] {
        PiecesAcceptTheSame(glob[1..], s[1..]);
      }
    }
  }

  /** The produced text is a well-formed anchored expression exactly if no range of the glob
      runs downwards, and then it accepts exactly the stream ids the glob accepts. */
  lemma TranslationPreservesMeaning(glob: seq<Item>, s: string)
    requires SimpleGlob(glob)
    ensures var parsed := ParseAnchored("^" + Translation(GlobText(glob)) + "$");
            && (parsed.Some? <==> RangesAreOrdered(glob))
            && (parsed.Some? ==> (RegexAccepts(parsed.value, s) <==> GlobAccepts(glob, s)))
  {
    hide Translation, GlobText, ReadPieces, RegexAccepts, GlobAccepts;
    var body := Translation(GlobText(glob)) + "$";
    assert ("^" + Translation(GlobText(glob)) + "$")[1..] == body;
    PiecesAreReadBack(glob);
    PiecesAcceptTheSame(glob, s);
  }

  /** `[z-a]` becomes `^[z-a]$`, which is no regular expression. */
  lemma ReversedRangeIsRefused()
    ensures var glob := [Bracket(false, [Range('z', 'a')])];
            SimpleGlob(glob) && GlobText(glob) == "[z-a]" && ParseAnchored("^" + Translation("[z-a]") + "$").None?
  {
    hide Translation, ReadPieces;
    var members := [Range('z', 'a')];
    var glob := [Bracket(false, members)];
    assert members[0] in members && glob[0] in glob;
    assert !OrderedItem(glob[0]);
    assert members[1..] == [] && glob[1..] == [] && "" + MembersText(members) == MemberText(members[0]);
    TranslationPreservesMeaning(glob, "");
  }

  /** Characters without a meaning of their own in either notation. */
  predicate Plain(c: char) {
    !Meta(c) && c != '*' && c != '?' && c != '[' && c != ']'
  }

  function Literals(text: string): seq<Item> {
    seq(|text|, i requires 0 <= i < |text| => Literal(text[i]))
  }

  lemma {:induction false} LiteralsMeanThemselves(text: string, s: string)
    requires forall c :: c in text ==> Plain(c)
    ensures GlobText(Literals(text)) == text && (GlobAccepts(Literals(text), s) <==> s == text)
    ensures SimpleGlob(Literals(text)) && RangesAreOrdered(Literals(text))
    decreases |text|
  {
    if text != [] {
      var tail := text[1..];
      assert Literals(text)[1..] == Literals(tail) && text == [text[0]] + tail;
      LiteralsMeanThemselves(tail, if s == [] then [] else s[1..]);
      assert s != [] ==> s == [s[0]] + s[1..];
    }
    LiteralsAreSimple(text);
  }

  lemma LiteralsAreSimple(text: string)
    requires forall c :: c in text ==> Plain(c)
    ensures SimpleGlob(Literals(text)) && RangesAreOrdered(Literals(text))
  {
    forall i | i in Literals(text) ensures SimpleItem(i) && OrderedItem(i) {
      var k :| 0 <= k < |text| && Literals(text)[k] == i;
      assert text[k] in text;
    }
  }

  /** A bracket that is never closed stands for itself, and so does the plain text after it. */
  lemma UnclosedBracketMeansItself(text: string, s: string)
    requires (forall c :: c in text ==> Plain(c)) && (text != [] ==> text[0] != '!')
    ensures var parsed := ParseAnchored("^" + Translation("[" + text) + "$");
            parsed.Some? && (RegexAccepts(parsed.value, s) <==> s == "[" + text)
  {
    hide ReadMembers, ReadBracket, RegexAccepts, GlobAccepts;
    var t := "[" + text;
    UnclosedChunk(t);
    assert Translation(t) == "\\[" + text by { assert t[1..] == text && t[|t|..] == []; }
    LiteralsMeanThemselves(text, if s == [] then [] else s[1..]);
    PlainTranslation(text);
    PiecesAreReadBack(Literals(text));
    NothingRepeats(Literals(text));
    var rest := text + "$";
    AnchorsOff("\\[", text);
    EscapedIsRead('[', rest);
    PiecesAcceptTheSame(Literals(text), if s == [] then [] else s[1..]);
    FirstIsJust('[', PiecesOf(Literals(text)), s);
    assert s != [] ==> s == [s[0]] + s[1..];
  }

  lemma AnchorsOff(a: string, b: string)
    ensures ("^" + (a + b) + "$")[1..] == a + (b + "$")
  {
    assert "^" + (a + b) + "$" == "^" + (a + (b + "$"));
  }

  lemma CloseIsIn(t: string, from: nat)
    requires from <= |t|
    ensures CloseAt(t, from) < |t| ==> ']' in t
  {
    var close := CloseAt(t, from);
    if close < |t| { assert t[close] in t; }
  }

  lemma UnclosedChunk(t: string)
    requires |t| > 0 && t[0] == '[' && (|t| > 1 ==> t[1] != '!') && ']' !in t
    ensures Chunk(t) == ("\\[" + t[1..], |t|)
  {
    CloseIsIn(t, 1);
    assert "\\[" + "" + t[1..] == "\\[" + t[1..];
  }

  lemma {:induction false} PlainTranslation(text: string)
    requires forall c :: c in text ==> Plain(c)
    ensures Translation(text) == text
    decreases |text|
  {
    hide Chunk, Plain;
    if text != [] {
      PlainTranslation(text[1..]);
      PlainChunk(text);
      assert text == [text[0]] + text[1..];
    }
  }

  lemma PlainChunk(text: string)
    requires text != [] && Plain(text[0])
    ensures Chunk(text) == ([text[0]], 1)
  {
  }

  lemma EscapedIsRead(c: char, rest: string)
    requires rest != [] && rest[0] != '*' && rest[0] != '+' && rest[0] != '?' && rest[0] != '{'
    ensures ReadPieces(['\\', c] + rest) == Prepend(Single(Just(c)), ReadPieces(rest))
  {
    assert (['\\', c] + rest)[2..] == rest;
  }

  lemma FirstIsJust(c: char, pieces: seq<Piece>, s: string)
    ensures RegexAccepts([Single(Just(c))] + pieces, s) <==> s != [] && s[0] == c && RegexAccepts(pieces, s[1..])
  {
    assert ([Single(Just(c))] + pieces)[1..] == pieces;
  }
}
