/**
 * The interval extractor: `_interval_re.finditer(text)` (bot.py:67-70) and the
 * loop that turns its matches into `(subgroup, start, end)` triples
 * (bot.py:410-415).
 *
 * The pattern is
 *   (\d+\.\d+) \s* [:\-–—]? \s* (\d{1,2}:\d{2}) \s* [–\-—] \s* (\d{1,2}:\d{2})
 * (spaces added for reading). `IsMatch` says, by positions in the text, what
 * it means for the pattern to match from a given start with given captures;
 * how the spaces and the optional separator split a gap is left open, since
 * it does not show in the captures. Python's backtracking engine takes the
 * first `\d+` whole (a shorter run leaves a digit where the dot must be) and
 * then tries the second `\d+` longest first, giving back one digit at a time;
 * once that run's end is fixed every later piece is forced. So the match
 * reported at a position is the one with the longest subgroup, which is what
 * `MatchAtSound` and `MatchAtGreatest` state for `MatchAt`.
 */
module Intervals {
  import opened Wrappers
  import opened Text

  /** `[:\-–—]`, the optional separator after the subgroup. */
  predicate IsSep(c: char) { c == ':' || c == '-' || c == '\U{2013}' || c == '\U{2014}' }

  /** `[–\-—]`, the dash between the two times. */
  predicate IsDash(c: char) { c == '\U{2013}' || c == '-' || c == '\U{2014}' }

  /** `\d{1,2}:\d{2}` occupies exactly t[a..b]. */
  predicate TimeShape(t: string, a: nat, b: nat) {
    (b == a + 5 && b <= |t| && IsDigit(t[a]) && IsDigit(t[a + 1]) && t[a + 2] == ':'
       && IsDigit(t[a + 3]) && IsDigit(t[a + 4])) ||
    (b == a + 4 && b <= |t| && IsDigit(t[a]) && t[a + 1] == ':'
       && IsDigit(t[a + 2]) && IsDigit(t[a + 3]))
  }

  /**
   * `\s* [:\-–—]? \s*` matches t[i..j] with the separator, if any, at g:
   * spaces up to g, then either nothing more or a separator at g and spaces after it.
   */
  predicate SepGap(t: string, i: nat, g: nat, j: nat)
    requires i <= g <= j <= |t|
  {
    SpacesIn(t, i, g) && (g == j || (IsSep(t[g]) && SpacesIn(t, g + 1, j)))
  }

  /** Positions of what follows the subgroup: the two times and the dash between them. */
  datatype Tail = Tail(gap: nat, startBegin: nat, startEnd: nat, dash: nat, endBegin: nat, endEnd: nat)

  /** One match: t[start..dot] digits, a dot, t[dot+1..sgEnd] digits, then the tail. */
  datatype Found = Found(start: nat, dot: nat, sgEnd: nat, tail: Tail)

  /** The part of the pattern after the subgroup matches from q with these positions. */
  predicate TailShape(t: string, q: nat, x: Tail) {
    q <= x.gap <= x.startBegin <= |t| && SepGap(t, q, x.gap, x.startBegin) &&
    TimeShape(t, x.startBegin, x.startEnd) &&
    x.startEnd <= x.dash < |t| && SpacesIn(t, x.startEnd, x.dash) && IsDash(t[x.dash]) &&
    x.dash + 1 <= x.endBegin <= |t| && SpacesIn(t, x.dash + 1, x.endBegin) &&
    TimeShape(t, x.endBegin, x.endEnd)
  }

  /** The whole pattern matches from m.start with the captures m describes. */
  predicate IsMatch(t: string, m: Found) {
    m.start < m.dot && m.dot + 1 < m.sgEnd <= |t| &&
    DigitsIn(t, m.start, m.dot) && t[m.dot] == '.' && DigitsIn(t, m.dot + 1, m.sgEnd) &&
    TailShape(t, m.sgEnd, m.tail)
  }

  /** `\d{1,2}:\d{2}` from a; the two forms exclude each other, so it is the only one. */
  function TimeEnd(t: string, a: nat): (r: Option<nat>)
    ensures r.Some? ==> TimeShape(t, a, r.value)
  {
    if a + 5 <= |t| && IsDigit(t[a]) && IsDigit(t[a + 1]) && t[a + 2] == ':'
       && IsDigit(t[a + 3]) && IsDigit(t[a + 4]) then Some(a + 5)
    else if a + 4 <= |t| && IsDigit(t[a]) && t[a + 1] == ':'
       && IsDigit(t[a + 2]) && IsDigit(t[a + 3]) then Some(a + 4)
    else None
  }

  lemma TimeEndComplete(t: string, a: nat, b: nat)
    requires TimeShape(t, a, b)
    ensures TimeEnd(t, a) == Some(b)
  {
  }

  /**
   * The part of the pattern after the subgroup, run as a small automaton
   * from position pos in the given stage; acc holds the positions recorded
   * so far. Stages: 0 `\s*`, 1 `[:\-–—]?`, 2 `\s*`, 3 the first time,
   * 4 `\s*` and the dash, 5 `\s*`, 6 the second time. Each `\s*` is greedy
   * and the optional separator is taken when present; giving either back
   * cannot help, as the piece that follows can start with neither a space
   * nor a separator.
   */
  function TailRun(t: string, pos: nat, stage: nat, acc: Tail): (r: Option<Tail>)
    requires pos <= |t| && stage <= 6
    ensures r.Some? ==> pos <= r.value.endEnd <= |t|
    decreases |t| - pos, 6 - stage
  {
    var space := pos < |t| && IsSpace(t[pos]);
    if stage == 0 then
      if space then TailRun(t, pos + 1, 0, acc) else TailRun(t, pos, 1, acc.(gap := pos))
    else if stage == 1 then
      if pos < |t| && IsSep(t[pos]) then TailRun(t, pos + 1, 2, acc) else TailRun(t, pos, 2, acc)
    else if stage == 2 then
      if space then TailRun(t, pos + 1, 2, acc) else TailRun(t, pos, 3, acc.(startBegin := pos))
    else if stage == 3 then
      match TimeEnd(t, pos)
      case None => None
      case Some(e) => TailRun(t, e, 4, acc.(startEnd := e))
    else if stage == 4 then
      if space then TailRun(t, pos + 1, 4, acc)
      else if pos < |t| && IsDash(t[pos]) then TailRun(t, pos + 1, 5, acc.(dash := pos))
      else None
    else if stage == 5 then
      if space then TailRun(t, pos + 1, 5, acc) else TailRun(t, pos, 6, acc.(endBegin := pos))
    else
      match TimeEnd(t, pos)
      case None => None
      case Some(e) => Some(acc.(endEnd := e))
  }

  /** The rest of the pattern matched from q, if it matches. */
  function TailAt(t: string, q: nat): (r: Option<Tail>)
    requires q <= |t|
    ensures r.Some? ==> q <= r.value.endEnd <= |t|
  {
    TailRun(t, q, 0, Tail(0, 0, 0, 0, 0, 0))
  }

  predicate SpaceStage(stage: nat) { stage == 0 || stage == 2 || stage == 4 || stage == 5 }

  /** A `\s*` stage passes over spaces without recording anything. */
  lemma {:induction false} SkipSpaces(t: string, pos: nat, stage: nat, acc: Tail, j: nat)
    requires pos <= j <= |t| && SpaceStage(stage) && SpacesIn(t, pos, j)
    ensures TailRun(t, pos, stage, acc) == TailRun(t, j, stage, acc)
    decreases j - pos
  {
    if pos < j {
      assert TailRun(t, pos, stage, acc) == TailRun(t, pos + 1, stage, acc);
      SkipSpaces(t, pos + 1, stage, acc, j);
    }
  }

  /** A `\s*` stage goes on from the end of the run of spaces. */
  lemma SkipRun(t: string, pos: nat, stage: nat, acc: Tail)
    requires pos <= |t| && SpaceStage(stage)
    ensures SpacesIn(t, pos, SpaceRunEnd(t, pos))
    ensures TailRun(t, pos, stage, acc) == TailRun(t, SpaceRunEnd(t, pos), stage, acc)
  {
    SpaceRunSpaces(t, pos);
    SkipSpaces(t, pos, stage, acc, SpaceRunEnd(t, pos));
  }

  /** From the first time's end on: spaces, the dash, spaces and the second time. */
  predicate DashShape(t: string, x: Tail) {
    x.startEnd <= x.dash < |t| && SpacesIn(t, x.startEnd, x.dash) && IsDash(t[x.dash]) &&
    x.dash + 1 <= x.endBegin <= |t| && SpacesIn(t, x.dash + 1, x.endBegin) &&
    TimeShape(t, x.endBegin, x.endEnd)
  }

  /** Stages 4 to 6 keep what was recorded before and find the dash part. */
  lemma DashSound(t: string, acc: Tail)
    requires acc.startEnd <= |t| && TailRun(t, acc.startEnd, 4, acc).Some?
    ensures var x := TailRun(t, acc.startEnd, 4, acc).value;
      x.gap == acc.gap && x.startBegin == acc.startBegin && x.startEnd == acc.startEnd && DashShape(t, x)
  {
    var d := SpaceRunEnd(t, acc.startEnd);
    SkipRun(t, acc.startEnd, 4, acc);
    assert d < |t| && IsDash(t[d]);
    var a4 := acc.(dash := d);
    assert TailRun(t, d, 4, acc) == TailRun(t, d + 1, 5, a4);
    var eb := SpaceRunEnd(t, d + 1);
    SkipRun(t, d + 1, 5, a4);
    var a5 := a4.(endBegin := eb);
    assert TailRun(t, eb, 5, a4) == TailRun(t, eb, 6, a5);
    assert TimeEnd(t, eb).Some?;
  }

  /** Stages 4 to 6 find any dash part there is. */
  lemma DashComplete(t: string, acc: Tail, x: Tail)
    requires DashShape(t, x) && acc.gap == x.gap && acc.startBegin == x.startBegin && acc.startEnd == x.startEnd
    ensures TailRun(t, x.startEnd, 4, acc) == Some(x)
  {
    SkipSpaces(t, x.startEnd, 4, acc, x.dash);
    var a4 := acc.(dash := x.dash);
    assert TailRun(t, x.dash, 4, acc) == TailRun(t, x.dash + 1, 5, a4);
    SkipSpaces(t, x.dash + 1, 5, a4, x.endBegin);
    assert !IsSpace(t[x.endBegin]);
    var a5 := a4.(endBegin := x.endBegin);
    assert TailRun(t, x.endBegin, 5, a4) == TailRun(t, x.endBegin, 6, a5);
    TimeEndComplete(t, x.endBegin, x.endEnd);
  }

  /** What `TailAt` finds is a tail of the pattern. */
  lemma TailAtSound(t: string, q: nat)
    requires q <= |t| && TailAt(t, q).Some?
    ensures TailShape(t, q, TailAt(t, q).value)
  {
    var a0 := Tail(0, 0, 0, 0, 0, 0);
    var w1 := SpaceRunEnd(t, q);
    SkipRun(t, q, 0, a0);
    var a1 := a0.(gap := w1);
    assert TailRun(t, w1, 0, a0) == TailRun(t, w1, 1, a1);
    var s := if w1 < |t| && IsSep(t[w1]) then w1 + 1 else w1;
    assert TailRun(t, w1, 1, a1) == TailRun(t, s, 2, a1);
    var b := SpaceRunEnd(t, s);
    SkipRun(t, s, 2, a1);
    var a2 := a1.(startBegin := b);
    assert TailRun(t, b, 2, a1) == TailRun(t, b, 3, a2);
    assert TimeEnd(t, b).Some?;
    var te := TimeEnd(t, b).value;
    var a3 := a2.(startEnd := te);
    assert TailAt(t, q) == TailRun(t, te, 4, a3);
    DashSound(t, a3);
    if s == w1 {
      assert b == w1;
    }
  }

  /** Whatever the tail looks like, `TailAt` finds exactly it. */
  lemma TailAtComplete(t: string, q: nat, x: Tail)
    requires q <= |t| && TailShape(t, q, x)
    ensures TailAt(t, q) == Some(x)
  {
    var a0 := Tail(0, 0, 0, 0, 0, 0);
    SkipSpaces(t, q, 0, a0, x.gap);
    assert !IsSpace(t[x.startBegin]);
    var a1 := a0.(gap := x.gap);
    assert TailRun(t, x.gap, 0, a0) == TailRun(t, x.gap, 1, a1);
    var s := if x.gap < |t| && IsSep(t[x.gap]) then x.gap + 1 else x.gap;
    assert TailRun(t, x.gap, 1, a1) == TailRun(t, s, 2, a1);
    SkipSpaces(t, s, 2, a1, x.startBegin);
    var a2 := a1.(startBegin := x.startBegin);
    assert TailRun(t, x.startBegin, 2, a1) == TailRun(t, x.startBegin, 3, a2);
    TimeEndComplete(t, x.startBegin, x.startEnd);
    var a3 := a2.(startEnd := x.startEnd);
    assert TailRun(t, x.startBegin, 3, a2) == TailRun(t, x.startEnd, 4, a3);
    DashComplete(t, a3, x);
  }

  /**
   * The backtracking over the second digit run: with the run ending at q,
   * try the tail, and give back one digit at a time while the run stays
   * non-empty.
   */
  function Backtrack(t: string, p: nat, dot: nat, q: nat): (r: Option<Found>)
    requires dot < q <= |t|
    ensures r.Some? ==> r.value.start == p && r.value.dot == dot && dot + 1 < r.value.sgEnd <= q
    ensures r.Some? ==> TailAt(t, r.value.sgEnd) == Some(r.value.tail)
    decreases q
  {
    if q <= dot + 1 then None
    else
      match TailAt(t, q)
      case Some(x) => Some(Found(p, dot, q, x))
      case None => Backtrack(t, p, dot, q - 1)
  }

  /** One step of the backtracking: the run end q is kept if a tail follows, else given back. */
  lemma BacktrackStep(t: string, p: nat, dot: nat, q: nat)
    requires dot + 1 < q <= |t|
    ensures TailAt(t, q).None? ==> Backtrack(t, p, dot, q) == Backtrack(t, p, dot, q - 1)
    ensures TailAt(t, q).Some? ==> Backtrack(t, p, dot, q).Some? && Backtrack(t, p, dot, q).value.sgEnd == q
  {
  }

  /** Backtracking stops at the longest run end that admits a tail. */
  lemma {:induction false} BacktrackGreatest(t: string, p: nat, dot: nat, q: nat, k: nat)
    requires dot + 1 < k <= q <= |t| && TailAt(t, k).Some?
    ensures Backtrack(t, p, dot, q).Some? && k <= Backtrack(t, p, dot, q).value.sgEnd
    decreases q
  {
    BacktrackStep(t, p, dot, q);
    if q != k {
      var x := TailAt(t, q);
      if x.None? {
        BacktrackGreatest(t, p, dot, q - 1, k);
      }
    }
  }

  /** `_interval_re.match(text, p)`: the match Python reports at position p, if any. */
  function MatchAt(t: string, p: nat): (r: Option<Found>)
    requires p <= |t|
    ensures r.Some? ==> r.value.start == p < r.value.tail.endEnd <= |t|
  {
    var dot := DigitRunEnd(t, p);
    if dot == p || dot == |t| || t[dot] != '.' then None
    else Backtrack(t, p, dot, DigitRunEnd(t, dot + 1))
  }

  /** What `MatchAt` reports is a match of the pattern. */
  lemma MatchAtSound(t: string, p: nat)
    requires p <= |t| && MatchAt(t, p).Some?
    ensures IsMatch(t, MatchAt(t, p).value)
  {
    var dot := DigitRunEnd(t, p);
    var r := MatchAt(t, p).value;
    assert r == Backtrack(t, p, dot, DigitRunEnd(t, dot + 1)).value;
    DigitRunDigits(t, p);
    DigitRunDigits(t, dot + 1);
    assert DigitsIn(t, dot + 1, r.sgEnd);
    TailAtSound(t, r.sgEnd);
  }

  /** Every match from p is found, and the reported one has the longest subgroup. */
  lemma MatchAtGreatest(t: string, p: nat, m: Found)
    requires p <= |t| && IsMatch(t, m) && m.start == p
    ensures MatchAt(t, p).Some?
    ensures m.sgEnd <= MatchAt(t, p).value.sgEnd
    ensures m.sgEnd == MatchAt(t, p).value.sgEnd ==> m == MatchAt(t, p).value
  {
    DigitRunEndIs(t, p, m.dot);
    var k := DigitRunEnd(t, m.dot + 1);
    assert m.sgEnd <= k;
    assert MatchAt(t, p) == Backtrack(t, p, m.dot, k);
    TailAtComplete(t, m.sgEnd, m.tail);
    BacktrackGreatest(t, p, m.dot, k, m.sgEnd);
    var r := Backtrack(t, p, m.dot, k).value;
    if r.sgEnd == m.sgEnd {
      assert r.tail == m.tail;
    }
  }

  /** No match of the pattern starts anywhere in t[a..b]. */
  predicate NoMatchIn(t: string, a: nat, b: nat) {
    forall q | a <= q < b && q <= |t| :: MatchAt(t, q).None?
  }

  /** `_interval_re.search(text, p)`: the leftmost match starting at p or later. */
  function Search(t: string, p: nat): (r: Option<Found>)
    requires p <= |t|
    ensures r.Some? ==> p <= r.value.start < |t| && MatchAt(t, r.value.start) == r
    decreases |t| - p
  {
    if p == |t| then None
    else
      match MatchAt(t, p)
      case Some(m) => Some(m)
      case None => Search(t, p + 1)
  }

  /** The search skips no match: none starts before the one it finds, or anywhere if it finds none. */
  lemma {:induction false} SearchLeftmost(t: string, p: nat)
    requires p <= |t|
    ensures NoMatchIn(t, p, if Search(t, p).Some? then Search(t, p).value.start else |t|)
    decreases |t| - p
  {
    if p < |t| && MatchAt(t, p).None? {
      assert Search(t, p) == Search(t, p + 1);
      SearchLeftmost(t, p + 1);
    }
  }

  /**
   * `finditer` from position p: search for the leftmost match, report it,
   * and go on from its end (matches are never empty).
   */
  function Scan(t: string, p: nat): (r: seq<Found>)
    requires p <= |t|
    decreases |t| - p
  {
    match Search(t, p)
    case None => []
    case Some(m) => [m] + Scan(t, m.tail.endEnd)
  }

  /** Where the search for the i-th match of a scan from p begins. */
  function SearchFrom(r: seq<Found>, p: nat, i: nat): nat
    requires i <= |r|
  {
    if i == 0 then p else r[i - 1].tail.endEnd
  }

  /** The i-th match of a scan is what the search from the end of the previous one finds. */
  lemma {:induction false} ScanSearch(t: string, p: nat, i: nat)
    requires p <= |t| && i <= |Scan(t, p)|
    ensures SearchFrom(Scan(t, p), p, i) <= |t|
    ensures Search(t, SearchFrom(Scan(t, p), p, i)) == if i < |Scan(t, p)| then Some(Scan(t, p)[i]) else None
    decreases |t| - p
  {
    var r := Scan(t, p);
    if i > 0 {
      var m := Search(t, p).value;
      var r' := Scan(t, m.tail.endEnd);
      assert r == [m] + r';
      ScanSearch(t, m.tail.endEnd, i - 1);
      assert SearchFrom(r, p, i) == SearchFrom(r', m.tail.endEnd, i - 1);
    }
  }

  /** A scan reports genuine matches, each the one Python reports at its position. */
  lemma ScanSound(t: string, p: nat)
    requires p <= |t|
    ensures forall i | 0 <= i < |Scan(t, p)| ::
      IsMatch(t, Scan(t, p)[i]) && SearchFrom(Scan(t, p), p, i) <= Scan(t, p)[i].start < |t|
      && MatchAt(t, Scan(t, p)[i].start) == Some(Scan(t, p)[i])
  {
    forall i | 0 <= i < |Scan(t, p)|
      ensures IsMatch(t, Scan(t, p)[i]) && SearchFrom(Scan(t, p), p, i) <= Scan(t, p)[i].start < |t|
      ensures MatchAt(t, Scan(t, p)[i].start) == Some(Scan(t, p)[i])
    {
      ScanSearch(t, p, i);
      MatchAtSound(t, Scan(t, p)[i].start);
    }
  }

  /** Where the scan from p stops looking for the i-th match: its start, or the end of the text. */
  function FoundAt(t: string, r: seq<Found>, i: nat): nat
    requires i <= |r|
  {
    if i < |r| then r[i].start else |t|
  }

  /**
   * No match is skipped: none starts between where the search for the
   * i-th match begins and that match, or, after the last one, the end.
   */
  lemma ScanLeftmost(t: string, p: nat, i: nat)
    requires p <= |t| && i <= |Scan(t, p)|
    ensures SearchFrom(Scan(t, p), p, i) <= FoundAt(t, Scan(t, p), i)
    ensures NoMatchIn(t, SearchFrom(Scan(t, p), p, i), FoundAt(t, Scan(t, p), i))
  {
    ScanSearch(t, p, i);
    SearchLeftmost(t, SearchFrom(Scan(t, p), p, i));
  }

  /** Text in which the pattern matches nowhere yields no matches, without error. */
  lemma {:induction false} ScanNothing(t: string, p: nat)
    requires p <= |t| && NoMatchIn(t, p, |t|)
    ensures Scan(t, p) == []
  {
  }

  /** `(sg, start_s, end_s)` as built at bot.py:412-415. */
  datatype Triple = Triple(sg: string, start: string, end: string)

  /** The capture positions of a match lie inside the text. */
  predicate Captures(t: string, m: Found) {
    m.start <= m.sgEnd <= |t| && m.tail.startBegin <= m.tail.startEnd <= |t|
    && m.tail.endBegin <= m.tail.endEnd <= |t|
  }

  /** The triple of one match, the subgroup `.strip()`ped as at bot.py:412. */
  function TripleOf(t: string, m: Found): (r: Triple)
    requires Captures(t, m)
    ensures r.start == t[m.tail.startBegin..m.tail.startEnd]
    ensures r.end == t[m.tail.endBegin..m.tail.endEnd]
    ensures |r.sg| <= m.sgEnd - m.start
  {
    Triple(Strip(t[m.start..m.sgEnd]), t[m.tail.startBegin..m.tail.startEnd], t[m.tail.endBegin..m.tail.endEnd])
  }

  /** The subgroup capture has no surrounding whitespace, so `.strip()` leaves it as captured. */
  lemma TripleOfMatch(t: string, m: Found)
    requires IsMatch(t, m)
    ensures Captures(t, m) && TripleOf(t, m).sg == t[m.start..m.sgEnd]
  {
    var sg := t[m.start..m.sgEnd];
    assert sg[0] == t[m.start] && sg[|sg| - 1] == t[m.sgEnd - 1];
    StripPadded([], sg, []);
    assert [] + sg + [] == sg;
  }

  function TriplesOf(t: string, ms: seq<Found>): (r: seq<Triple>)
    requires forall i | 0 <= i < |ms| :: Captures(t, ms[i])
    ensures |r| == |ms|
    ensures forall i | 0 <= i < |ms| :: r[i] == TripleOf(t, ms[i])
  {
    seq(|ms|, i requires 0 <= i < |ms| => TripleOf(t, ms[i]))
  }

  /** The matches of the whole document, in document order. */
  function Matches(t: string): (r: seq<Found>)
    ensures forall i | 0 <= i < |r| :: IsMatch(t, r[i])
  {
    ScanSound(t, 0);
    Scan(t, 0)
  }

  lemma MatchesCaptures(t: string)
    ensures forall i | 0 <= i < |Matches(t)| :: Captures(t, Matches(t)[i])
  {
    var ms := Matches(t);
    forall i | 0 <= i < |ms|
      ensures Captures(t, ms[i])
    {
      TripleOfMatch(t, ms[i]);
    }
  }

  /** The triples of the whole document, one per match, in document order. */
  function Extract(t: string): (r: seq<Triple>)
    ensures |r| == |Matches(t)|
  {
    MatchesCaptures(t);
    TriplesOf(t, Matches(t))
  }

  /** Each extracted triple holds the three captures of its match verbatim. */
  lemma ExtractCaptures(t: string, i: nat)
    requires i < |Extract(t)|
    ensures IsMatch(t, Matches(t)[i])
    ensures Extract(t)[i] == Triple(t[Matches(t)[i].start..Matches(t)[i].sgEnd],
      t[Matches(t)[i].tail.startBegin..Matches(t)[i].tail.startEnd],
      t[Matches(t)[i].tail.endBegin..Matches(t)[i].tail.endEnd])
  {
    TripleOfMatch(t, Matches(t)[i]);
  }

  /** The loop of bot.py:410-415: one triple appended per `finditer` match. */
  method ExtractIntervals(text: string) returns (intervals: seq<Triple>)
    ensures intervals == Extract(text)
  {
    MatchesCaptures(text);
    intervals := AppendTriples(text, Matches(text));
  }

  /** Builds the triples of the given matches, in their order. */
  method AppendTriples(text: string, ms: seq<Found>) returns (intervals: seq<Triple>)
    requires forall i | 0 <= i < |ms| :: Captures(text, ms[i])
    ensures intervals == TriplesOf(text, ms)
  {
    intervals := [];
    for i := 0 to |ms|
      invariant |intervals| == i
      invariant forall k | 0 <= k < i :: intervals[k] == TripleOf(text, ms[k])
    {
      intervals := intervals + [TripleOf(text, ms[i])];
    }
  }

  /** A text that is one match from its first to its last character yields exactly that match's triple. */
  lemma WholeMatch(t: string, m: Found)
    requires IsMatch(t, m) && m.start == 0 && m.tail.endEnd == |t|
    requires m.sgEnd == |t| || !IsDigit(t[m.sgEnd])
    ensures Extract(t) == [Triple(t[..m.sgEnd], t[m.tail.startBegin..m.tail.startEnd],
                                  t[m.tail.endBegin..m.tail.endEnd])]
  {
    DigitRunEndIs(t, 0, m.dot);
    DigitRunEndIs(t, m.dot + 1, m.sgEnd);
    MatchAtGreatest(t, 0, m);
    assert MatchAt(t, 0) == Some(m);
    assert Scan(t, |t|) == [];
    assert Scan(t, 0) == [m];
    TripleOfMatch(t, m);
  }

  /** "1.2 07:00–09:00" gives ("1.2", "07:00", "09:00"). */
  lemma ExampleDash(t: string)
    requires t == "1.2" + " " + "07:00" + "\U{2013}" + "09:00"
    ensures Extract(t) == [Triple("1.2", "07:00", "09:00")]
  {
    var m := Found(0, 1, 3, Tail(4, 4, 9, 9, 10, 15));
    assert SpacesIn(t, 3, 4) && SpacesIn(t, 9, 9) && SpacesIn(t, 10, 10);
    assert TimeShape(t, 4, 9) && TimeShape(t, 10, 15);
    assert IsMatch(t, m);
    WholeMatch(t, m);
    Pieces3("1.2", " ", "07:00", "\U{2013}", "09:00");
  }

  /** "1.2: 07:00 - 09:00" gives the same triple: the separator and the spaces are not captured. */
  lemma ExampleColon(t: string)
    requires t == "1.2" + ": " + "07:00" + " - " + "09:00"
    ensures Extract(t) == [Triple("1.2", "07:00", "09:00")]
  {
    var m := Found(0, 1, 3, Tail(3, 5, 10, 11, 13, 18));
    assert SpacesIn(t, 3, 3) && SpacesIn(t, 4, 5) && SpacesIn(t, 10, 11) && SpacesIn(t, 12, 13);
    assert TimeShape(t, 5, 10) && TimeShape(t, 13, 18);
    assert IsMatch(t, m);
    WholeMatch(t, m);
    Pieces3("1.2", ": ", "07:00", " - ", "09:00");
  }

  /** The three captures of a text laid out as subgroup, gap, time, gap, time. */
  lemma Pieces3(a: string, b: string, c: string, d: string, e: string)
    ensures var t := a + b + c + d + e;
      t[..|a|] == a && t[|a| + |b|..|a| + |b| + |c|] == c && t[|a| + |b| + |c| + |d|..|t|] == e
  {
    var t := a + b + c + d + e;
    assert t == a + (b + (c + (d + e)));
    assert t[|a| + |b|..] == c + d + e;
    assert t[|a| + |b| + |c| + |d|..] == e;
  }
}
