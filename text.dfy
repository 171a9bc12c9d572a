/**
 * Character classes and small string helpers shared by the parsers.
 *
 * Only ASCII is modelled: `IsDigit` is `\d` restricted to '0'..'9' and
 * `IsSpace` is the ASCII part of Python's `str.isspace()`, which is also
 * what `\s` matches in a `str` pattern and what `str.strip()` removes.
 */
module Text {

  predicate IsDigit(c: char) { '0' <= c <= '9' }

  /** Space, \t \n \v \f \r (9..13) and the separators \x1c..\x1f. */
  predicate IsSpace(c: char) {
    c == ' ' || ('\t' <= c <= '\r') || ('\U{1C}' <= c <= '\U{1F}')
  }

  predicate AllSpace(s: string) { forall i | 0 <= i < |s| :: IsSpace(s[i]) }

  predicate AllDigits(s: string) { forall i | 0 <= i < |s| :: IsDigit(s[i]) }

  /** Every character of t in [i, j) is a space. */
  predicate SpacesIn(t: string, i: nat, j: nat)
    requires i <= j <= |t|
  {
    forall k | i <= k < j :: IsSpace(t[k])
  }

  /** Every character of t in [i, j) is a digit. */
  predicate DigitsIn(t: string, i: nat, j: nat)
    requires i <= j <= |t|
  {
    forall k | i <= k < j :: IsDigit(t[k])
  }

  /** End of the longest run of spaces in t that starts at i (greedy `\s*`). */
  function SpaceRunEnd(t: string, i: nat): (r: nat)
    requires i <= |t|
    ensures i <= r <= |t|
    ensures r == |t| || !IsSpace(t[r])
    decreases |t| - i
  {
    if i < |t| && IsSpace(t[i]) then SpaceRunEnd(t, i + 1) else i
  }

  /** The run really consists of spaces. */
  lemma {:induction false} SpaceRunSpaces(t: string, i: nat)
    requires i <= |t|
    ensures SpacesIn(t, i, SpaceRunEnd(t, i))
    decreases |t| - i
  {
    if i < |t| && IsSpace(t[i]) {
      SpaceRunSpaces(t, i + 1);
    }
  }

  /** End of the longest run of digits in t that starts at i (greedy `\d*`). */
  function DigitRunEnd(t: string, i: nat): (r: nat)
    requires i <= |t|
    ensures i <= r <= |t|
    ensures r == |t| || !IsDigit(t[r])
    decreases |t| - i
  {
    if i < |t| && IsDigit(t[i]) then DigitRunEnd(t, i + 1) else i
  }

  /** The run really consists of digits. */
  lemma {:induction false} DigitRunDigits(t: string, i: nat)
    requires i <= |t|
    ensures DigitsIn(t, i, DigitRunEnd(t, i))
    decreases |t| - i
  {
    if i < |t| && IsDigit(t[i]) {
      DigitRunDigits(t, i + 1);
    }
  }

  /** A maximal run of spaces is determined by where it stops. */
  lemma {:induction false} SpaceRunEndIs(t: string, i: nat, j: nat)
    requires i <= j <= |t| && SpacesIn(t, i, j)
    requires j == |t| || !IsSpace(t[j])
    ensures SpaceRunEnd(t, i) == j
    decreases j - i
  {
    if i < j {
      SpaceRunEndIs(t, i + 1, j);
    }
  }

  /** A maximal run of digits is determined by where it stops. */
  lemma {:induction false} DigitRunEndIs(t: string, i: nat, j: nat)
    requires i <= j <= |t| && DigitsIn(t, i, j)
    requires j == |t| || !IsDigit(t[j])
    ensures DigitRunEnd(t, i) == j
    decreases j - i
  {
    if i < j {
      DigitRunEndIs(t, i + 1, j);
    }
  }

  lemma SpacesSlice(t: string, i: nat, j: nat)
    requires i <= j <= |t| && SpacesIn(t, i, j)
    ensures AllSpace(t[i..j])
  {
    forall k | 0 <= k < j - i ensures IsSpace(t[i..j][k]) { assert t[i..j][k] == t[i + k]; }
  }

  lemma DigitsSlice(t: string, i: nat, j: nat)
    requires i <= j <= |t| && DigitsIn(t, i, j)
    ensures AllDigits(t[i..j])
  {
    forall k | 0 <= k < j - i ensures IsDigit(t[i..j][k]) { assert t[i..j][k] == t[i + k]; }
  }

  /** s without its trailing spaces. */
  function TrimEnd(s: string): (r: string)
    ensures |r| <= |s| && r == s[..|r|]
    ensures AllSpace(s[|r|..])
    ensures r == [] || !IsSpace(r[|r| - 1])
  {
    if |s| > 0 && IsSpace(s[|s| - 1]) then
      var r := TrimEnd(s[..|s| - 1]);
      assert s[..|s| - 1][..|r|] == s[..|r|];
      assert s[|r|..] == s[..|s| - 1][|r|..] + [s[|s| - 1]];
      assert AllSpace(s[|r|..]) by {
        forall k | 0 <= k < |s| - |r| ensures IsSpace(s[|r|..][k]) {
          if k < |s| - 1 - |r| { assert s[|r|..][k] == s[..|s| - 1][|r|..][k]; }
        }
      }
      r
    else
      assert s[|s|..] == [];
      s
  }

  /** Python's `s.strip()`: s without leading and trailing spaces. */
  function Strip(s: string): (r: string)
    ensures |r| <= |s|
    ensures r == [] || (!IsSpace(r[0]) && !IsSpace(r[|r| - 1]))
    ensures AllSpace(s) <==> r == []
  {
    var i := SpaceRunEnd(s, 0);
    SpaceRunSpaces(s, 0);
    var r := TrimEnd(s[i..]);
    assert r != [] ==> r[0] == s[i];
    r
  }

  /** Stripping removes exactly the spaces around a word whose ends are not spaces. */
  lemma {:induction false} StripPadded(w1: string, x: string, w2: string)
    requires AllSpace(w1) && AllSpace(w2)
    requires x == [] || (!IsSpace(x[0]) && !IsSpace(x[|x| - 1]))
    ensures Strip(w1 + x + w2) == x
  {
    var s := w1 + x + w2;
    if x == [] {
      assert AllSpace(s) by {
        forall k | 0 <= k < |s| ensures IsSpace(s[k]) {
          if k < |w1| { assert s[k] == w1[k]; } else { assert s[k] == w2[k - |w1|]; }
        }
      }
    } else {
      assert SpacesIn(s, 0, |w1|) by {
        forall k | 0 <= k < |w1| ensures IsSpace(s[k]) { assert s[k] == w1[k]; }
      }
      assert s[|w1|] == x[0];
      SpaceRunEndIs(s, 0, |w1|);
      assert s[|w1|..] == x + w2;
      TrimEndPadded(x, w2);
    }
  }

  lemma {:induction false} TrimEndPadded(x: string, w2: string)
    requires AllSpace(w2)
    requires x != [] && !IsSpace(x[|x| - 1])
    ensures TrimEnd(x + w2) == x
    decreases |w2|
  {
    if w2 == [] {
      assert x + w2 == x;
    } else {
      var s := x + w2;
      assert IsSpace(s[|s| - 1]) by { assert s[|s| - 1] == w2[|w2| - 1]; }
      assert s[..|s| - 1] == x + w2[..|w2| - 1];
      TrimEndPadded(x, w2[..|w2| - 1]);
    }
  }

  /** `s.split(c)[0]`: the text of s before the first occurrence of c. */
  function Before(s: string, c: char): (r: string)
    ensures |r| <= |s| && r == s[..|r|]
    ensures c !in r
    ensures |r| == |s| || s[|r|] == c
  {
    if s == [] || s[0] == c then [] else [s[0]] + Before(s[1..], c)
  }

  /** `s.startswith(p)`. */
  predicate StartsWith(s: string, p: string) {
    |p| <= |s| && s[..|p|] == p
  }
}
