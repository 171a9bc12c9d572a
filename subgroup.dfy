/**
 * The subgroup canonicaliser `format_subgroup` (bot.py:73, bot.py:90-100).
 *
 * `_subgroup_re` is `^\s*(\d+)\s*\.\s*(\d+)\s*$` used with `re.match`.
 * Because spaces, digits and the dot are disjoint classes, every greedy
 * quantifier in it must take its longest run for the match to succeed,
 * so the scan below (longest run, then the next token) computes exactly
 * what the regular expression accepts and captures.
 */
module Subgroup {
  import opened Wrappers
  import opened Text

  /** `format_subgroup(raw)`: `"g.s"` when raw has the shape, None otherwise. */
  function FormatSubgroup(raw: string): (r: Option<string>)
  {
    var a := SpaceRunEnd(raw, 0);
    var b := DigitRunEnd(raw, a);
    if b == a then None
    else
      var c := SpaceRunEnd(raw, b);
      if c == |raw| || raw[c] != '.' then None
      else
        var d := SpaceRunEnd(raw, c + 1);
        var e := DigitRunEnd(raw, d);
        if e == d then None
        else if SpaceRunEnd(raw, e) != |raw| then None
        else Some(raw[a..b] + "." + raw[d..e])
  }

  /** A canonical subgroup key is a fixed point of the canonicaliser. */
  predicate Canonical(key: string) {
    FormatSubgroup(key) == Some(key)
  }

  /** `canonical.split(".")[0]` (bot.py:117): the group id of a key. */
  function GroupIdOf(key: string): string {
    Before(key, '.')
  }

  /** The text the regular expression accepts, spelled out piece by piece. */
  function Layout(w1: string, g: string, w2: string, w3: string, s: string, w4: string): string {
    w1 + g + w2 + "." + w3 + s + w4
  }

  predicate Pieces(w1: string, g: string, w2: string, w3: string, s: string, w4: string) {
    AllSpace(w1) && AllSpace(w2) && AllSpace(w3) && AllSpace(w4) &&
    g != [] && AllDigits(g) && s != [] && AllDigits(s)
  }

  /** Completeness: every text of the accepted shape is canonicalised to `g + "." + s`. */
  lemma {:induction false} FormatAccepts(w1: string, g: string, w2: string, w3: string, s: string, w4: string)
    requires Pieces(w1, g, w2, w3, s, w4)
    ensures FormatSubgroup(Layout(w1, g, w2, w3, s, w4)) == Some(g + "." + s)
  {
    var raw := Layout(w1, g, w2, w3, s, w4);
    var a := |w1|;
    var b := a + |g|;
    var c := b + |w2|;
    var d := c + 1 + |w3|;
    var e := d + |s|;
    assert |raw| == e + |w4|;
    forall k | 0 <= k < |raw|
      ensures k < a ==> raw[k] == w1[k]
      ensures a <= k < b ==> raw[k] == g[k - a]
      ensures b <= k < c ==> raw[k] == w2[k - b]
      ensures k == c ==> raw[k] == '.'
      ensures c < k < d ==> raw[k] == w3[k - c - 1]
      ensures d <= k < e ==> raw[k] == s[k - d]
      ensures e <= k ==> raw[k] == w4[k - e]
    {
    }
    SpaceRunEndIs(raw, 0, a);
    DigitRunEndIs(raw, a, b);
    SpaceRunEndIs(raw, b, c);
    SpaceRunEndIs(raw, c + 1, d);
    DigitRunEndIs(raw, d, e);
    SpaceRunEndIs(raw, e, |raw|);
    assert raw[a..b] == g;
    assert raw[d..e] == s;
  }

  /** Soundness: an accepted text has the shape, and the result is made of its two numbers. */
  lemma FormatSound(raw: string) returns (w1: string, g: string, w2: string, w3: string, s: string, w4: string)
    requires FormatSubgroup(raw).Some?
    ensures Pieces(w1, g, w2, w3, s, w4)
    ensures raw == Layout(w1, g, w2, w3, s, w4)
    ensures FormatSubgroup(raw) == Some(g + "." + s)
  {
    var a := SpaceRunEnd(raw, 0);
    var b := DigitRunEnd(raw, a);
    var c := SpaceRunEnd(raw, b);
    assert a < b && c < |raw| && raw[c] == '.';
    var d := SpaceRunEnd(raw, c + 1);
    var e := DigitRunEnd(raw, d);
    assert d < e && SpaceRunEnd(raw, e) == |raw|;
    assert FormatSubgroup(raw) == Some(raw[a..b] + "." + raw[d..e]);
    w1, g, w2, w3, s, w4 := raw[..a], raw[a..b], raw[b..c], raw[c + 1..d], raw[d..e], raw[e..];
    SplitSeven(raw, a, b, c, d, e);
    RunsArePieces(raw, a, b, c, d, e);
  }

  /** The runs the canonicaliser steps over are the pieces of the shape. */
  lemma RunsArePieces(raw: string, a: nat, b: nat, c: nat, d: nat, e: nat)
    requires a == SpaceRunEnd(raw, 0) && b == DigitRunEnd(raw, a) && a < b
    requires c == SpaceRunEnd(raw, b) && c < |raw|
    requires d == SpaceRunEnd(raw, c + 1) && e == DigitRunEnd(raw, d) && d < e
    requires SpaceRunEnd(raw, e) == |raw|
    ensures Pieces(raw[..a], raw[a..b], raw[b..c], raw[c + 1..d], raw[d..e], raw[e..])
  {
    SpaceRunSpaces(raw, 0);
    SpaceRunSpaces(raw, b);
    SpaceRunSpaces(raw, c + 1);
    SpaceRunSpaces(raw, e);
    DigitRunDigits(raw, a);
    DigitRunDigits(raw, d);
    SpacesSlice(raw, 0, a);
    SpacesSlice(raw, b, c);
    SpacesSlice(raw, c + 1, d);
    SpacesSlice(raw, e, |raw|);
    DigitsSlice(raw, a, b);
    DigitsSlice(raw, d, e);
  }

  lemma SplitSeven(raw: string, a: nat, b: nat, c: nat, d: nat, e: nat)
    requires a <= b <= c < d <= e <= |raw| && raw[c] == '.'
    ensures raw == Layout(raw[..a], raw[a..b], raw[b..c], raw[c + 1..d], raw[d..e], raw[e..])
  {
    assert raw[..b] == raw[..a] + raw[a..b];
    assert raw[..c] == raw[..b] + raw[b..c];
    assert raw[..c + 1] == raw[..c] + ".";
    assert raw[..d] == raw[..c + 1] + raw[c + 1..d];
    assert raw[..e] == raw[..d] + raw[d..e];
    assert raw == raw[..e] + raw[e..];
  }

  /** Either the text has the shape and is canonicalised, or it is rejected with None. */
  lemma FormatRejects(raw: string)
    requires FormatSubgroup(raw) == None
    ensures forall w1, g, w2, w3, s, w4 :: Pieces(w1, g, w2, w3, s, w4) ==> raw != Layout(w1, g, w2, w3, s, w4)
  {
    forall w1, g, w2, w3, s, w4 | Pieces(w1, g, w2, w3, s, w4)
      ensures raw != Layout(w1, g, w2, w3, s, w4)
    {
      FormatAccepts(w1, g, w2, w3, s, w4);
    }
  }

  /** Idempotence: the canonical form is canonical. */
  lemma FormatIdempotent(raw: string)
    requires FormatSubgroup(raw).Some?
    ensures Canonical(FormatSubgroup(raw).value)
  {
    var w1, g, w2, w3, s, w4 := FormatSound(raw);
    FormatAccepts([], g, [], [], s, []);
    assert Layout([], g, [], [], s, []) == g + "." + s;
  }

  /** The group id of a canonical key is the non-empty number before its dot. */
  lemma GroupIdOfFormat(raw: string) returns (g: string, s: string)
    requires FormatSubgroup(raw).Some?
    ensures FormatSubgroup(raw).value == g + "." + s
    ensures GroupIdOf(FormatSubgroup(raw).value) == g
    ensures g != [] && AllDigits(g) && s != [] && AllDigits(s)
  {
    var w1, w2, w3, w4;
    w1, g, w2, w3, s, w4 := FormatSound(raw);
    DigitsBeforeDot(g, s);
  }

  lemma {:induction false} DigitsBeforeDot(g: string, s: string)
    requires AllDigits(g)
    ensures Before(g + "." + s, '.') == g
    decreases |g|
  {
    if g == [] {
      assert (g + "." + s)[0] == '.';
    } else {
      assert (g + "." + s)[1..] == g[1..] + "." + s;
      DigitsBeforeDot(g[1..], s);
    }
  }

  /** A canonical key is its own canonical form with a non-empty group id. */
  lemma CanonicalGroupId(key: string)
    requires Canonical(key)
    ensures GroupIdOf(key) != [] && AllDigits(GroupIdOf(key))
  {
    var g, s := GroupIdOfFormat(key);
  }

  /** Blanks around the text and around the dot are dropped. */
  lemma ExampleSpaced()
    ensures FormatSubgroup("  2 . 3 ") == Some("2.3")
    ensures FormatSubgroup("2 . 3") == Some("2.3")
  {
    FormatAccepts("  ", "2", " ", " ", "3", " ");
    assert Layout("  ", "2", " ", " ", "3", " ") == "  2 . 3 ";
    FormatAccepts("", "2", " ", " ", "3", "");
    assert Layout("", "2", " ", " ", "3", "") == "2 . 3";
    assert "2" + "." + "3" == "2.3";
  }

  lemma ExampleNoDot()
    ensures FormatSubgroup("1") == None
    ensures FormatSubgroup("abc") == None
    ensures FormatSubgroup("") == None
  {
    assert DigitRunEnd("1", 0) == 1 by { DigitRunEndIs("1", 0, 1); }
    assert SpaceRunEnd("1", 1) == 1;
    assert SpaceRunEnd("abc", 0) == 0;
  }

  lemma ExampleTwoDots()
    ensures FormatSubgroup("1.2.3") == None
  {
    var t := "1.2.3";
    assert SpaceRunEnd(t, 0) == 0;
    assert DigitRunEnd(t, 0) == 1 by { DigitRunEndIs(t, 0, 1); }
    assert SpaceRunEnd(t, 1) == 1;
    assert SpaceRunEnd(t, 2) == 2;
    assert DigitRunEnd(t, 2) == 3 by { DigitRunEndIs(t, 2, 3); }
    assert SpaceRunEnd(t, 3) == 3;
  }
}
