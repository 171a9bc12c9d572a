/**
 * The two orderings the core relies on: `sorted(set(...))` of subgroup
 * strings (bot.py:418), which compares strings by code point, and
 * `ORDER BY chat_id` over integer keys (database/db.py:200).
 */
module Sorting {

  /** The elements of a list, as a set. */
  function Elems<T>(s: seq<T>): set<T> {
    set x | x in s
  }

  /** Python's `<` on `str`: lexicographic by code point, a proper prefix first. */
  predicate StrLt(a: string, b: string)
    decreases |a|
  {
    |b| > 0 && (|a| == 0 || a[0] < b[0] || (a[0] == b[0] && StrLt(a[1..], b[1..])))
  }

  lemma {:induction false} StrLtIrreflexive(a: string)
    ensures !StrLt(a, a)
    decreases |a|
  {
    if |a| > 0 {
      StrLtIrreflexive(a[1..]);
    }
  }

  lemma {:induction false} StrLtTotal(a: string, b: string)
    requires a != b
    ensures StrLt(a, b) || StrLt(b, a)
    decreases |a|
  {
    if |a| > 0 && |b| > 0 && a[0] == b[0] {
      assert a[1..] != b[1..];
      StrLtTotal(a[1..], b[1..]);
    }
  }

  lemma {:induction false} StrLtTrans(a: string, b: string, c: string)
    requires StrLt(a, b) && StrLt(b, c)
    ensures StrLt(a, c)
    decreases |a|
  {
    if |a| > 0 && a[0] == b[0] && b[0] == c[0] {
      StrLtTrans(a[1..], b[1..], c[1..]);
    }
  }

  lemma StrLtAsym(a: string, b: string)
    requires StrLt(a, b)
    ensures !StrLt(b, a)
  {
    if StrLt(b, a) {
      StrLtTrans(a, b, a);
      StrLtIrreflexive(a);
    }
  }

  /** Neighbours strictly ascending. */
  predicate StrictlySorted(r: seq<string>) {
    forall i | 0 <= i < |r| - 1 :: StrLt(r[i], r[i + 1])
  }

  /** In a strictly sorted list every earlier element is below every later one. */
  lemma {:induction false} SortedPairwise(r: seq<string>, i: nat, j: nat)
    requires StrictlySorted(r) && i < j < |r|
    ensures StrLt(r[i], r[j])
    decreases j - i
  {
    if i + 1 < j {
      SortedPairwise(r, i + 1, j);
      StrLtTrans(r[i], r[i + 1], r[j]);
    }
  }

  /** So it holds no element twice. */
  lemma SortedDistinct(r: seq<string>, i: nat, j: nat)
    requires StrictlySorted(r) && i < j < |r|
    ensures r[i] != r[j]
  {
    SortedPairwise(r, i, j);
    StrLtIrreflexive(r[i]);
  }

  /** x put into its place in a strictly sorted list, if not already there. */
  function Insert(x: string, r: seq<string>): (s: seq<string>)
    requires StrictlySorted(r)
    ensures StrictlySorted(s)
    ensures Elems(s) == Elems(r) + {x}
    ensures |s| > 0 && (s[0] == x || (|r| > 0 && s[0] == r[0]))
  {
    if r == [] then [x]
    else if x == r[0] then r
    else if StrLt(x, r[0]) then [x] + r
    else
      StrLtTotal(x, r[0]);
      var t := Insert(x, r[1..]);
      assert StrLt(r[0], t[0]) by {
        if t[0] != x {
          assert r[1..][0] == r[1];
        }
      }
      assert r == [r[0]] + r[1..];
      assert Elems([r[0]] + t) == {r[0]} + Elems(t);
      assert Elems(r) == {r[0]} + Elems(r[1..]);
      [r[0]] + t
  }

  /** `sorted(set(xs))`. */
  function SortedSet(xs: seq<string>): (r: seq<string>)
    ensures StrictlySorted(r)
    ensures Elems(r) == Elems(xs)
  {
    if xs == [] then []
    else
      var r := Insert(xs[|xs| - 1], SortedSet(xs[..|xs| - 1]));
      assert Elems(xs) == Elems(xs[..|xs| - 1]) + {xs[|xs| - 1]} by {
        assert xs == xs[..|xs| - 1] + [xs[|xs| - 1]];
      }
      r
  }

  lemma ElemsEmpty<T>(r: seq<T>)
    ensures Elems(r) == {} <==> r == []
  {
    if r != [] {
      assert r[0] in Elems(r);
    }
  }

  /** Any two strictly sorted lists with the same elements are equal. */
  lemma {:induction false} SortedUnique(r: seq<string>, s: seq<string>)
    requires StrictlySorted(r) && StrictlySorted(s) && Elems(r) == Elems(s)
    ensures r == s
    decreases |r|
  {
    ElemsEmpty(r);
    ElemsEmpty(s);
    if r != [] && s != [] {
      assert r[0] == s[0] by {
        if r[0] != s[0] {
          assert r[0] in Elems(s) && s[0] in Elems(r);
          var i :| 0 <= i < |s| && s[i] == r[0];
          var j :| 0 <= j < |r| && r[j] == s[0];
          SortedPairwise(s, 0, i);
          SortedPairwise(r, 0, j);
          StrLtAsym(r[0], s[0]);
        }
      }
      assert Elems(r[1..]) == Elems(s[1..]) by {
        forall x | x in Elems(r[1..]) ensures x in Elems(s[1..]) {
          var i :| 1 <= i < |r| && r[i] == x;
          SortedDistinct(r, 0, i);
          assert x in r && x in Elems(s);
          var j :| 0 <= j < |s| && s[j] == x;
          assert j != 0;
          assert s[1..][j - 1] == x;
        }
        forall x | x in Elems(s[1..]) ensures x in Elems(r[1..]) {
          var i :| 1 <= i < |s| && s[i] == x;
          SortedDistinct(s, 0, i);
          assert x in s && x in Elems(r);
          var j :| 0 <= j < |r| && r[j] == x;
          assert j != 0;
          assert r[1..][j - 1] == x;
        }
      }
      SortedUnique(r[1..], s[1..]);
      assert r == [r[0]] + r[1..] && s == [s[0]] + s[1..];
    }
  }

  /** Strictly ascending integers. */
  predicate Ascending(r: seq<int>) {
    forall i, j | 0 <= i < j < |r| :: r[i] < r[j]
  }

  /** The least element of a non-empty finite set of integers. */
  function Min(xs: set<int>): (m: int)
    requires xs != {}
    ensures m in xs && forall y | y in xs :: m <= y
  {
    MinExists(xs);
    assert exists m :: m in xs && forall y | y in xs :: m <= y;
    var m :| m in xs && forall y | y in xs :: m <= y;
    m
  }

  lemma MinExists(xs: set<int>)
    requires xs != {}
    ensures exists m :: m in xs && forall y | y in xs :: m <= y
    decreases |xs|
  {
    if forall y :: y !in xs {
      assert false;
    }
    var x :| x in xs;
    if xs != {x} {
      MinExists(xs - {x});
      var m :| m in xs - {x} && forall y | y in xs - {x} :: m <= y;
      var least := if x < m then x else m;
      forall y | y in xs ensures least <= y {
        if y != x {
          assert y in xs - {x};
        }
      }
      assert least in xs;
    } else {
      forall y | y in xs ensures x <= y { }
    }
  }

  lemma AscendingCons(m: int, rest: seq<int>)
    requires Ascending(rest) && forall y | y in Elems(rest) :: m < y
    ensures Ascending([m] + rest)
    ensures Elems([m] + rest) == {m} + Elems(rest)
  {
    var r := [m] + rest;
    forall i, j | 0 <= i < j < |r| ensures r[i] < r[j] {
      assert r[j] == rest[j - 1];
      assert rest[j - 1] in Elems(rest);
      if i > 0 {
        assert r[i] == rest[i - 1];
      }
    }
  }

  /** The elements of a finite set of integers in ascending order. */
  function SortedInts(xs: set<int>): (r: seq<int>)
    ensures Ascending(r)
    ensures Elems(r) == xs
    ensures |r| == |xs|
    decreases |xs|
  {
    if xs == {} then []
    else
      var m := Min(xs);
      var rest := SortedInts(xs - {m});
      AscendingCons(m, rest);
      [m] + rest
  }
}
