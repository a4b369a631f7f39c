/** Frequency ranking as `collections.Counter(words).most_common(n)` performs it:
    a Counter keeps its keys in first-occurrence order, and `most_common`
    sorts them stably by descending count and keeps the first `n`. */
module Ranking {

  /** How many times `w` occurs in `s` (the Counter's value for `w`). */
  function Occurrences(w: string, s: seq<string>): nat
  {
    multiset(s)[w]
  }

  /** Position of the first occurrence of `w` in `s`. */
  function FirstIndex(w: string, s: seq<string>): (k: nat)
    requires w in s
    ensures k < |s| && s[k] == w
    ensures forall j :: 0 <= j < k ==> s[j] != w
  {
    if s[0] == w then 0 else 1 + FirstIndex(w, s[1..])
  }

  /** `a` ranks strictly before `b`: it is more frequent in `s`, or as
      frequent and seen first. */
  predicate RanksBefore(a: string, b: string, s: seq<string>)
  {
    && a in s && b in s
    && (|| Occurrences(a, s) > Occurrences(b, s)
        || (Occurrences(a, s) == Occurrences(b, s) && FirstIndex(a, s) < FirstIndex(b, s)))
  }

  /** Every element of `r` ranks strictly before every later element. */
  predicate Ranked(r: seq<string>, s: seq<string>)
  {
    forall i, j :: 0 <= i < j < |r| ==> RanksBefore(r[i], r[j], s)
  }

  /** The distinct elements of `s` in order of first occurrence: the key order
      of `Counter(s)`. */
  function Distinct(s: seq<string>): seq<string>
  {
    if s == [] then []
    else
      var d := Distinct(s[..|s| - 1]);
      if s[|s| - 1] in d then d else d + [s[|s| - 1]]
  }

  /** Stable insertion of `x` after every element at least as frequent in `s`. */
  function InsertByCount(x: string, l: seq<string>, s: seq<string>): seq<string>
  {
    if l == [] then [x]
    else if Occurrences(x, s) > Occurrences(l[0], s) then [x] + l
    else [l[0]] + InsertByCount(x, l[1..], s)
  }

  /** Stable sort of `d` by descending count in `s`. */
  function SortByCount(d: seq<string>, s: seq<string>): seq<string>
  {
    if d == [] then [] else InsertByCount(d[|d| - 1], SortByCount(d[..|d| - 1], s), s)
  }

  /** `Counter(s).most_common(n)`, keys only. */
  function MostCommon(s: seq<string>, n: nat): seq<string>
  {
    var sorted := SortByCount(Distinct(s), s);
    if |sorted| <= n then sorted else sorted[..n]
  }

  lemma FirstIndexPrefix(w: string, s: seq<string>, t: seq<string>)
    requires w in s
    ensures w in s + t && FirstIndex(w, s + t) == FirstIndex(w, s)
  {
    assert (s + t)[FirstIndex(w, s)] == w;
  }

  /** The distinct elements are exactly the elements of `s`, listed with
      strictly increasing first-occurrence positions. */
  lemma {:induction false} DistinctProperties(s: seq<string>)
    ensures forall x :: x in Distinct(s) <==> x in s
    ensures forall i, j :: 0 <= i < j < |Distinct(s)| ==>
      FirstIndex(Distinct(s)[i], s) < FirstIndex(Distinct(s)[j], s)
  {
    if s != [] {
      var p, x := s[..|s| - 1], s[|s| - 1];
      assert s == p + [x];
      DistinctProperties(p);
      var d := Distinct(p);
      forall y | y in p
        ensures FirstIndex(y, s) == FirstIndex(y, p)
      {
        FirstIndexPrefix(y, p, [x]);
      }
      if x !in d {
        assert FirstIndex(x, s) == |p|;
        var r := d + [x];
        forall i, j | 0 <= i < j < |r|
          ensures FirstIndex(r[i], s) < FirstIndex(r[j], s)
        {
          assert r[i] == d[i] && d[i] in d;
          if j < |d| {
            assert r[j] == d[j] && d[j] in d;
          }
        }
      } else {
        forall i, j | 0 <= i < j < |d|
          ensures FirstIndex(d[i], s) < FirstIndex(d[j], s)
        {
          assert d[i] in d && d[j] in d;
        }
      }
    }
  }

  /** A list is ranked exactly when its tail is ranked and its head ranks
      before every element of the tail. */
  lemma RankedCons(a: string, t: seq<string>, s: seq<string>)
    ensures Ranked([a] + t, s) <==> (Ranked(t, s) && forall y :: y in t ==> RanksBefore(a, y, s))
  {
    var r := [a] + t;
    if Ranked(r, s) {
      forall i, j | 0 <= i < j < |t|
        ensures RanksBefore(t[i], t[j], s)
      {
        assert r[i + 1] == t[i] && r[j + 1] == t[j];
      }
      forall y | y in t
        ensures RanksBefore(a, y, s)
      {
        var j :| 0 <= j < |t| && t[j] == y;
        assert r[0] == a && r[j + 1] == y;
      }
    }
    if Ranked(t, s) && forall y :: y in t ==> RanksBefore(a, y, s) {
      forall i, j | 0 <= i < j < |r|
        ensures RanksBefore(r[i], r[j], s)
      {
        assert r[j] == t[j - 1] && t[j - 1] in t;
        if i > 0 {
          assert r[i] == t[i - 1];
        }
      }
    }
  }

  /** Insertion adds exactly one occurrence of `x`. */
  lemma {:induction false} InsertPerm(x: string, l: seq<string>, s: seq<string>)
    ensures multiset(InsertByCount(x, l, s)) == multiset(l) + multiset{x}
  {
    if l != [] && Occurrences(x, s) <= Occurrences(l[0], s) {
      InsertPerm(x, l[1..], s);
      assert l == [l[0]] + l[1..];
    }
  }

  lemma {:induction false} InsertRanked(x: string, l: seq<string>, s: seq<string>)
    requires x in s && Ranked(l, s)
    requires forall y :: y in l ==> y in s && FirstIndex(y, s) < FirstIndex(x, s)
    ensures Ranked(InsertByCount(x, l, s), s)
  {
    if l != [] {
      var t := l[1..];
      assert l == [l[0]] + t;
      RankedCons(l[0], t, s);
      if Occurrences(x, s) > Occurrences(l[0], s) {
        forall y | y in l
          ensures RanksBefore(x, y, s)
        {
          if y != l[0] {
            assert RanksBefore(l[0], y, s);
          }
        }
        RankedCons(x, l, s);
      } else {
        InsertRanked(x, t, s);
        InsertPerm(x, t, s);
        var rest := InsertByCount(x, t, s);
        forall y | y in rest
          ensures RanksBefore(l[0], y, s)
        {
          assert y in multiset(rest);
          if y != x {
            assert y in multiset(t);
          }
        }
        RankedCons(l[0], rest, s);
      }
    }
  }

  /** Sorting a list already in first-occurrence order yields a ranked
      permutation of it: the stable sort breaks count ties by first occurrence. */
  lemma {:induction false} SortRanked(d: seq<string>, s: seq<string>)
    requires forall x :: x in d ==> x in s
    requires forall i, j :: 0 <= i < j < |d| ==> FirstIndex(d[i], s) < FirstIndex(d[j], s)
    ensures multiset(SortByCount(d, s)) == multiset(d)
    ensures Ranked(SortByCount(d, s), s)
  {
    SortPermutes(d, s);
    if d != [] {
      var p := d[..|d| - 1];
      OrderedPrefix(d, s);
      SortRanked(p, s);
      SortStep(d, s);
    }
  }

  /** The stable sort is a permutation of its input. */
  lemma {:induction false} SortPermutes(d: seq<string>, s: seq<string>)
    ensures multiset(SortByCount(d, s)) == multiset(d)
  {
    if d != [] {
      var p := d[..|d| - 1];
      SortPermutes(p, s);
      SortPerm(p, d[|d| - 1], s);
      assert d == p + [d[|d| - 1]];
    }
  }

  lemma SortPerm(p: seq<string>, x: string, s: seq<string>)
    requires multiset(SortByCount(p, s)) == multiset(p)
    ensures multiset(SortByCount(p + [x], s)) == multiset(p + [x])
  {
    var d := p + [x];
    assert d[..|d| - 1] == p;
    InsertPerm(x, SortByCount(p, s), s);
  }

  /** Inserting the last element into the ranked permutation of the earlier
      ones ranks them all. */
  lemma SortStep(d: seq<string>, s: seq<string>)
    requires d != [] && d[|d| - 1] in s
    requires Ranked(SortByCount(d[..|d| - 1], s), s)
    requires multiset(SortByCount(d[..|d| - 1], s)) == multiset(d[..|d| - 1])
    requires forall y :: y in d[..|d| - 1] ==> y in s && FirstIndex(y, s) < FirstIndex(d[|d| - 1], s)
    ensures Ranked(SortByCount(d, s), s)
  {
    var p, x := d[..|d| - 1], d[|d| - 1];
    var q := SortByCount(p, s);
    SameMembers(q, p);
    InsertRanked(x, q, s);
  }

  lemma SameMembers(q: seq<string>, p: seq<string>)
    requires multiset(q) == multiset(p)
    ensures forall y :: y in q ==> y in p
  {
    forall y | y in q
      ensures y in p
    {
      assert y in multiset(q);
    }
  }

  /** Dropping the last element keeps first-occurrence order, and every
      element before the last occurs first before it. */
  lemma OrderedPrefix(d: seq<string>, s: seq<string>)
    requires d != []
    requires forall x :: x in d ==> x in s
    requires forall i, j :: 0 <= i < j < |d| ==> FirstIndex(d[i], s) < FirstIndex(d[j], s)
    ensures d[|d| - 1] in s
    ensures forall x :: x in d[..|d| - 1] ==> x in s
    ensures var p := d[..|d| - 1];
      forall i, j :: 0 <= i < j < |p| ==> FirstIndex(p[i], s) < FirstIndex(p[j], s)
    ensures forall y :: y in d[..|d| - 1] ==> FirstIndex(y, s) < FirstIndex(d[|d| - 1], s)
  {
    var p := d[..|d| - 1];
    assert d[|d| - 1] in d;
    forall y | y in p
      ensures y in s && FirstIndex(y, s) < FirstIndex(d[|d| - 1], s)
    {
      var i :| 0 <= i < |p| && p[i] == y;
      assert d[i] == y;
    }
  }

  /** The full ranking holds every element of `s` once, in rank order. */
  lemma FullRanking(s: seq<string>)
    ensures forall x :: x in SortByCount(Distinct(s), s) <==> x in s
    ensures Ranked(SortByCount(Distinct(s), s), s)
  {
    DistinctProperties(s);
    SortRanked(Distinct(s), s);
    var sorted := SortByCount(Distinct(s), s);
    forall x
      ensures x in sorted <==> x in s
    {
      assert x in sorted <==> x in multiset(sorted);
      assert x in Distinct(s) <==> x in multiset(Distinct(s));
    }
  }

  /** No word appears twice in `r`. */
  predicate NoDuplicates(r: seq<string>)
  {
    forall i, j :: 0 <= i < j < |r| ==> r[i] != r[j]
  }

  /** A list without duplicates holds each word once or not at all. */
  lemma {:induction false} NoDuplicatesCount(r: seq<string>, w: string)
    requires NoDuplicates(r)
    ensures Occurrences(w, r) == if w in r then 1 else 0
  {
    if r != [] {
      var p := r[..|r| - 1];
      assert r == p + [r[|r| - 1]];
      NoDuplicatesCount(p, w);
      if w == r[|r| - 1] {
        assert w !in p;
      }
    }
  }

  /** A ranked list holds no word twice: ranking before is strict. */
  lemma RankedDistinct(r: seq<string>, s: seq<string>)
    requires Ranked(r, s)
    ensures NoDuplicates(r)
  {
    forall i, j | 0 <= i < j < |r|
      ensures r[i] != r[j]
    {
      assert RanksBefore(r[i], r[j], s);
    }
  }

  /** A leading part of a complete ranking, cut at `n` places, is itself a
      complete ranking of at most `n` places. */
  lemma PrefixRanked(r: seq<string>, p: seq<string>, n: nat, s: seq<string>)
    requires Ranked(r, s)
    requires forall x :: x in s && x !in r ==> n <= |r| && forall y :: y in r ==> RanksBefore(y, x, s)
    requires p <= r && |p| == if |r| <= n then |r| else n
    ensures Ranked(p, s)
    ensures forall y :: y in p ==> y in r
    ensures forall x :: x in s && x !in p ==> |p| == n && forall y :: y in p ==> RanksBefore(y, x, s)
  {
    forall i, j | 0 <= i < j < |p|
      ensures RanksBefore(p[i], p[j], s)
    {
      assert p[i] == r[i] && p[j] == r[j];
    }
    forall y | y in p
      ensures y in r
    {
      var i :| 0 <= i < |p| && p[i] == y;
      assert r[i] == y;
    }
    forall x | x in s && x !in p
      ensures |p| == n && forall y :: y in p ==> RanksBefore(y, x, s)
    {
      if x in r {
        assert p != r;
        forall y | y in p
          ensures RanksBefore(y, x, s)
        {
          var i :| 0 <= i < |p| && p[i] == y;
          assert r[i] == y;
        }
      }
    }
  }

  /** What `most_common(n)` returns: at most `n` elements of `s`, each ranked
      strictly before the next (so distinct, by non-increasing count, ties in
      first-occurrence order), and any element left out ranks below every
      element kept, which can only happen when all `n` places are taken. */
  lemma MostCommonSpec(s: seq<string>, n: nat)
    ensures |MostCommon(s, n)| <= n
    ensures forall x :: x in MostCommon(s, n) ==> x in s
    ensures Ranked(MostCommon(s, n), s)
    ensures forall i, j :: 0 <= i < j < |MostCommon(s, n)| ==>
      MostCommon(s, n)[i] != MostCommon(s, n)[j] &&
      Occurrences(MostCommon(s, n)[i], s) >= Occurrences(MostCommon(s, n)[j], s)
    ensures forall x :: x in s && x !in MostCommon(s, n) ==>
      |MostCommon(s, n)| == n && forall y :: y in MostCommon(s, n) ==> RanksBefore(y, x, s)
  {
    FullRanking(s);
    var sorted := SortByCount(Distinct(s), s);
    var r := MostCommon(s, n);
    assert r <= sorted;
    forall i, j | 0 <= i < j < |r|
      ensures RanksBefore(r[i], r[j], s)
    {
      assert r[i] == sorted[i] && r[j] == sorted[j];
    }
    forall x | x in r
      ensures x in s
    {
      var i :| 0 <= i < |r| && r[i] == x;
      assert sorted[i] == x;
    }
    forall x | x in s && x !in r
      ensures |r| == n && forall y :: y in r ==> RanksBefore(y, x, s)
    {
      var k :| 0 <= k < |sorted| && sorted[k] == x;
      forall y | y in r
        ensures RanksBefore(y, x, s)
      {
        var i :| 0 <= i < |r| && r[i] == y;
        assert sorted[i] == y;
      }
    }
  }
}
