/** Cross-platform combination (`_calculate_combined`), as functions of the
    ordered `platforms` mapping. */
module Combine {
  import opened Scorer
  import opened Ranking
  import opened Platform

  const CombinedKeywordLimit: nat := 15

  /** The `platforms` dictionary in insertion order. */
  type Platforms = seq<(string, PlatformAnalysis)>

  function Names(ps: Platforms): seq<string>
  {
    if ps == [] then [] else Names(ps[..|ps| - 1]) + [ps[|ps| - 1].0]
  }

  /** Sum of the platforms' `total`. */
  function TotalOf(ps: Platforms): nat
  {
    if ps == [] then 0 else TotalOf(ps[..|ps| - 1]) + ps[|ps| - 1].1.total
  }

  /** Element-wise sum of the platforms' `sentiment_counts`. */
  function SumCounts(ps: Platforms): Counts
  {
    if ps == [] then Counts(0, 0, 0)
    else
      var c, d := SumCounts(ps[..|ps| - 1]), ps[|ps| - 1].1.sentimentCounts;
      Counts(c.positive + d.positive, c.neutral + d.neutral, c.negative + d.negative)
  }

  function ScoreOf(m: Masses, l: Label): real
  {
    match l
    case Positive => m.positive
    case Neutral => m.neutral
    case Negative => m.negative
  }

  /** `sum(p['sentiment_scores'][k] * p['total'] for p in platforms)` */
  function WeightedSum(ps: Platforms, l: Label): real
  {
    if ps == [] then 0.0
    else WeightedSum(ps[..|ps| - 1], l) + ScoreOf(ps[|ps| - 1].1.sentimentScores, l) * ps[|ps| - 1].1.total as real
  }

  /** The weighted scores, rounded, for a positive item total. */
  function WeightedScores(o: Oracles, ps: Platforms, total: nat): Masses
    requires total > 0
  {
    Masses(
      o.round3(WeightedSum(ps, Positive) / total as real),
      o.round3(WeightedSum(ps, Neutral) / total as real),
      o.round3(WeightedSum(ps, Negative) / total as real))
  }

  /** `all_keywords`: the platforms' `top_keywords`, concatenated in order. */
  function KeywordPool(ps: Platforms): seq<string>
  {
    if ps == [] then [] else KeywordPool(ps[..|ps| - 1]) + ps[|ps| - 1].1.topKeywords
  }

  /** The number of platforms whose `top_keywords` list `w`. */
  function PlatformsListing(w: string, ps: Platforms): nat
  {
    if ps == [] then 0
    else PlatformsListing(w, ps[..|ps| - 1]) + if w in ps[|ps| - 1].1.topKeywords then 1 else 0
  }

  /** When no platform lists a word twice, a word's count in the pool is the
      number of platforms that list it. */
  lemma {:induction false} PoolCountsPlatforms(ps: Platforms, w: string)
    requires forall k :: 0 <= k < |ps| ==> NoDuplicates(ps[k].1.topKeywords)
    ensures Occurrences(w, KeywordPool(ps)) == PlatformsListing(w, ps)
  {
    if ps != [] {
      var p := ps[..|ps| - 1];
      assert forall k :: 0 <= k < |p| ==> p[k] == ps[k];
      PoolCountsPlatforms(p, w);
      NoDuplicatesCount(ps[|ps| - 1].1.topKeywords, w);
    }
  }

  /** `[word for word, count in Counter(all_keywords).most_common(15)]` */
  function CombinedKeywords(ps: Platforms): seq<string>
  {
    MostCommon(KeywordPool(ps), CombinedKeywordLimit)
  }

  /** The combined counts add up to the sum of the platforms' counts, which
      cannot exceed the item total when no platform's counts exceed its own. */
  lemma {:induction false} CombinedCountsBound(ps: Platforms)
    requires forall k :: 0 <= k < |ps| ==>
      var c := ps[k].1.sentimentCounts; c.positive + c.neutral + c.negative <= ps[k].1.total
    ensures var c := SumCounts(ps); c.positive + c.neutral + c.negative <= TotalOf(ps)
  {
    if ps != [] {
      CombinedCountsBound(ps[..|ps| - 1]);
    }
  }

  lemma {:induction false} WeightedSumBounds(ps: Platforms, l: Label)
    requires forall k :: 0 <= k < |ps| ==> 0.0 <= ScoreOf(ps[k].1.sentimentScores, l) <= 1.0
    ensures 0.0 <= WeightedSum(ps, l) <= TotalOf(ps) as real
  {
    if ps != [] {
      var p := ps[..|ps| - 1];
      forall k | 0 <= k < |p|
        ensures 0.0 <= ScoreOf(p[k].1.sentimentScores, l) <= 1.0
      {
        assert p[k] == ps[k];
      }
      WeightedSumBounds(p, l);
      var v, n := ScoreOf(ps[|ps| - 1].1.sentimentScores, l), ps[|ps| - 1].1.total as real;
      UnitScale(v, n);
      assert WeightedSum(ps, l) == WeightedSum(p, l) + v * n;
      assert TotalOf(ps) as real == TotalOf(p) as real + n;
      AddBounds(WeightedSum(p, l), TotalOf(p) as real, v * n, n);
    }
  }

  lemma AddBounds(a: real, b: real, w: real, n: real)
    requires 0.0 <= a <= b && 0.0 <= w <= n
    ensures 0.0 <= a + w <= b + n
  {
  }

  lemma DivBounds(x: real, t: real)
    requires 0.0 <= x <= t && t > 0.0
    ensures 0.0 <= x / t <= 1.0
  {
    var q := x / t;
    assert q * t == x;
    assert (1.0 - q) * t == t - x;
  }

  lemma UnitScale(v: real, n: real)
    requires 0.0 <= v <= 1.0 && 0.0 <= n
    ensures 0.0 <= v * n <= n
  {
    assert n - v * n == (1.0 - v) * n;
  }

  /** The weighted mean of platform scores in [0, 1] (before rounding) stays
      in [0, 1]. */
  lemma WeightedMeanBounds(ps: Platforms, l: Label)
    requires TotalOf(ps) > 0
    requires forall k :: 0 <= k < |ps| ==> 0.0 <= ScoreOf(ps[k].1.sentimentScores, l) <= 1.0
    ensures 0.0 <= WeightedSum(ps, l) / TotalOf(ps) as real <= 1.0
  {
    WeightedSumBounds(ps, l);
    DivBounds(WeightedSum(ps, l), TotalOf(ps) as real);
  }

  /** When every platform has the same score `v`, their weighted mean is `v`. */
  lemma {:induction false} WeightedSumUniform(ps: Platforms, l: Label, v: real)
    requires forall k :: 0 <= k < |ps| ==> ScoreOf(ps[k].1.sentimentScores, l) == v
    ensures WeightedSum(ps, l) == v * TotalOf(ps) as real
  {
    if ps != [] {
      var p := ps[..|ps| - 1];
      forall k | 0 <= k < |p|
        ensures ScoreOf(p[k].1.sentimentScores, l) == v
      {
        assert p[k] == ps[k];
      }
      WeightedSumUniform(p, l, v);
      var n := ps[|ps| - 1].1.total as real;
      assert TotalOf(ps) as real == TotalOf(p) as real + n;
      assert v * (TotalOf(p) as real + n) == v * TotalOf(p) as real + v * n;
    }
  }

  /** A term is in the keyword pool exactly when some platform lists it. */
  lemma {:induction false} KeywordPoolMembers(ps: Platforms)
    ensures forall w :: w in KeywordPool(ps) <==> exists k :: 0 <= k < |ps| && w in ps[k].1.topKeywords
  {
    if ps != [] {
      var p := ps[..|ps| - 1];
      KeywordPoolMembers(p);
      forall w
        ensures w in KeywordPool(ps) <==> exists k :: 0 <= k < |ps| && w in ps[k].1.topKeywords
      {
        if w in KeywordPool(p) {
          var k :| 0 <= k < |p| && w in p[k].1.topKeywords;
          assert ps[k] == p[k];
        }
        if exists k :: 0 <= k < |ps| && w in ps[k].1.topKeywords {
          var k :| 0 <= k < |ps| && w in ps[k].1.topKeywords;
          if k < |p| {
            assert ps[k] == p[k];
          }
        }
      }
    }
  }

  /** The combined keywords: at most 15 distinct terms, each listed by some
      platform, ranked by how often they occur in the pool, ties in
      first-occurrence order across the pool; a pooled term left out ranks
      below every term kept. */
  lemma CombinedKeywordsSpec(ps: Platforms)
    ensures |CombinedKeywords(ps)| <= CombinedKeywordLimit
    ensures forall w :: w in CombinedKeywords(ps) ==> exists k :: 0 <= k < |ps| && w in ps[k].1.topKeywords
    ensures Ranked(CombinedKeywords(ps), KeywordPool(ps))
    ensures forall w :: w in KeywordPool(ps) && w !in CombinedKeywords(ps) ==>
      |CombinedKeywords(ps)| == CombinedKeywordLimit &&
      forall x :: x in CombinedKeywords(ps) ==> RanksBefore(x, w, KeywordPool(ps))
  {
    MostCommonSpec(KeywordPool(ps), CombinedKeywordLimit);
    KeywordPoolMembers(ps);
  }
}
