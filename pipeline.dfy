/** The pipeline orchestrator (`NLPProcessor.process`) and the `results`
    record it fills in place. */
module Pipeline {
  import opened Text
  import opened Scorer
  import opened Ranking
  import opened Platform
  import opened Combine
  import opened Summary
  import Keywords

  /** `results['combined']`. */
  datatype Combined = Combined(
    totalItems: nat,
    sentimentCounts: Counts,
    sentimentScores: Masses,
    topKeywords: seq<string>,
    summary: string)

  const InitialCombined: Combined := Combined(0, Counts(0, 0, 0), Masses(0.0, 0.0, 0.0), [], "")

  /** The input of `process`: platform name to raw items, in insertion order. */
  type Data = seq<(string, seq<RawItem>)>

  /** A dictionary has each key once. */
  predicate DistinctNames(data: Data)
  {
    forall i, j :: 0 <= i < j < |data| ==> data[i].0 != data[j].0
  }

  /** `results['platforms']` after the loop: one analysis per platform with a
      non-empty item list, in input order. */
  function PresentPlatforms(o: Oracles, data: Data): Platforms
  {
    if data == [] then []
    else
      var rest := PresentPlatforms(o, data[..|data| - 1]);
      var entry := data[|data| - 1];
      if entry.1 != [] then rest + [(entry.0, AnalyzePlatform(o, entry.1))] else rest
  }

  /** `results['combined']['total_items']` after the loop: the number of
      items of every platform, empty texts included. */
  function ItemCount(data: Data): nat
  {
    if data == [] then 0 else ItemCount(data[..|data| - 1]) + |data[|data| - 1].1|
  }

  /** What `process` leaves in `results['combined']`. */
  function ReportCombined(o: Oracles, data: Data, query: string): Combined
  {
    var ps := PresentPlatforms(o, data);
    var total := ItemCount(data);
    var counts := SumCounts(ps);
    var keywords := CombinedKeywords(ps);
    Combined(
      total,
      counts,
      if total > 0 then WeightedScores(o, ps, total) else InitialCombined.sentimentScores,
      keywords,
      SummaryText(o, total, counts, |ps|, keywords, query))
  }

  /** The `results` dictionary that `process` builds and the helper methods
      update in place. */
  class Results {
    const query: string
    var platforms: Platforms
    var combined: Combined

    constructor (query: string)
      ensures this.query == query
      ensures platforms == [] && combined == InitialCombined
    {
      this.query := query;
      platforms := [];
      combined := InitialCombined;
    }

    /** `_calculate_combined(results)`: overwrite the combined counts, the
        weighted scores (only when there are items), and the keywords. */
    method CalculateCombined(o: Oracles)
      modifies this
      ensures platforms == old(platforms)
      ensures combined == old(combined).(
        sentimentCounts := SumCounts(platforms),
        sentimentScores :=
          if old(combined.totalItems) > 0 then WeightedScores(o, platforms, old(combined.totalItems))
          else old(combined.sentimentScores),
        topKeywords := CombinedKeywords(platforms))
    {
      combined := combined.(sentimentCounts := SumCounts(platforms));
      var totalItems := combined.totalItems;
      if totalItems > 0 {
        combined := combined.(sentimentScores := Masses(
          o.round3(WeightedSum(platforms, Positive) / totalItems as real),
          o.round3(WeightedSum(platforms, Neutral) / totalItems as real),
          o.round3(WeightedSum(platforms, Negative) / totalItems as real)));
      }
      var allKeywords: seq<string> := [];
      var i := 0;
      while i < |platforms|
        invariant 0 <= i <= |platforms|
        invariant allKeywords == KeywordPool(platforms[..i])
      {
        assert platforms[..i + 1][..i] == platforms[..i];
        allKeywords := allKeywords + platforms[i].1.topKeywords;
        i := i + 1;
      }
      assert platforms[..|platforms|] == platforms;
      combined := combined.(topKeywords := MostCommon(allKeywords, CombinedKeywordLimit));
    }

    /** `_generate_summary(results, query)`, built with `+=`. */
    method GenerateSummary(o: Oracles, query: string) returns (summary: string)
      ensures summary == SummaryText(o, combined.totalItems, combined.sentimentCounts, |platforms|,
                                     combined.topKeywords, query)
    {
      var counts := combined.sentimentCounts;
      var total := combined.totalItems;
      if total == 0 {
        return "No data found for '" + query + "'.";
      }
      var posPct := counts.positive as real / total as real * 100.0;
      var negPct := counts.negative as real / total as real * 100.0;
      summary := "Analysis of " + NatToString(total) + " items across " + NatToString(|platforms|)
        + " platforms for '" + query + "': ";
      ghost var opening := summary;
      if posPct > 50.0 {
        summary := summary + (PositiveLead + o.format1(posPct) + "% positive). ");
      } else if negPct > 50.0 {
        summary := summary + (NegativeLead + o.format1(negPct) + "% negative). ");
      } else {
        summary := summary + (MixedLead + o.format1(posPct) + "% positive, "
          + o.format1(negPct) + "% negative). ");
      }
      assert summary == opening + SentimentClause(o, Percent(counts.positive, total), Percent(counts.negative, total));
      if combined.topKeywords != [] {
        var top3 := Join(Prefix(combined.topKeywords, TopicCount), ", ");
        summary := summary + ("Key topics discussed: " + top3 + ".");
      }
    }
  }

  /** `NLPProcessor.process(data, query)`: the platform loop, then the
      combined figures, then the summary. */
  method Process(o: Oracles, data: Data, query: string) returns (results: Results)
    requires DistinctNames(data)
    ensures fresh(results)
    ensures results.query == query
    ensures results.platforms == PresentPlatforms(o, data)
    ensures results.combined == ReportCombined(o, data, query)
  {
    results := CollectPlatforms(o, data, query);
    results.CalculateCombined(o);
    var summary := results.GenerateSummary(o, query);
    results.combined := results.combined.(summary := summary);
  }

  /** The platform loop of `process`: the analysis of every platform with
      items, in input order, and the number of all items, stored in a fresh
      `results`. */
  method CollectPlatforms(o: Oracles, data: Data, query: string) returns (results: Results)
    ensures fresh(results)
    ensures results.query == query
    ensures results.platforms == PresentPlatforms(o, data)
    ensures results.combined == InitialCombined.(totalItems := ItemCount(data))
  {
    var platforms: Platforms := [];
    var totalItems := 0;
    var i := 0;
    while i < |data|
      invariant 0 <= i <= |data|
      invariant platforms == PresentPlatforms(o, data[..i])
      invariant totalItems == ItemCount(data[..i])
    {
      var platform, items := data[i].0, data[i].1;
      PrefixStep(o, data, i);
      if items != [] {
        var platformResult := ProcessPlatform(o, items);
        platforms := platforms + [(platform, platformResult)];
      }
      totalItems := totalItems + |items|;
      i := i + 1;
    }
    assert data[..|data|] == data;
    results := new Results(query);
    results.platforms := platforms;
    results.combined := results.combined.(totalItems := totalItems);
  }

  lemma PrefixStep(o: Oracles, data: Data, i: nat)
    requires i < |data|
    ensures PresentPlatforms(o, data[..i + 1]) ==
      if data[i].1 != [] then PresentPlatforms(o, data[..i]) + [(data[i].0, AnalyzePlatform(o, data[i].1))]
      else PresentPlatforms(o, data[..i])
    ensures ItemCount(data[..i + 1]) == ItemCount(data[..i]) + |data[i].1|
  {
    assert data[..i + 1][..i] == data[..i];
  }

  /** The names of the platforms with a non-empty item list, in order. */
  function NonEmptyNames(data: Data): seq<string>
  {
    if data == [] then []
    else NonEmptyNames(data[..|data| - 1]) + (if data[|data| - 1].1 != [] then [data[|data| - 1].0] else [])
  }

  lemma {:induction false} PresentNamesAre(o: Oracles, data: Data)
    ensures Names(PresentPlatforms(o, data)) == NonEmptyNames(data)
  {
    if data != [] {
      var entry := data[|data| - 1];
      PresentNamesAre(o, data[..|data| - 1]);
      if entry.1 != [] {
        NamesSnoc(PresentPlatforms(o, data[..|data| - 1]), (entry.0, AnalyzePlatform(o, entry.1)));
      }
    }
  }

  lemma {:induction false} NonEmptyNamesSpec(data: Data)
    ensures forall name :: name in NonEmptyNames(data) <==>
      exists j :: 0 <= j < |data| && data[j].0 == name && data[j].1 != []
    ensures DistinctNames(data) ==> forall k, l :: 0 <= k < l < |NonEmptyNames(data)| ==>
      NonEmptyNames(data)[k] != NonEmptyNames(data)[l]
  {
    if data != [] {
      var p := data[..|data| - 1];
      NonEmptyNamesSpec(p);
      forall name
        ensures name in NonEmptyNames(data) <==>
          exists j :: 0 <= j < |data| && data[j].0 == name && data[j].1 != []
      {
        if name in NonEmptyNames(p) {
          var j :| 0 <= j < |p| && p[j].0 == name && p[j].1 != [];
          assert data[j] == p[j];
        }
        if exists j :: 0 <= j < |data| && data[j].0 == name && data[j].1 != [] {
          var j :| 0 <= j < |data| && data[j].0 == name && data[j].1 != [];
          if j < |p| {
            assert data[j] == p[j];
          }
        }
      }
      if DistinctNames(data) {
        assert DistinctNames(p);
        var ns, rest := NonEmptyNames(data), NonEmptyNames(p);
        forall k, l | 0 <= k < l < |ns|
          ensures ns[k] != ns[l]
        {
          assert ns[k] == rest[k];
          if l >= |rest| {
            assert rest[k] in NonEmptyNames(p);
            var j :| 0 <= j < |p| && p[j].0 == rest[k] && p[j].1 != [];
            assert data[j] == p[j];
          } else {
            assert ns[l] == rest[l];
          }
        }
      }
    }
  }

  /** `platforms` holds each platform whose item list is not empty, once,
      and no other. */
  lemma PresentNames(o: Oracles, data: Data)
    ensures forall name :: name in Names(PresentPlatforms(o, data)) <==>
      exists j :: 0 <= j < |data| && data[j].0 == name && data[j].1 != []
    ensures DistinctNames(data) ==> var ns := Names(PresentPlatforms(o, data));
      forall k, l :: 0 <= k < l < |ns| ==> ns[k] != ns[l]
  {
    PresentNamesAre(o, data);
    NonEmptyNamesSpec(data);
  }

  lemma {:induction false} NamesSnoc(ps: Platforms, e: (string, PlatformAnalysis))
    ensures Names(ps + [e]) == Names(ps) + [e.0]
  {
    assert (ps + [e])[..|ps|] == ps;
  }

  /** `total_items` is the sum of the present platforms' totals. */
  lemma {:induction false} TotalItemsSpec(o: Oracles, data: Data, query: string)
    ensures TotalOf(PresentPlatforms(o, data)) == ItemCount(data)
    ensures ReportCombined(o, data, query).totalItems == TotalOf(PresentPlatforms(o, data))
  {
    if data != [] {
      var p := data[..|data| - 1];
      TotalItemsSpec(o, p, query);
      var rest := PresentPlatforms(o, p);
      var entry := data[|data| - 1];
      if entry.1 != [] {
        var ps := rest + [(entry.0, AnalyzePlatform(o, entry.1))];
        assert ps[..|ps| - 1] == rest;
      }
    }
  }

  /** The combined label counts never exceed the item total: they count only
      scored items. */
  lemma CombinedCountsWithinTotal(o: Oracles, data: Data, query: string)
    ensures var c := ReportCombined(o, data, query);
      c.sentimentCounts.positive + c.sentimentCounts.neutral + c.sentimentCounts.negative <= c.totalItems
  {
    var ps := PresentPlatforms(o, data);
    TotalItemsSpec(o, data, query);
    forall k | 0 <= k < |ps|
      ensures var c := ps[k].1.sentimentCounts; c.positive + c.neutral + c.negative <= ps[k].1.total
    {
      var j :| 0 <= j < |data| && data[j].1 != [] && ps[k] == (data[j].0, AnalyzePlatform(o, data[j].1)) by {
        PresentPlatformsWitness(o, data, k);
      }
      PlatformCounts(o, data[j].1);
    }
    CombinedCountsBound(ps);
  }

  /** Every present platform is the analysis of some non-empty input list. */
  lemma {:induction false} PresentPlatformsWitness(o: Oracles, data: Data, k: nat)
    requires k < |PresentPlatforms(o, data)|
    ensures exists j :: 0 <= j < |data| && data[j].1 != [] &&
                        PresentPlatforms(o, data)[k] == (data[j].0, AnalyzePlatform(o, data[j].1))
  {
    var p := data[..|data| - 1];
    var rest := PresentPlatforms(o, p);
    if k < |rest| {
      PresentPlatformsWitness(o, p, k);
      var j :| 0 <= j < |p| && p[j].1 != [] && rest[k] == (p[j].0, AnalyzePlatform(o, p[j].1));
      assert data[j] == p[j];
    } else {
      assert PresentPlatforms(o, data)[k] == (data[|data| - 1].0, AnalyzePlatform(o, data[|data| - 1].1));
    }
  }

  /** Each present platform's `top_keywords` lists a word at most once. */
  lemma PresentKeywordsDistinct(o: Oracles, data: Data, k: nat)
    requires k < |PresentPlatforms(o, data)|
    ensures NoDuplicates(PresentPlatforms(o, data)[k].1.topKeywords)
  {
    PresentPlatformsWitness(o, data, k);
    var j :| 0 <= j < |data| && data[j].1 != [] &&
             PresentPlatforms(o, data)[k] == (data[j].0, AnalyzePlatform(o, data[j].1));
    PlatformKeywords(o, data[j].1);
    var text := Join(ScoredTexts(data[j].1), " ");
    RankedDistinct(AnalyzePlatform(o, data[j].1).topKeywords, Keywords.CandidateTokens(text));
  }

  /** So the combined keywords are ranked by how many platforms list them:
      a word's count in the keyword pool is that number. */
  lemma PoolCountsPresent(o: Oracles, data: Data, w: string)
    ensures var ps := PresentPlatforms(o, data);
      Occurrences(w, KeywordPool(ps)) == PlatformsListing(w, ps)
  {
    var ps := PresentPlatforms(o, data);
    forall k | 0 <= k < |ps|
      ensures NoDuplicates(ps[k].1.topKeywords)
    {
      PresentKeywordsDistinct(o, data, k);
    }
    PoolCountsPlatforms(ps, w);
  }

  /** With a scorer whose masses lie in [0, 1] and a rounding that keeps
      [0, 1], every combined score lies in [0, 1]. */
  lemma CombinedScoresBounds(o: Oracles, data: Data, query: string, l: Label)
    requires forall t :: 0.0 <= o.polarity(t).pos <= 1.0 && 0.0 <= o.polarity(t).neu <= 1.0 && 0.0 <= o.polarity(t).neg <= 1.0
    requires forall x :: 0.0 <= x <= 1.0 ==> 0.0 <= o.round3(x) <= 1.0
    ensures 0.0 <= ScoreOf(ReportCombined(o, data, query).sentimentScores, l) <= 1.0
  {
    var ps := PresentPlatforms(o, data);
    TotalItemsSpec(o, data, query);
    if ItemCount(data) > 0 {
      PresentScoresBounds(o, data, l);
      WeightedScoresBounds(o, ps, l);
      assert ReportCombined(o, data, query).sentimentScores == WeightedScores(o, ps, TotalOf(ps));
    }
  }

  /** Rounded weighted means of scores in [0, 1] stay in [0, 1]. */
  lemma WeightedScoresBounds(o: Oracles, ps: Platforms, l: Label)
    requires TotalOf(ps) > 0
    requires forall k :: 0 <= k < |ps| ==> 0.0 <= ScoreOf(ps[k].1.sentimentScores, l) <= 1.0
    requires forall x :: 0.0 <= x <= 1.0 ==> 0.0 <= o.round3(x) <= 1.0
    ensures 0.0 <= ScoreOf(WeightedScores(o, ps, TotalOf(ps)), l) <= 1.0
  {
    WeightedMeanBounds(ps, l);
  }

  /** Every present platform's rounded averages lie in [0, 1]. */
  lemma {:induction false} PresentScoresBounds(o: Oracles, data: Data, l: Label)
    requires forall t :: 0.0 <= o.polarity(t).pos <= 1.0 && 0.0 <= o.polarity(t).neu <= 1.0 && 0.0 <= o.polarity(t).neg <= 1.0
    requires forall x :: 0.0 <= x <= 1.0 ==> 0.0 <= o.round3(x) <= 1.0
    ensures forall k :: 0 <= k < |PresentPlatforms(o, data)| ==>
      0.0 <= ScoreOf(PresentPlatforms(o, data)[k].1.sentimentScores, l) <= 1.0
  {
    if data != [] {
      var p := data[..|data| - 1];
      var entry := data[|data| - 1];
      PresentScoresBounds(o, p, l);
      if entry.1 != [] {
        PlatformScoreBounds(o, entry.1, l);
      }
    }
  }

  /** A platform's rounded averages lie in [0, 1] under the same assumptions. */
  lemma PlatformScoreBounds(o: Oracles, items: seq<RawItem>, l: Label)
    requires forall t :: 0.0 <= o.polarity(t).pos <= 1.0 && 0.0 <= o.polarity(t).neu <= 1.0 && 0.0 <= o.polarity(t).neg <= 1.0
    requires forall x :: 0.0 <= x <= 1.0 ==> 0.0 <= o.round3(x) <= 1.0
    ensures 0.0 <= ScoreOf(AnalyzePlatform(o, items).sentimentScores, l) <= 1.0
  {
    var ss := Sentiments(o, ScoredTexts(items));
    AverageBounds(ss, l);
    assert AnalyzePlatform(o, items).sentimentScores == ScoresOf(o, ss);
  }
}
