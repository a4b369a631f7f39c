/** Per-platform aggregation (`_process_platform`). */
module Platform {
  import opened Values
  import opened Text
  import opened Scorer
  import opened Ranking
  import opened Keywords

  /** A raw item: its `text` (the empty string when the key is missing, as
      `item.get('text', '')` reads it) and every other key it carries. */
  datatype RawItem = RawItem(text: string, fields: map<string, Value>)

  datatype Counts = Counts(positive: nat, neutral: nat, negative: nat)

  datatype Masses = Masses(positive: real, neutral: real, negative: real)

  datatype PlatformAnalysis = PlatformAnalysis(
    total: nat,
    sentimentCounts: Counts,
    sentimentScores: Masses,
    topKeywords: seq<string>,
    sampleItems: seq<Entry>,
    allItems: seq<Entry>)

  const SampleSize: nat := 5
  const SampleTextLimit: nat := 200
  const PlatformKeywordLimit: nat := 10

  function Min(a: nat, b: nat): nat { if a <= b then a else b }

  /** `all_text`: the non-empty texts, in item order. */
  function ScoredTexts(items: seq<RawItem>): seq<string>
  {
    if items == [] then []
    else
      var last := items[|items| - 1];
      ScoredTexts(items[..|items| - 1]) + (if last.text != "" then [last.text] else [])
  }

  /** `sentiments`: one score per scored text. */
  function Sentiments(o: Oracles, texts: seq<string>): (ss: seq<Scores>)
    ensures |ss| == |texts|
    ensures forall i :: 0 <= i < |texts| ==> ss[i] == o.polarity(texts[i])
  {
    seq(|texts|, i requires 0 <= i < |texts| => o.polarity(texts[i]))
  }

  /** `sum(1 for s in sentiments if s['compound'] > 0.05)` */
  function CountPositive(ss: seq<Scores>): nat
  {
    if ss == [] then 0
    else CountPositive(ss[..|ss| - 1]) + (if ss[|ss| - 1].compound > 0.05 then 1 else 0)
  }

  /** `sum(1 for s in sentiments if -0.05 <= s['compound'] <= 0.05)` */
  function CountNeutral(ss: seq<Scores>): nat
  {
    if ss == [] then 0
    else CountNeutral(ss[..|ss| - 1]) + (if -0.05 <= ss[|ss| - 1].compound <= 0.05 then 1 else 0)
  }

  /** `sum(1 for s in sentiments if s['compound'] < -0.05)` */
  function CountNegative(ss: seq<Scores>): nat
  {
    if ss == [] then 0
    else CountNegative(ss[..|ss| - 1]) + (if ss[|ss| - 1].compound < -0.05 then 1 else 0)
  }

  /** Reference count: how many scores `_get_sentiment_label` gives label `l`. */
  function CountLabel(ss: seq<Scores>, l: Label): nat
  {
    if ss == [] then 0
    else CountLabel(ss[1..], l) + (if LabelOf(ss[0].compound) == l then 1 else 0)
  }

  function MassOf(s: Scores, l: Label): real
  {
    match l
    case Positive => s.pos
    case Neutral => s.neu
    case Negative => s.neg
  }

  function SumMass(ss: seq<Scores>, l: Label): real
  {
    if ss == [] then 0.0 else SumMass(ss[..|ss| - 1], l) + MassOf(ss[|ss| - 1], l)
  }

  /** `sum(s[k] for s in sentiments) / len(sentiments) if sentiments else 0` */
  function Average(ss: seq<Scores>, l: Label): real
  {
    if |ss| == 0 then 0.0 else SumMass(ss, l) / |ss| as real
  }

  /** One annotated entry: the given text, the label and compound score of
      `s`, then every key of the raw item but `text`, written last so that
      the item's own keys win (the `**` spread). */
  function Annotate(item: RawItem, s: Scores, text: string): Entry
  {
    map["text" := Str(text),
        "sentiment" := Str(LabelName(LabelOf(s.compound))),
        "score" := Num(s.compound)]
    + (item.fields - {"text"})
  }

  /** The label counts of a list of scores. */
  function CountsOf(ss: seq<Scores>): Counts
  {
    Counts(CountPositive(ss), CountNeutral(ss), CountNegative(ss))
  }

  /** The rounded average masses of a list of scores. */
  function ScoresOf(o: Oracles, ss: seq<Scores>): Masses
  {
    Masses(o.round3(Average(ss, Positive)), o.round3(Average(ss, Neutral)), o.round3(Average(ss, Negative)))
  }

  /** `keywords[:10]` for `keywords = _extract_keywords(' '.join(all_text))`. */
  function TopKeywords(texts: seq<string>): seq<string>
  {
    Prefix(ExtractKeywords(Join(texts, " ")), PlatformKeywordLimit)
  }

  /** `all_items`: entry `i` pairs `items[i]` with `ss[i]`, for every `i`
      below both lengths. */
  function AllEntries(items: seq<RawItem>, ss: seq<Scores>): seq<Entry>
  {
    var n := Min(|items|, |ss|);
    seq(n, i requires 0 <= i < n => Annotate(items[i], ss[i], items[i].text))
  }

  /** `sample_items`: the same pairing over `items[:5]`, text cut to 200. */
  function SampleEntries(items: seq<RawItem>, ss: seq<Scores>): seq<Entry>
  {
    var m := Min(Min(SampleSize, |items|), |ss|);
    seq(m, i requires 0 <= i < m => Annotate(items[i], ss[i], Prefix(items[i].text, SampleTextLimit)))
  }

  /** The analysis record that `_process_platform(platform, items)` returns.
      Entry `i` of both annotated lists pairs `items[i]` with the score of
      the `i`-th SCORED item, for `i` below the number of scored items. */
  function AnalyzePlatform(o: Oracles, items: seq<RawItem>): PlatformAnalysis
  {
    var texts := ScoredTexts(items);
    var ss := Sentiments(o, texts);
    PlatformAnalysis(|items|, CountsOf(ss), ScoresOf(o, ss), TopKeywords(texts),
                     SampleEntries(items, ss), AllEntries(items, ss))
  }

  /** `_process_platform`: score the texts, aggregate, and annotate. */
  method ProcessPlatform(o: Oracles, items: seq<RawItem>) returns (p: PlatformAnalysis)
    ensures p == AnalyzePlatform(o, items)
  {
    var allText, sentiments := ScoreItems(o, items);
    var counts := Counts(CountPositive(sentiments), CountNeutral(sentiments), CountNegative(sentiments));
    var scores := Masses(
      o.round3(Average(sentiments, Positive)),
      o.round3(Average(sentiments, Neutral)),
      o.round3(Average(sentiments, Negative)));
    var keywords := ExtractKeywords(Join(allText, " "));
    var sampleItems := BuildSampleItems(items, sentiments);
    var allItems := BuildAllItems(items, sentiments);
    p := PlatformAnalysis(|items|, counts, scores, Prefix(keywords, PlatformKeywordLimit), sampleItems, allItems);
  }

  /** The first loop of `_process_platform`: collect the non-empty texts and
      score each of them. */
  method ScoreItems(o: Oracles, items: seq<RawItem>) returns (allText: seq<string>, sentiments: seq<Scores>)
    ensures allText == ScoredTexts(items)
    ensures sentiments == Sentiments(o, allText)
  {
    sentiments := [];
    allText := [];
    var i := 0;
    while i < |items|
      invariant 0 <= i <= |items|
      invariant allText == ScoredTexts(items[..i])
      invariant sentiments == Sentiments(o, allText)
    {
      assert items[..i + 1][..i] == items[..i];
      var text := items[i].text;
      if text != "" {
        allText := allText + [text];
        sentiments := sentiments + [o.polarity(text)];
      }
      i := i + 1;
    }
    assert items[..|items|] == items;
  }

  /** The `sample_items` loop over `enumerate(items[:5])`. */
  method BuildSampleItems(items: seq<RawItem>, sentiments: seq<Scores>) returns (sampleItems: seq<Entry>)
    ensures sampleItems == SampleEntries(items, sentiments)
  {
    sampleItems := [];
    var head := Min(SampleSize, |items|);
    var i := 0;
    while i < head
      invariant 0 <= i <= head
      invariant |sampleItems| == Min(i, |sentiments|)
      invariant forall k :: 0 <= k < |sampleItems| ==>
        sampleItems[k] == Annotate(items[k], sentiments[k], Prefix(items[k].text, SampleTextLimit))
    {
      if i < |sentiments| {
        sampleItems := sampleItems + [Annotate(items[i], sentiments[i], Prefix(items[i].text, SampleTextLimit))];
      }
      i := i + 1;
    }
  }

  /** The `all_items` loop over `enumerate(items)`. */
  method BuildAllItems(items: seq<RawItem>, sentiments: seq<Scores>) returns (allItems: seq<Entry>)
    ensures allItems == AllEntries(items, sentiments)
  {
    allItems := [];
    var i := 0;
    while i < |items|
      invariant 0 <= i <= |items|
      invariant |allItems| == Min(i, |sentiments|)
      invariant forall k :: 0 <= k < |allItems| ==>
        allItems[k] == Annotate(items[k], sentiments[k], items[k].text)
    {
      if i < |sentiments| {
        allItems := allItems + [Annotate(items[i], sentiments[i], items[i].text)];
      }
      i := i + 1;
    }
  }

  /** The scored texts are the non-empty texts: never more than the items,
      all of them when no text is empty. */
  lemma {:induction false} ScoredTextsSpec(items: seq<RawItem>)
    ensures |ScoredTexts(items)| <= |items|
    ensures forall t :: t in ScoredTexts(items) ==> t != ""
    ensures (forall i :: 0 <= i < |items| ==> items[i].text != "") ==> |ScoredTexts(items)| == |items|
    ensures (forall i :: 0 <= i < |items| ==> items[i].text == "") ==> ScoredTexts(items) == []
  {
    if items != [] {
      ScoredTextsSpec(items[..|items| - 1]);
    }
  }

  /** `all_text` is built one item at a time: an item contributes its text
      iff the text is non-empty, and the texts of a concatenation are the
      texts of its parts in order. */
  lemma {:induction false} ScoredTextsConcat(a: seq<RawItem>, b: seq<RawItem>)
    ensures ScoredTexts(a + b) == ScoredTexts(a) + ScoredTexts(b)
  {
    if b == [] {
      assert a + b == a;
    } else {
      var c := a + b;
      assert c[..|c| - 1] == a + b[..|b| - 1];
      ScoredTextsConcat(a, b[..|b| - 1]);
    }
  }

  lemma ScoredTextsOne(item: RawItem)
    ensures ScoredTexts([item]) == if item.text != "" then [item.text] else []
  {
    assert [item][..0] == [];
  }

  /** The three threshold counts are the label counts, so they partition the
      scored items. */
  lemma {:induction false} CountsByLabel(ss: seq<Scores>)
    ensures CountPositive(ss) == CountLabel(ss, Positive)
    ensures CountNeutral(ss) == CountLabel(ss, Neutral)
    ensures CountNegative(ss) == CountLabel(ss, Negative)
    ensures CountPositive(ss) + CountNeutral(ss) + CountNegative(ss) == |ss|
  {
    if ss != [] {
      var p := ss[..|ss| - 1];
      CountsByLabel(p);
      CountLabelSnoc(p, ss[|ss| - 1], Positive);
      CountLabelSnoc(p, ss[|ss| - 1], Neutral);
      CountLabelSnoc(p, ss[|ss| - 1], Negative);
      assert ss == p + [ss[|ss| - 1]];
    }
  }

  lemma {:induction false} CountLabelSnoc(p: seq<Scores>, s: Scores, l: Label)
    ensures CountLabel(p + [s], l) == CountLabel(p, l) + (if LabelOf(s.compound) == l then 1 else 0)
  {
    if p != [] {
      assert (p + [s])[1..] == p[1..] + [s];
      CountLabelSnoc(p[1..], s, l);
    }
  }

  /** Counts and total of one platform: `total` is the number of all items,
      and the label counts add up to the number of scored (non-empty-text)
      items, which may be fewer. */
  lemma PlatformCounts(o: Oracles, items: seq<RawItem>)
    ensures AnalyzePlatform(o, items).total == |items|
    ensures var c := AnalyzePlatform(o, items).sentimentCounts;
      var ss := Sentiments(o, ScoredTexts(items));
      && c.positive == CountLabel(ss, Positive)
      && c.neutral == CountLabel(ss, Neutral)
      && c.negative == CountLabel(ss, Negative)
      && c.positive + c.neutral + c.negative == |ScoredTexts(items)| <= |items|
  {
    CountsByLabel(Sentiments(o, ScoredTexts(items)));
    ScoredTextsSpec(items);
  }

  lemma {:induction false} SumMassBounds(ss: seq<Scores>, l: Label)
    requires forall i :: 0 <= i < |ss| ==> 0.0 <= MassOf(ss[i], l) <= 1.0
    ensures 0.0 <= SumMass(ss, l) <= |ss| as real
  {
    if ss != [] {
      SumMassBounds(ss[..|ss| - 1], l);
    }
  }

  lemma {:induction false} SumMassTotal(ss: seq<Scores>)
    requires forall i :: 0 <= i < |ss| ==> ss[i].pos + ss[i].neu + ss[i].neg == 1.0
    ensures SumMass(ss, Positive) + SumMass(ss, Neutral) + SumMass(ss, Negative) == |ss| as real
  {
    if ss != [] {
      SumMassTotal(ss[..|ss| - 1]);
    }
  }

  /** The mean of masses in [0, 1] stays in [0, 1]. */
  lemma AverageBounds(ss: seq<Scores>, l: Label)
    requires forall i :: 0 <= i < |ss| ==> 0.0 <= MassOf(ss[i], l) <= 1.0
    ensures 0.0 <= Average(ss, l) <= 1.0
  {
    SumMassBounds(ss, l);
    if |ss| > 0 {
      var n := |ss| as real;
      assert SumMass(ss, l) / n <= n / n;
    }
  }

  /** When every score's three masses add up to 1, so do the three averages
      (before rounding); with nothing scored all three are 0. */
  lemma AveragesSumToOne(ss: seq<Scores>)
    requires forall i :: 0 <= i < |ss| ==> ss[i].pos + ss[i].neu + ss[i].neg == 1.0
    ensures |ss| > 0 ==> Average(ss, Positive) + Average(ss, Neutral) + Average(ss, Negative) == 1.0
    ensures |ss| == 0 ==> Average(ss, Positive) == Average(ss, Neutral) == Average(ss, Negative) == 0.0
  {
    SumMassTotal(ss);
    if |ss| > 0 {
      var n := |ss| as real;
      var a, b, c := SumMass(ss, Positive), SumMass(ss, Neutral), SumMass(ss, Negative);
      assert a / n + b / n + c / n == (a + b + c) / n;
    }
  }

  /** An annotated entry has the given text, every key of the raw item but
      `text` with its own value (overriding `sentiment` and `score`), and
      otherwise the label and compound score of `s`. */
  lemma AnnotateSpec(item: RawItem, s: Scores, text: string)
    ensures var e := Annotate(item, s, text);
      && e.Keys == {"text", "sentiment", "score"} + item.fields.Keys
      && e["text"] == Str(text)
      && (forall k :: k in item.fields && k != "text" ==> e[k] == item.fields[k])
      && ("sentiment" !in item.fields ==> e["sentiment"] == Str(LabelName(LabelOf(s.compound))))
      && ("score" !in item.fields ==> e["score"] == Num(s.compound))
  {
  }

  /** Entry `i` of the annotated list pairs `items[i]` with `ss[i]`: it has
      the untruncated text, every other key of `items[i]` with its own value,
      and, unless `items[i]` has keys of those names, the label and compound
      score of `ss[i]`; there is one entry per score when no more scores than
      items are given. */
  lemma AllEntriesSpec(items: seq<RawItem>, ss: seq<Scores>)
    ensures var all := AllEntries(items, ss);
      && (|ss| <= |items| ==> |all| == |ss|)
      && forall i :: 0 <= i < |all| ==>
        && all[i]["text"] == Str(items[i].text)
        && (forall k :: k in items[i].fields && k != "text" ==> k in all[i] && all[i][k] == items[i].fields[k])
        && ("sentiment" !in items[i].fields ==> all[i]["sentiment"] == Str(LabelName(LabelOf(ss[i].compound))))
        && ("score" !in items[i].fields ==> all[i]["score"] == Num(ss[i].compound))
  {
    var all := AllEntries(items, ss);
    forall i | 0 <= i < |all|
      ensures var e := Annotate(items[i], ss[i], items[i].text);
        && e["text"] == Str(items[i].text)
        && (forall k :: k in items[i].fields && k != "text" ==> k in e && e[k] == items[i].fields[k])
        && ("sentiment" !in items[i].fields ==> e["sentiment"] == Str(LabelName(LabelOf(ss[i].compound))))
        && ("score" !in items[i].fields ==> e["score"] == Num(ss[i].compound))
    {
      AnnotateSpec(items[i], ss[i], items[i].text);
    }
  }

  /** `all_items` has one entry per scored item (never more than the items),
      entry `i` being `items[i]` annotated with the `i`-th scored text's
      sentiment, as `AllEntriesSpec` describes. */
  lemma AllItemsSpec(o: Oracles, items: seq<RawItem>)
    ensures var p := AnalyzePlatform(o, items);
      var ss := Sentiments(o, ScoredTexts(items));
      && |p.allItems| == |ss| <= |items|
      && forall i :: 0 <= i < |p.allItems| ==>
        && p.allItems[i]["text"] == Str(items[i].text)
        && (forall k :: k in items[i].fields && k != "text" ==> k in p.allItems[i] && p.allItems[i][k] == items[i].fields[k])
        && ("sentiment" !in items[i].fields ==> p.allItems[i]["sentiment"] == Str(LabelName(LabelOf(ss[i].compound))))
        && ("score" !in items[i].fields ==> p.allItems[i]["score"] == Num(ss[i].compound))
  {
    ScoredTextsSpec(items);
    AllEntriesSpec(items, Sentiments(o, ScoredTexts(items)));
  }

  /** The sample is the first (at most 5) entries of the full list, with the
      text cut to its first 200 characters and nothing else changed. */
  lemma SampleEntriesSpec(items: seq<RawItem>, ss: seq<Scores>)
    ensures var sample, all := SampleEntries(items, ss), AllEntries(items, ss);
      && |sample| == Min(SampleSize, |all|)
      && forall i :: 0 <= i < |sample| ==>
        && |sample[i]["text"].s| <= SampleTextLimit
        && sample[i]["text"].s <= items[i].text
        && sample[i] == all[i]["text" := Str(Prefix(items[i].text, SampleTextLimit))]
  {
    var sample, all := SampleEntries(items, ss), AllEntries(items, ss);
    forall i | 0 <= i < |sample|
      ensures sample[i] == all[i]["text" := Str(Prefix(items[i].text, SampleTextLimit))]
    {
      var a := Annotate(items[i], ss[i], items[i].text);
      var b := Annotate(items[i], ss[i], Prefix(items[i].text, SampleTextLimit));
      assert b.Keys == a.Keys;
    }
  }

  /** `sample_items` is the first (at most 5) entries of `all_items`, with the
      text cut to its first 200 characters and nothing else changed. */
  lemma SampleItemsSpec(o: Oracles, items: seq<RawItem>)
    ensures var p := AnalyzePlatform(o, items);
      && |p.sampleItems| == Min(SampleSize, |p.allItems|)
      && forall i :: 0 <= i < |p.sampleItems| ==>
        && |p.sampleItems[i]["text"].s| <= SampleTextLimit
        && p.sampleItems[i]["text"].s <= items[i].text
        && p.sampleItems[i] == p.allItems[i]["text" := Str(Prefix(items[i].text, SampleTextLimit))]
  {
    SampleEntriesSpec(items, Sentiments(o, ScoredTexts(items)));
  }

  /** An empty-text item shifts the labels: with an empty first item and a
      scored second one, the single entry of `all_items` is the FIRST item
      (empty text) annotated with the SECOND item's score. */
  lemma MisalignedAnnotation(o: Oracles, t: string, f0: map<string, Value>, f1: map<string, Value>)
    requires t != ""
    ensures var items := [RawItem("", f0), RawItem(t, f1)];
      && AnalyzePlatform(o, items).allItems == [Annotate(items[0], o.polarity(t), "")]
      && AnalyzePlatform(o, items).total == 2
      && |AnalyzePlatform(o, items).allItems| == 1
  {
    var items := [RawItem("", f0), RawItem(t, f1)];
    assert items[..1] == [RawItem("", f0)];
    assert items[..1][..0] == [];
    assert ScoredTexts(items[..1]) == [];
    assert ScoredTexts(items) == [t];
  }

  /** A platform's `top_keywords`: at most 10 distinct candidate tokens of
      its scored texts joined by single spaces, the leading part of the
      extractor's ranking. */
  lemma PlatformKeywords(o: Oracles, items: seq<RawItem>)
    ensures var kw := AnalyzePlatform(o, items).topKeywords;
      var text := Join(ScoredTexts(items), " ");
      && |kw| == Min(PlatformKeywordLimit, |ExtractKeywords(text)|)
      && kw <= ExtractKeywords(text)
      && Ranked(kw, CandidateTokens(text))
      && (forall w :: w in kw ==> IsCandidate(w) && w in Tokens(Normalize(text)))
      && forall w :: w in CandidateTokens(text) && w !in kw ==>
        |kw| == PlatformKeywordLimit && forall k :: k in kw ==> RanksBefore(k, w, CandidateTokens(text))
  {
    var text := Join(ScoredTexts(items), " ");
    var kw := AnalyzePlatform(o, items).topKeywords;
    ExtractKeywordsSpec(text);
    PrefixRanked(ExtractKeywords(text), kw, PlatformKeywordLimit, CandidateTokens(text));
  }
}
