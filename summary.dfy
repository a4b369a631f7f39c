/** Summary sentence (`_generate_summary`) as a function of the combined
    figures. */
module Summary {
  import opened Text
  import opened Scorer
  import opened Platform

  const TopicCount: nat := 3

  function NoData(query: string): string
  {
    "No data found for '" + query + "'."
  }

  function Opening(total: nat, platformCount: nat, query: string): string
  {
    "Analysis of " + NatToString(total) + " items across " + NatToString(platformCount)
    + " platforms for '" + query + "': "
  }

  /** `counts[k] / total * 100`. */
  function Percent(k: nat, total: nat): real
    requires total > 0
  {
    k as real / total as real * 100.0
  }

  const PositiveLead: string := "Overall sentiment is positive ("
  const NegativeLead: string := "Overall sentiment is negative ("
  const MixedLead: string := "Overall sentiment is mixed ("

  function SentimentClause(o: Oracles, posPct: real, negPct: real): string
  {
    if posPct > 50.0 then PositiveLead + o.format1(posPct) + "% positive). "
    else if negPct > 50.0 then NegativeLead + o.format1(negPct) + "% negative). "
    else MixedLead + o.format1(posPct) + "% positive, " + o.format1(negPct) + "% negative). "
  }

  function TopicsClause(keywords: seq<string>): string
  {
    if keywords != [] then "Key topics discussed: " + Join(Prefix(keywords, TopicCount), ", ") + "." else ""
  }

  /** The summary for `total` items over `platformCount` platforms. */
  function SummaryText(o: Oracles, total: nat, counts: Counts, platformCount: nat,
                       keywords: seq<string>, query: string): string
  {
    if total == 0 then NoData(query)
    else
      Opening(total, platformCount, query)
      + SentimentClause(o, Percent(counts.positive, total), Percent(counts.negative, total))
      + TopicsClause(keywords)
  }

  /** A share exceeds 50% exactly when twice the count exceeds the total. */
  lemma PercentAboveHalf(k: nat, total: nat)
    requires total > 0
    ensures Percent(k, total) > 50.0 <==> 2 * k > total
  {
    var x, t := k as real, total as real;
    var q := x / t;
    assert q * t == x;
    assert (2 * k) as real == 2.0 * x;
    if q > 0.5 {
      ProductOrder(q, 0.5, t);
    } else {
      ProductOrder(0.5, q, t);
    }
  }

  lemma ProductOrder(a: real, b: real, t: real)
    requires t > 0.0
    ensures a > b ==> a * t > b * t
    ensures a >= b ==> a * t >= b * t
  {
    assert a * t - b * t == (a - b) * t;
  }

  lemma LeadsDiffer()
    ensures !(PositiveLead <= NegativeLead) && !(PositiveLead <= MixedLead)
    ensures !(NegativeLead <= PositiveLead) && !(NegativeLead <= MixedLead)
    ensures !(MixedLead <= PositiveLead) && !(MixedLead <= NegativeLead)
  {
    assert PositiveLead[21] == 'p' && NegativeLead[21] == 'n' && MixedLead[21] == 'm';
  }

  lemma PrefixOfConcat(a: string, b: string, c: string)
    requires a <= b
    ensures a <= b + c
  {
    assert (b + c)[..|a|] == b[..|a|];
  }

  /** A sentiment clause, whatever follows it, starts with exactly one of the
      three leads: positive when the positive share exceeds 50%, else negative
      when the negative share does, else mixed; and it ends with a space. */
  lemma ClauseLead(o: Oracles, posPct: real, negPct: real, rest: string)
    ensures var c := SentimentClause(o, posPct, negPct) + rest;
      && (PositiveLead <= c <==> posPct > 50.0)
      && (NegativeLead <= c <==> posPct <= 50.0 && negPct > 50.0)
      && (MixedLead <= c <==> posPct <= 50.0 && negPct <= 50.0)
    ensures var c := SentimentClause(o, posPct, negPct); c[|c| - 1] == ' '
  {
    var clause := SentimentClause(o, posPct, negPct);
    var c := clause + rest;
    LeadsDiffer();
    var lead := if posPct > 50.0 then PositiveLead else if negPct > 50.0 then NegativeLead else MixedLead;
    assert lead <= clause;
    PrefixOfConcat(lead, clause, rest);
    if PositiveLead <= c {
      assert PositiveLead == c[..|PositiveLead|];
    }
    if NegativeLead <= c {
      assert NegativeLead == c[..|NegativeLead|];
    }
    if MixedLead <= c {
      assert MixedLead == c[..|MixedLead|];
    }
  }

  /** What the summary says: exactly the no-data sentence when there are no
      items; otherwise the opening clause, then the positive clause iff more
      than half the items are positive, the negative clause iff not that and
      more than half are negative, the mixed clause otherwise, and at the end
      the first three keywords iff there are keywords. */
  lemma SummarySpec(o: Oracles, total: nat, counts: Counts, platformCount: nat,
                    keywords: seq<string>, query: string)
    ensures var s := SummaryText(o, total, counts, platformCount, keywords, query);
      && (total == 0 ==> s == NoData(query))
      && (total > 0 ==>
        var open := Opening(total, platformCount, query);
        && open <= s
        && (PositiveLead <= s[|open|..] <==> 2 * counts.positive > total)
        && (NegativeLead <= s[|open|..] <==> 2 * counts.positive <= total && 2 * counts.negative > total)
        && (MixedLead <= s[|open|..] <==> 2 * counts.positive <= total && 2 * counts.negative <= total)
        && (keywords != [] ==>
              var topics := "Key topics discussed: " + Join(Prefix(keywords, TopicCount), ", ") + ".";
              |topics| <= |s| && s[|s| - |topics|..] == topics)
        && (keywords == [] ==> s[|s| - 1] == ' '))
  {
    if total > 0 {
      var s := SummaryText(o, total, counts, platformCount, keywords, query);
      var open := Opening(total, platformCount, query);
      var pp, np := Percent(counts.positive, total), Percent(counts.negative, total);
      var clause := SentimentClause(o, pp, np);
      var topics := TopicsClause(keywords);
      PercentAboveHalf(counts.positive, total);
      PercentAboveHalf(counts.negative, total);
      ClauseLead(o, pp, np, topics);
      assert s == open + clause + topics;
      assert s[|open|..] == clause + topics;
      assert clause[|clause| - 1] == ' ';
    }
  }
}
