/** The sentiment scorer and the other external collaborators of the pipeline. */
module Scorer {

  /** What the lexicon scorer returns for one text: the compound polarity and
      the positive, neutral and negative masses. */
  datatype Scores = Scores(compound: real, pos: real, neu: real, neg: real)

  /** The functions the pipeline calls but does not define: the lexicon
      scorer, `round(x, 3)` and the `:.1f` formatting of a percentage. */
  datatype Oracles = Oracles(
    polarity: string -> Scores,
    round3: real -> real,
    format1: real -> string)

  datatype Label = Positive | Neutral | Negative

  const PositiveThreshold: real := 0.05
  const NegativeThreshold: real := -0.05

  /** `_get_sentiment_label`: thresholds at plus and minus 0.05, both
      boundaries falling in the neutral band. */
  function LabelOf(compound: real): (l: Label)
    ensures l == Positive <==> compound > 0.05
    ensures l == Negative <==> compound < -0.05
    ensures l == Neutral <==> -0.05 <= compound <= 0.05
  {
    if compound > PositiveThreshold then Positive
    else if compound < NegativeThreshold then Negative
    else Neutral
  }

  /** The label as the report spells it. */
  function LabelName(l: Label): string
  {
    match l
    case Positive => "positive"
    case Neutral => "neutral"
    case Negative => "negative"
  }

  lemma LabelNamesDistinct(a: Label, b: Label)
    ensures LabelName(a) == LabelName(b) <==> a == b
  {
  }
}
