/** The label mapper: a total banding of a composite score into five labels. */
module Labels {

  datatype Label = Bullish | MildBullish | Neutral | MildBearish | Bearish

  /** The band a composite score falls in; each band is stated by both of
      its bounds, so each ensures is an if-and-only-if. */
  function SentimentLabel(score: real): (l: Label)
    ensures l == Bullish <==> score >= 1.5
    ensures l == MildBullish <==> 0.5 <= score < 1.5
    ensures l == Neutral <==> -0.5 < score < 0.5
    ensures l == MildBearish <==> -1.5 < score <= -0.5
    ensures l == Bearish <==> score <= -1.5
  {
    if score >= 1.5 then Bullish
    else if score >= 0.5 then MildBullish
    else if score > -0.5 then Neutral
    else if score > -1.5 then MildBearish
    else Bearish
  }

  /** Position of a label on the bearish-to-bullish scale. */
  function Rank(l: Label): nat
  {
    match l
    case Bearish => 0
    case MildBearish => 1
    case Neutral => 2
    case MildBullish => 3
    case Bullish => 4
  }

  /** A higher score never gets a more bearish label. */
  lemma LabelMonotone(a: real, b: real)
    requires a <= b
    ensures Rank(SentimentLabel(a)) <= Rank(SentimentLabel(b))
  {
  }
}
