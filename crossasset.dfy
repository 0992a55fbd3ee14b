/** The gold cross-asset scorer: dollar, ten-year yield and volatility moves. */
module CrossAsset {
  import opened Common

  /** The cross-market series fetched for gold; only the first three vote. */
  datatype CrossSeries = DXY | US10Y | VIX | Copper | Oil

  /** Whether a note reads as support for gold. */
  predicate SupportsGold(n: CrossNote)
  {
    n == DollarDownSupports || n == YieldDownSupports || n == VolUpRiskOff
  }

  /** The vote of the dollar: a falling dollar helps gold. */
  function DollarVote(chg: real): (v: real)
    ensures v == 1.0 || v == -1.0
    ensures v > 0.0 <==> chg < 0.0
  {
    if chg < 0.0 then 1.0 else -1.0
  }

  /** The vote of the ten-year yield: a rising yield hurts gold. */
  function YieldVote(chg: real): (v: real)
    ensures v == 1.0 || v == -1.0
    ensures v > 0.0 <==> chg <= 0.0
  {
    if chg > 0.0 then -1.0 else 1.0
  }

  /** The vote of volatility: falling volatility is risk-on, bearish for gold. */
  function VolVote(chg: real): (v: real)
    ensures v == 0.5 || v == -0.5
    ensures v > 0.0 <==> chg >= 0.0
  {
    if chg < 0.0 then -0.5 else 0.5
  }

  /** The series a note is about. */
  function NoteSeries(n: CrossNote): CrossSeries
  {
    match n
    case DollarDownSupports => DXY
    case DollarUpHurts => DXY
    case YieldUpHurts => US10Y
    case YieldDownSupports => US10Y
    case VolDownRiskOn => VIX
    case VolUpRiskOff => VIX
  }

  /** The vote of one series: 0 exactly when it is absent or does not vote,
      at most 1 in size, and at most 0.5 for volatility. */
  function SeriesVote(pxmap: map<CrossSeries, real>, k: CrossSeries): (v: real)
    ensures -1.0 <= v <= 1.0
    ensures v == 0.0 <==> k !in pxmap || k == Copper || k == Oil
    ensures k == VIX ==> -0.5 <= v <= 0.5
  {
    if k !in pxmap then 0.0
    else match k
      case DXY => DollarVote(pxmap[k])
      case US10Y => YieldVote(pxmap[k])
      case VIX => VolVote(pxmap[k])
      case _ => 0.0
  }

  /** The unclamped sum of the three votes. */
  function CrossRaw(pxmap: map<CrossSeries, real>): (r: real)
    ensures -2.5 <= r <= 2.5
  {
    SeriesVote(pxmap, DXY) + SeriesVote(pxmap, US10Y) + SeriesVote(pxmap, VIX)
  }

  /** The note of one present series, in the order they are examined. */
  function SeriesNotes(pxmap: map<CrossSeries, real>, k: CrossSeries): (ns: seq<CrossNote>)
    ensures |ns| <= 1
    ensures ns != [] ==> (SupportsGold(ns[0]) <==> SeriesVote(pxmap, k) > 0.0)
  {
    if k !in pxmap then []
    else match k
      case DXY => [if pxmap[k] < 0.0 then DollarDownSupports else DollarUpHurts]
      case US10Y => [if pxmap[k] > 0.0 then YieldUpHurts else YieldDownSupports]
      case VIX => [if pxmap[k] < 0.0 then VolDownRiskOn else VolUpRiskOff]
      case _ => []
  }

  /** The notes of the dollar, yield and volatility series, where present:
      one per present voting series, each about a present series and
      supporting gold exactly when that series voted up. */
  function CrossNotes(pxmap: map<CrossSeries, real>): (ns: seq<CrossNote>)
    ensures |ns| ==
      (if DXY in pxmap then 1 else 0) + (if US10Y in pxmap then 1 else 0) + (if VIX in pxmap then 1 else 0)
    ensures forall n :: n in ns ==>
      NoteSeries(n) in pxmap && (SupportsGold(n) <==> SeriesVote(pxmap, NoteSeries(n)) > 0.0)
  {
    SeriesNotes(pxmap, DXY) + SeriesNotes(pxmap, US10Y) + SeriesNotes(pxmap, VIX)
  }

  /** Builds the score and the notes step by step, one series at a time. */
  method ScoreGoldCross(pxmap: map<CrossSeries, real>) returns (s: Score)
    ensures s.value == ClampReal(CrossRaw(pxmap), -2.0, 2.0)
    ensures -2.0 <= s.value <= 2.0
    ensures s.rationale == Notes(CrossNotes(pxmap))
  {
    var score := 0.0;
    var notes: seq<CrossNote> := [];
    if DXY in pxmap {
      if pxmap[DXY] < 0.0 {
        score := score + 1.0;
        notes := notes + [DollarDownSupports];
      } else {
        score := score - 1.0;
        notes := notes + [DollarUpHurts];
      }
    }
    if US10Y in pxmap {
      if pxmap[US10Y] > 0.0 {
        score := score - 1.0;
        notes := notes + [YieldUpHurts];
      } else {
        score := score + 1.0;
        notes := notes + [YieldDownSupports];
      }
    }
    if VIX in pxmap {
      if pxmap[VIX] < 0.0 {
        score := score - 0.5;
        notes := notes + [VolDownRiskOn];
      } else {
        score := score + 0.5;
        notes := notes + [VolUpRiskOff];
      }
    }
    score := ClampReal(score, -2.0, 2.0);
    s := Score(score, Notes(notes));
  }

  /** With none of the three series present, the score is 0 and there are
      no notes; copper and oil never matter. */
  lemma NoCrossSeries(pxmap: map<CrossSeries, real>)
    requires DXY !in pxmap && US10Y !in pxmap && VIX !in pxmap
    ensures ClampReal(CrossRaw(pxmap), -2.0, 2.0) == 0.0
    ensures CrossNotes(pxmap) == []
  {
  }

  /** The raw sum reaches 2.5 exactly when the dollar falls, the yield does
      not rise and volatility does not fall; the clamp then gives 2. */
  lemma CrossMaximum(pxmap: map<CrossSeries, real>)
    ensures CrossRaw(pxmap) == 2.5 <==>
      && DXY in pxmap && pxmap[DXY] < 0.0
      && US10Y in pxmap && pxmap[US10Y] <= 0.0
      && VIX in pxmap && pxmap[VIX] >= 0.0
    ensures CrossRaw(pxmap) == 2.5 ==> ClampReal(CrossRaw(pxmap), -2.0, 2.0) == 2.0
  {
  }
}
