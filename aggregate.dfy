/** The aggregators: fixed-weight sums of the per-signal scores, and the
    two instrument evaluations that feed them and band the result. */
module Aggregate {
  import opened Common
  import opened Labels
  import opened Positioning
  import opened Market
  import opened Macro
  import opened CrossAsset

  /** Nasdaq weights: positioning, price, options, breadth, macro. */
  const NasdaqCotWeight: real := 0.15
  const NasdaqPriceWeight: real := 0.25
  const NasdaqOptionsWeight: real := 0.20
  const NasdaqBreadthWeight: real := 0.20
  const NasdaqMacroWeight: real := 0.20

  /** Gold weights; the inflation slot is reserved and its signal is 0. */
  const GoldCotWeight: real := 0.35
  const GoldInflationWeight: real := 0.25
  const GoldInflationSignal: real := 0.0
  const GoldOptionsWeight: real := 0.20
  const GoldCrossWeight: real := 0.20

  /** The evaluation of one instrument: the composite, its label and the
      per-signal scores in display order. */
  datatype BiasResult = BiasResult(
    instrument: Instrument,
    composite: real,
    bias: Label,
    breakdown: seq<Score>)

  /** The Nasdaq weighted sum. The weights sum to one, so equal scores give
      that score back; within the scorers' ranges the sum stays within 1.675. */
  function NasdaqComposite(cot: real, price: real, options: real, breadth: real, macro: real): (c: real)
    ensures cot == price == options == breadth == macro ==> c == cot
    ensures -1.5 <= cot <= 1.5 && -1.0 <= price <= 1.0 && -1.0 <= options <= 1.0
            && -2.0 <= breadth <= 2.0 && -3.0 <= macro <= 3.0
            ==> -1.675 <= c <= 1.675
  {
    cot * NasdaqCotWeight + price * NasdaqPriceWeight + options * NasdaqOptionsWeight
      + breadth * NasdaqBreadthWeight + macro * NasdaqMacroWeight
  }

  /** The gold weighted sum. The weights in use sum to 0.75, because the
      reserved inflation weight is not redistributed; within the scorers'
      ranges the sum lies in [-1.125, 1.3], strictly inside the Mild bands. */
  function GoldComposite(cot: real, options: real, cross: real): (c: real)
    ensures cot == options == cross ==> c == 0.75 * cot
    ensures -1.5 <= cot <= 2.0 && -1.0 <= options <= 1.0 && -2.0 <= cross <= 2.0
            ==> -1.125 <= c <= 1.3 && SentimentLabel(c) in {MildBullish, Neutral, MildBearish}
  {
    cot * GoldCotWeight + GoldInflationWeight * GoldInflationSignal
      + options * GoldOptionsWeight + cross * GoldCrossWeight
  }

  /** The Nasdaq column: positioning, QQQ price, QQQ options, the breadth
      vote clamped to [-2, 2] and the macro calendar, weighted and banded. */
  method EvaluateNasdaq(cot: Option<CotRecord>, px: Option<map<string, real>>,
                        flow: Option<OptionFlow>, breadth: Breadth,
                        events: seq<MacroEvent>, now: int)
    returns (r: BiasResult)
    ensures r.composite == NasdaqComposite(
      ScoreCotGeneric(cot).value, ScorePrice(px, NasdaqBaseTicker).value,
      ScoreOptions(flow).value, ClampInt(breadth.score, -2, 2) as real, MacroScore(events, now))
    ensures -1.675 <= r.composite <= 1.675
    ensures r.bias == SentimentLabel(r.composite)
    ensures r.instrument == Nasdaq
    ensures r.breakdown == [ScoreCotGeneric(cot), ScorePrice(px, NasdaqBaseTicker), ScoreOptions(flow),
                            Score(ClampInt(breadth.score, -2, 2) as real, Detail),
                            Score(MacroScore(events, now), Detail)]
  {
    var sCot := ScoreCotGeneric(cot);
    var sPrc := ScorePrice(px, NasdaqBaseTicker);
    var sOpt := ScoreOptions(flow);
    var sBrd := ClampInt(breadth.score, -2, 2) as real;
    var sMac := ScoreMacro(events, now);
    var score := NasdaqComposite(sCot.value, sPrc.value, sOpt.value, sBrd, sMac.value);
    r := BiasResult(Nasdaq, score, SentimentLabel(score),
                    [sCot, sPrc, sOpt, Score(sBrd, Detail), sMac]);
  }

  /** The gold column: gold positioning, GLD options and the cross-asset
      votes, weighted and banded; never Bullish and never Bearish. */
  method EvaluateGold(cot: Option<CotRecord>, flow: Option<OptionFlow>,
                      cross: map<CrossSeries, real>)
    returns (r: BiasResult)
    ensures r.composite == GoldComposite(
      ScoreGoldCot(cot).value, ScoreOptions(flow).value, ClampReal(CrossRaw(cross), -2.0, 2.0))
    ensures -1.125 <= r.composite <= 1.3
    ensures r.bias == SentimentLabel(r.composite)
    ensures r.bias != Bullish && r.bias != Bearish
    ensures r.instrument == Gold
    ensures r.breakdown == [ScoreGoldCot(cot), ScoreOptions(flow),
                            Score(ClampReal(CrossRaw(cross), -2.0, 2.0), Notes(CrossNotes(cross)))]
  {
    var sCot := ScoreGoldCot(cot);
    var sOpt := ScoreOptions(flow);
    var sCross := ScoreGoldCross(cross);
    var score := GoldComposite(sCot.value, sOpt.value, sCross.value);
    r := BiasResult(Gold, score, SentimentLabel(score), [sCot, sOpt, sCross]);
  }

  /** A worked Nasdaq case: net speculative length of 5000 with shorts rising
      faster than longs, QQQ up 0.5%, put/call 0.75, fifteen of twenty names
      up and five down, and only an out-of-window event: composite 0.925,
      Mild Bullish. */
  lemma NasdaqWorkedExample(now: int)
    ensures
      var rec := CotRecord(15000, 10000, 0, 0, 0, 0, 100, 500, 0, 5000, 0);
      var flow := FlowFromTotals(100, 75, 0, 0);
      var stale := MacroEvent(Stamp(now + 4 * SecondsPerDay), High, Blank);
      var c := NasdaqComposite(
        ScoreCotGeneric(Some(rec)).value,
        ScorePrice(Some(map[NasdaqBaseTicker := 0.5]), NasdaqBaseTicker).value,
        ScoreOptions(Some(flow)).value,
        BreadthVotes(15, 5, 20) as real,
        MacroScore([stale], now));
      c == 0.925 && SentimentLabel(c) == MildBullish
  {
  }
}
