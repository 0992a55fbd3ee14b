/** Options skew, price momentum and market breadth. */
module Market {
  import opened Common

  /** Near-expiry option chain totals for one ticker. `putCallRatio` is
      absent exactly when no call volume traded. */
  datatype OptionFlow = OptionFlow(
    callVolume: int,
    putVolume: int,
    callOi: int,
    putOi: int,
    putCallRatio: Option<real>)

  /** Put volume over call volume, undefined (not zero) without call volume. */
  function PutCallRatio(putVolume: int, callVolume: int): (r: Option<real>)
    ensures r.None? <==> callVolume <= 0
    ensures r.Some? ==> r.value * callVolume as real == putVolume as real
  {
    if callVolume > 0 then Some(putVolume as real / callVolume as real) else None
  }

  /** The flow summary assembled from the chain totals. */
  function FlowFromTotals(callVolume: int, putVolume: int, callOi: int, putOi: int): (f: OptionFlow)
    ensures f.putCallRatio.None? <==> callVolume <= 0
    ensures f.putCallRatio.Some? ==> f.putCallRatio.value * callVolume as real == putVolume as real
    ensures f.callVolume == callVolume && f.putVolume == putVolume
    ensures f.callOi == callOi && f.putOi == putOi
  {
    OptionFlow(callVolume, putVolume, callOi, putOi, PutCallRatio(putVolume, callVolume))
  }

  /** Options skew: a low put/call ratio is bullish, a high one bearish;
      both thresholds are strict. No flow or no ratio is no data. */
  function ScoreOptions(flow: Option<OptionFlow>): (s: Score)
    ensures flow.None? || flow.value.putCallRatio.None? ==> s == Score(0.0, NoData)
    ensures s.value in {-1.0, 0.0, 1.0}
    ensures flow.Some? && flow.value.putCallRatio.Some? ==>
      var pcr := flow.value.putCallRatio.value;
      && s.rationale == Detail
      && (s.value == 1.0 <==> pcr < 0.8)
      && (s.value == -1.0 <==> pcr > 1.2)
      && (s.value == 0.0 <==> 0.8 <= pcr <= 1.2)
  {
    if flow.None? || flow.value.putCallRatio.None? then Score(0.0, NoData)
    else
      var pcr := flow.value.putCallRatio.value;
      if pcr < 0.8 then Score(1.0, Detail)
      else if pcr > 1.2 then Score(-1.0, Detail)
      else Score(0.0, Detail)
  }

  /** A chain with no call volume scores as no data, whatever else it holds. */
  lemma NoCallVolumeIsNoData(putVolume: int, callOi: int, putOi: int)
    ensures ScoreOptions(Some(FlowFromTotals(0, putVolume, callOi, putOi))) == Score(0.0, NoData)
  {
  }

  /** The benchmark ticker of the Nasdaq price signal. */
  const NasdaqBaseTicker: string := "QQQ"

  /** The tickers whose prices are fetched for the Nasdaq column. */
  const NasdaqPriceTickers: seq<string> := ["QQQ", "NVDA", "AAPL", "SOXX", "^VIX"]

  /** Price momentum of `base`: a percent change above 0.2 is bullish, below
      -0.2 bearish, anything in between flat. A missing table or a missing
      ticker is no data; a change of exactly 0 is a real, flat signal. */
  function ScorePrice(px: Option<map<string, real>>, base: string): (s: Score)
    ensures px.None? || base !in px.value ==> s == Score(0.0, NoData)
    ensures s.value in {-1.0, 0.0, 1.0}
    ensures px.Some? && base in px.value ==>
      var chg := px.value[base];
      && s.rationale == Detail
      && (s.value == 1.0 <==> chg > 0.2)
      && (s.value == -1.0 <==> chg < -0.2)
      && (s.value == 0.0 <==> -0.2 <= chg <= 0.2)
  {
    if px.None? || base !in px.value then Score(0.0, NoData)
    else
      var chg := px.value[base];
      if chg > 0.2 then Score(1.0, Detail)
      else if chg < -0.2 then Score(-1.0, Detail)
      else Score(0.0, Detail)
  }

  /** The fixed breadth basket. */
  const Sp500Sample: seq<string> := [
    "AAPL", "MSFT", "AMZN", "GOOGL", "META", "TSLA", "NVDA", "JPM", "JNJ", "V",
    "XOM", "PG", "HD", "AVGO", "LLY", "BAC", "PFE", "KO", "DIS", "NFLX"]

  /** The breadth result: the vote and the counts it was taken on. */
  datatype Breadth = Breadth(score: int, adv: nat, dec: nat, tot: nat)

  /** Number of names that rose. */
  function Advancing(changes: seq<real>): (n: nat)
    ensures n <= |changes|
    ensures n == 0 <==> forall i :: 0 <= i < |changes| ==> changes[i] <= 0.0
    ensures n == |changes| <==> forall i :: 0 <= i < |changes| ==> changes[i] > 0.0
  {
    if changes == [] then 0
    else (if changes[0] > 0.0 then 1 else 0) + Advancing(changes[1..])
  }

  /** Number of names that fell. */
  function Declining(changes: seq<real>): (n: nat)
    ensures n <= |changes|
    ensures n == 0 <==> forall i :: 0 <= i < |changes| ==> changes[i] >= 0.0
    ensures n == |changes| <==> forall i :: 0 <= i < |changes| ==> changes[i] < 0.0
  {
    if changes == [] then 0
    else (if changes[0] < 0.0 then 1 else 0) + Declining(changes[1..])
  }

  /** A name never counts as both rising and falling. */
  lemma {:induction false} AdvancingPlusDeclining(changes: seq<real>)
    ensures Advancing(changes) + Declining(changes) <= |changes|
  {
    if changes != [] {
      AdvancingPlusDeclining(changes[1..]);
    }
  }

  /** Advancers over decliners, with at least one decliner assumed, so no
      decliners never divides by zero. */
  function AdvanceDeclineRatio(adv: int, dec: int): (r: real)
    ensures dec <= 0 ==> r == adv as real
    ensures dec >= 1 ==> r * dec as real == adv as real
  {
    adv as real / (if dec >= 1 then dec else 1) as real
  }

  /** The advance/decline sub-vote: up above 1.2, down below 0.8. */
  function RatioVote(adv: int, dec: int): (v: int)
    ensures -1 <= v <= 1
    ensures v == 1 <==> AdvanceDeclineRatio(adv, dec) > 1.2
    ensures v == -1 <==> AdvanceDeclineRatio(adv, dec) < 0.8
  {
    var ratio := AdvanceDeclineRatio(adv, dec);
    if ratio > 1.2 then 1 else if ratio < 0.8 then -1 else 0
  }

  /** The share-of-advancers sub-vote: up above 55%, down below 45%. */
  function ShareVote(adv: int, tot: int): (v: int)
    requires tot > 0
    ensures -1 <= v <= 1
    ensures v == 1 <==> adv as real / tot as real > 0.55
    ensures v == -1 <==> adv as real / tot as real < 0.45
  {
    var pctPos := adv as real / tot as real;
    if pctPos > 0.55 then 1 else if pctPos < 0.45 then -1 else 0
  }

  /** The two breadth sub-votes summed. */
  function BreadthVotes(adv: int, dec: int, tot: int): (v: int)
    requires tot > 0
    ensures v == RatioVote(adv, dec) + ShareVote(adv, tot)
    ensures -2 <= v <= 2
    ensures v == 2 <==>
      AdvanceDeclineRatio(adv, dec) > 1.2 && adv as real / tot as real > 0.55
    ensures v == -2 <==>
      AdvanceDeclineRatio(adv, dec) < 0.8 && adv as real / tot as real < 0.45
  {
    RatioVote(adv, dec) + ShareVote(adv, tot)
  }

  /** Counts risers and fallers among the fetched percent changes of the
      basket and takes the two votes, updating the score in place. The
      total is the basket size, even when fewer prices came back. */
  method ComputeBreadth(changes: seq<real>) returns (b: Breadth)
    ensures b.adv == Advancing(changes) && b.dec == Declining(changes)
    ensures b.tot == |Sp500Sample| == 20
    ensures b.score == BreadthVotes(b.adv, b.dec, b.tot)
    ensures -2 <= b.score <= 2
  {
    var adv := Advancing(changes);
    var dec := Declining(changes);
    var tot := |Sp500Sample|;
    var ratio := adv as real / (if dec >= 1 then dec else 1) as real;
    var score := 0;
    if ratio > 1.2 {
      score := score + 1;
    } else if ratio < 0.8 {
      score := score - 1;
    }
    var pctPos := adv as real / tot as real;
    if pctPos > 0.55 {
      score := score + 1;
    } else if pctPos < 0.45 {
      score := score - 1;
    }
    score := ClampInt(score, -3, 3);
    b := Breadth(score, adv, dec, tot);
  }

  /** Twelve risers and eight fallers out of twenty give both votes. */
  lemma BreadthTwelveOfTwenty()
    ensures BreadthVotes(12, 8, 20) == 2
  {
  }
}
