# Market bias signal engine, in Dafny

This project models the scoring and aggregation engine of a daily market-bias
dashboard for two instruments, the Nasdaq 100 and gold. The engine turns
partially missing market snapshots into one bounded composite score per
instrument, and then into one of five labels (Bullish, Mild Bullish, Neutral,
Mild Bearish, Bearish). The snapshots are:

- weekly futures-positioning (COT) reports;
- price changes;
- option-chain put/call volume;
- advance/decline counts over a fixed basket;
- an economic calendar;
- cross-market series for gold.

Every part of the engine there is modelled: the label banding, the per-signal
scorers, the positioning normaliser, the put/call ratio rule and the two
fixed-weight aggregators.

Modules, one file each:

- `Common` (common.dfy): `Option`, the `Score` output, rationales and the clamps.
- `Labels` (labels.dfy): the five-band label mapper.
- `Positioning` (positioning.dfy): row selection, the latest-week / prior-week
  lookup, building the positioning record, and the Nasdaq and gold positioning scorers.
- `Market` (market.dfy): the put/call ratio, the options and price scorers, and
  the breadth vote.
- `Macro` (macro.dfy): the calendar scorer, a loop over the events with an
  explicit evaluation time `now`.
- `CrossAsset` (crossasset.dfy): the gold cross-asset scorer. It builds its
  score and its notes step by step.
- `Aggregate` (aggregate.dfy): the Nasdaq and gold composites and the two
  evaluations that feed them.

The source code's loops and in-place updates are Dafny methods:

- the calendar loop (`Macro.ScoreMacro`);
- the cross-asset accumulation (`CrossAsset.ScoreGoldCross`);
- the breadth vote (`Market.ComputeBreadth`);
- the field-by-field record construction (`Positioning.ParseCot`).

Each of these methods is proved against a specification function, and the
properties are proved about those functions. Conditional expressions are
functions. Scores, percent changes and ratios are `real`. Every member is a
function of its inputs, and the evaluation time is an explicit parameter, so
identical inputs give identical results by construction. The contracts of
the two evaluation methods fix the composite, the label and every entry of
the breakdown.

Where the system's documented design and the code disagree, the model follows the code:

- A composite of exactly -1.5 is Bearish. The code tests `score > -1.5` for
  Mild Bearish, although the documented bands make Bearish start only below -1.5.
- The documented design says a failed integer coercion of a report field
  invalidates the record. The code does not handle the failure, so there is
  no "invalid record" path.
- The documented design gives every scorer a "no data" rationale when its
  input is absent. With no cross-asset series present, the code's gold
  cross-asset rationale is an empty list of notes instead.
- The documented design clamps positioning scores to [-2, 2]; the model proves
  that clamp never takes effect. It also bounds the Nasdaq composite by ±2.6;
  the bounds proved here are tighter: ±1.675 for Nasdaq, [-1.125, 1.3] for gold.
- The documented design also describes a plain-sign label mapper
  (above 0 Bullish, below 0 Bearish, 0 Neutral) for a "macro + news" variant.
  That variant is not in this repository's code.

## Model

| member | source | states |
|---|---|---|
| `Common.ClampReal` | app.py:249 | `max(min(x, hi), lo)`: the result lies in [lo, hi], is x inside the range and the nearer bound outside it |
| `Common.ClampInt` | app.py:221 | the same clamp on integers (breadth at ±3, and ±2 when the Nasdaq column reads it) |
| `Labels.SentimentLabel` | app.py:59-64 | each label holds exactly on its band: ≥1.5 Bullish, [0.5,1.5) Mild Bullish, (-0.5,0.5) Neutral, (-1.5,-0.5] Mild Bearish, ≤-1.5 Bearish |
| `Labels.LabelMonotone` | app.py:59-64 | a higher score never gets a more bearish label |
| `Positioning.Select` | app.py:87-90 | keeps exactly the rows whose market name matches the instrument |
| `Positioning.SelectFirst` | app.py:87-90 | Select keeps report order: its first row is the first matching row of the report |
| `Positioning.RowsOn` | app.py:83 | keeps exactly the rows with the given report date |
| `Positioning.RowsOnFirst` | app.py:102 | the first row kept is the earliest row of that date in report order, the row `iloc[0]` reads |
| `Positioning.MaxDate` | app.py:81 | the latest date is the date of some row and no row is later |
| `Positioning.FindLatestWeek` | app.py:76-83 | no data exactly when nothing matched; otherwise a non-empty set of rows at the maximum date, and the rows dated exactly 7 days earlier |
| `Positioning.ParseCot` | app.py:85-138 | no record exactly when no row matches; otherwise the latest row's fields, all three deltas 0 without a prior-week row and current minus prior with one, `netSpec = long - short`, `netComm = commLong - commShort` |
| `Positioning.NetSpecChange` | app.py:105-110 | with a prior week, the change in net speculative position equals the long delta minus the short delta |
| `Positioning.ScoreCotGeneric` | app.py:241-251 | no record gives (0, no data); otherwise the value is in {-1.5,-0.5,0.5,1.5}, positive exactly when `netSpec > 0`, and of size 1.5 exactly when the week's long-vs-short change agrees with the position's sign |
| `Positioning.ScoreGoldCot` | app.py:253-260 | no record gives (0, no data); otherwise the value is in {-1.5,-0.5,0.5,1,1.5,2} ⊆ [-1.5,2], positive exactly when `netSpec > 0`, in {1,2} exactly when `netSpec > 50000`, in {-0.5,1.5,2} exactly when longs grew; together these fix each of the six values |
| `Market.PutCallRatio` | app.py:182 | undefined exactly when call volume is not positive; otherwise ratio × calls = puts |
| `Market.FlowFromTotals` | app.py:178-189 | the summary carries the four chain totals; its ratio is absent exactly when call volume is not positive, and otherwise ratio × calls = puts |
| `Market.ScoreOptions` | app.py:224-230 | no flow or no ratio gives (0, no data); otherwise +1 exactly when ratio < 0.8, -1 exactly when > 1.2, 0 exactly on [0.8, 1.2]; always in {-1,0,1} |
| `Market.NoCallVolumeIsNoData` | app.py:182 | a chain with zero call volume scores (0, no data) |
| `Market.ScorePrice` | app.py:232-239 | no table or absent ticker gives (0, no data); otherwise +1 exactly when change > 0.2, -1 exactly when < -0.2, 0 exactly on [-0.2, 0.2]; always in {-1,0,1} |
| `Market.Advancing` | app.py:210 | the count of rising names is at most the number of names; 0 exactly when none rose, all exactly when all rose |
| `Market.Declining` | app.py:211 | the same for falling names |
| `Market.AdvancingPlusDeclining` | app.py:210-211 | risers plus fallers never exceed the number of names |
| `Market.AdvanceDeclineRatio` | app.py:213 | with no decliners the ratio is the advancer count (division by 1, never by zero); otherwise ratio × decliners = advancers |
| `Market.RatioVote` | app.py:215-216 | the ratio sub-vote is in [-1, 1]: +1 exactly when the ratio is above 1.2, -1 exactly when below 0.8 |
| `Market.ShareVote` | app.py:218-220 | the share sub-vote is in [-1, 1]: +1 exactly when advancers over the total are above 0.55, -1 exactly when below 0.45 |
| `Market.BreadthVotes` | app.py:213-220 | the breadth vote is the sum of the two sub-votes, in [-2, 2]; +2 exactly when ratio > 1.2 and share > 0.55; -2 exactly when ratio < 0.8 and share < 0.45 |
| `Market.ComputeBreadth` | app.py:208-222 | counts risers and fallers, takes the basket size 20 as total, and returns the vote sum, which the ±3 clamp leaves unchanged |
| `Market.BreadthTwelveOfTwenty` | app.py:213-220 | 12 up, 8 down out of 20 votes +2 |
| `Macro.ImpactWeight` | app.py:266 | impact weights lie in [0, 2] |
| `Macro.Contribution` | app.py:269-288 | skipped events (no date, unparseable, outside the closed ±3-day window, non-numeric surprise) add 0; a missing surprise subtracts impact × 0.5; a numeric surprise adds impact if > 0 and subtracts it otherwise |
| `Macro.MacroRaw` | app.py:267-288 | the running total over n events lies in [-2n, 2n] |
| `Macro.MacroScore` | app.py:289 | the score lies in [-3, 3] and equals the sum whenever the sum is within it |
| `Macro.ScoreMacro` | app.py:262-290 | the loop computes exactly the clamped sum of the contributions |
| `Macro.MacroRawAppend` | app.py:268-288 | the sum over two event lists joined is the sum of the sums |
| `Macro.SkippedEventIgnored` | app.py:270-285 | inserting a skipped event anywhere leaves the score unchanged |
| `Macro.MacroRawPermutation` | app.py:268-288 | the score does not depend on the order of the calendar's events |
| `Macro.SingleHighEvent` | app.py:278-288 | one in-window High event scores -1 when pending, +2 for a positive surprise, -2 for a zero or negative one, 0 for a non-numeric one |
| `Macro.TwoHighSurprisesClamp` | app.py:289 | two positive High surprises sum to 4 and score the clamped 3 |
| `Aggregate.NasdaqComposite` | app.py:357 | the weights sum to 1 (equal scores give that score back); within the scorers' ranges the composite lies in [-1.675, 1.675] |
| `Aggregate.GoldComposite` | app.py:380 | the weights in use sum to 0.75, because the reserved 0.25 inflation slot contributes 0; within the scorers' ranges the composite lies in [-1.125, 1.3], so its label is Mild Bullish, Neutral or Mild Bearish |
| `CrossAsset.DollarVote` | app.py:296-298 | the dollar votes ±1, positive exactly when it fell |
| `CrossAsset.YieldVote` | app.py:299-301 | the yield votes ±1, positive exactly when it did not rise |
| `CrossAsset.VolVote` | app.py:302-304 | volatility votes ±0.5, positive exactly when it did not fall |
| `CrossAsset.SeriesVote` | app.py:295-304 | a series votes at most 1 in size (volatility at most 0.5), and 0 exactly when it is absent or is copper or oil |
| `CrossAsset.CrossRaw` | app.py:293-304 | the unclamped sum of the three votes lies in [-2.5, 2.5] |
| `CrossAsset.SeriesNotes` | app.py:296-304 | at most one note per series, and it supports gold exactly when that series voted up |
| `CrossAsset.CrossNotes` | app.py:294-304 | one note per present voting series; every note is about a present series and supports gold exactly when that series voted up |
| `CrossAsset.ScoreGoldCross` | app.py:292-306 | the step-by-step score is the clamped vote sum, in [-2, 2], with the notes of the present series in DXY, US10Y, VIX order |
| `CrossAsset.NoCrossSeries` | app.py:292-306 | with none of the three series present, the score is 0 and there are no notes |
| `CrossAsset.CrossMaximum` | app.py:296-305 | the raw sum is 2.5 exactly when the dollar fell, the yield did not rise and volatility did not fall, and it is then clamped to 2 |
| `Aggregate.EvaluateNasdaq` | app.py:349-358 | the composite is the weighted sum of the five scores (breadth clamped to ±2), lies within ±1.675, and is banded by `SentimentLabel`; the breakdown is exactly the five scorer results in display order |
| `Aggregate.EvaluateGold` | app.py:373-381 | the composite is the weighted sum of gold positioning, options and cross-asset scores, lies in [-1.125, 1.3], and is never labelled Bullish or Bearish; the breakdown is exactly the three scorer results |
| `Aggregate.NasdaqWorkedExample` | app.py:349-358 | net spec 5000 with shorts rising faster, QQQ +0.5%, put/call 0.75, breadth 15/5/20, no in-window events: composite 0.925, Mild Bullish |

## Left out

- The page layout, markdown, expanders and emoji of the label (app.py:12, app.py:311-392) are presentation only. `SentimentLabel` returns the label without its emoji.
- The fetchers `fetch_cot_csv`, `fetch_prices`, `fetch_option_flow_yf` and `fetch_trading_economics_calendar` (app.py:69-203) do HTTP and pandas I/O. Their outputs are the model's inputs. The one exception is the put/call ratio rule at app.py:182, which `Market.PutCallRatio` models.
- The percent-change arithmetic on fetched prices (app.py:154, app.py:161) is floating point, so percent changes enter as given reals. The breadth counts take those changes as input.
- The caches, their time-to-live settings and the refresh button (app.py:69, app.py:140, app.py:313-315) are runtime plumbing.
- `fmt_num` and the text of the rationales (app.py:49-57) are string formatting. A rationale is reduced to: no data, some detail, or the gold cross-asset notes.
- Market-name matching, CSV column access and `int()` coercion (app.py:87-100) are not modelled. Rows arrive as records with integer fields, flagged by whether their name matched each instrument's pattern. Dates are day numbers; the date string of the record is that day number.
- `datetime.utcnow()` and `strptime` (app.py:263, app.py:273) are replaced by an explicit `now` and pre-parsed event timestamps, both in whole seconds. The sub-second part of the current time is not modelled.
- `Positioning.ParseCot` has no branch for the `latest.empty` test (app.py:91, app.py:117), because that test cannot succeed: `FindLatestWeek` proves the latest rows are non-empty.
- Floating-point rounding and NaN are not modelled. The model compares exact reals with the decimal thresholds, such as `0.2`, `0.8`, `1.2`, `0.55` and `0.45`. One visible effect is at app.py:380. In binary floating point, gold positioning 2 with options and cross-asset scores of (-1, 0), (0, -1) or (1, -2) sums to slightly less than 0.5, which the code labels Neutral. The model's exact sum of 0.5 is Mild Bullish.
