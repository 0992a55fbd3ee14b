/** The positioning (COT) normaliser and the two positioning scorers. */
module Positioning {
  import opened Common

  datatype Instrument = Nasdaq | Gold

  /** One row of the weekly futures-positioning report, reduced to the
      columns the core reads, already coerced to integers. `date` is the
      report date as a day number. The two flags are the outcome of the
      case-insensitive market-name patterns ("NASDAQ-100", "E-MINI
      NASDAQ-100", "NASDAQ 100" for Nasdaq; "GOLD" for gold). */
  datatype CotRow = CotRow(
    matchesNasdaq: bool,
    matchesGold: bool,
    date: int,
    nonComLong: int,
    nonComShort: int,
    commLong: int,
    commShort: int,
    openInterest: int)

  /** The normalised positioning record handed to the scorers. */
  datatype CotRecord = CotRecord(
    nonComLong: int,
    nonComShort: int,
    commLong: int,
    commShort: int,
    openInterest: int,
    date: int,
    chgNonComLong: int,
    chgNonComShort: int,
    chgOi: int,
    netSpec: int,
    netComm: int)

  /** The rows of the latest report date and of the date one week earlier. */
  datatype Week = Week(latest: seq<CotRow>, prior: seq<CotRow>)

  const DaysPerWeek: int := 7

  predicate Matches(row: CotRow, inst: Instrument)
  {
    match inst
    case Nasdaq => row.matchesNasdaq
    case Gold => row.matchesGold
  }

  /** The rows whose market name matches the instrument, in report order. */
  function Select(rows: seq<CotRow>, inst: Instrument): (sub: seq<CotRow>)
    ensures forall x :: x in sub <==> x in rows && Matches(x, inst)
    ensures |sub| <= |rows|
  {
    if rows == [] then []
    else (if Matches(rows[0], inst) then [rows[0]] else []) + Select(rows[1..], inst)
  }

  /** Select keeps report order: its first row is the first matching row. */
  lemma {:induction false} SelectFirst(rows: seq<CotRow>, inst: Instrument, k: int)
    requires 0 <= k < |rows| && Matches(rows[k], inst)
    requires forall j :: 0 <= j < k ==> !Matches(rows[j], inst)
    ensures Select(rows, inst) != [] && Select(rows, inst)[0] == rows[k]
  {
    if k > 0 {
      SelectFirst(rows[1..], inst, k - 1);
    }
  }

  /** The rows dated `d`, in report order. */
  function RowsOn(rows: seq<CotRow>, d: int): (on: seq<CotRow>)
    ensures forall x :: x in on <==> x in rows && x.date == d
    ensures |on| <= |rows|
  {
    if rows == [] then []
    else (if rows[0].date == d then [rows[0]] else []) + RowsOn(rows[1..], d)
  }

  /** RowsOn keeps report order: its first row is the earliest row of that date. */
  lemma {:induction false} RowsOnFirst(rows: seq<CotRow>, d: int, k: int)
    requires 0 <= k < |rows| && rows[k].date == d
    requires forall j :: 0 <= j < k ==> rows[j].date != d
    ensures RowsOn(rows, d) != [] && RowsOn(rows, d)[0] == rows[k]
  {
    if k > 0 {
      RowsOnFirst(rows[1..], d, k - 1);
    }
  }

  /** The latest report date among non-empty rows. */
  function MaxDate(rows: seq<CotRow>): (m: int)
    requires rows != []
    ensures exists i :: 0 <= i < |rows| && rows[i].date == m
    ensures forall i :: 0 <= i < |rows| ==> rows[i].date <= m
  {
    if |rows| == 1 then rows[0].date
    else
      var rest := MaxDate(rows[1..]);
      if rows[0].date >= rest then rows[0].date else rest
  }

  /** No data when nothing matched; otherwise the rows attaining the latest
      date and the rows dated exactly seven days before it. */
  function FindLatestWeek(sub: seq<CotRow>): (w: Option<Week>)
    ensures w.None? <==> sub == []
    ensures w.Some? ==> w.value.latest != []
    ensures w.Some? ==> forall x :: x in w.value.latest <==>
      x in sub && forall y :: y in sub ==> y.date <= x.date
    ensures w.Some? ==> forall x :: x in w.value.prior <==>
      x in sub && x.date == w.value.latest[0].date - DaysPerWeek
  {
    if sub == [] then None
    else
      var latest := MaxDate(sub);
      var w := Week(RowsOn(sub, latest), RowsOn(sub, latest - DaysPerWeek));
      assert w.latest != [] by {
        var i :| 0 <= i < |sub| && sub[i].date == latest;
        assert sub[i] in w.latest;
      }
      assert w.latest[0] in w.latest;
      Some(w)
  }

  /** `rec` is the record read off the current row, with week-over-week
      deltas against the prior row (all zero without one) and the two net
      positions. */
  ghost predicate Describes(rec: CotRecord, cur: CotRow, prior: Option<CotRow>)
  {
    && rec.nonComLong == cur.nonComLong
    && rec.nonComShort == cur.nonComShort
    && rec.commLong == cur.commLong
    && rec.commShort == cur.commShort
    && rec.openInterest == cur.openInterest
    && rec.date == cur.date
    && (prior.None? ==> rec.chgNonComLong == 0 && rec.chgNonComShort == 0 && rec.chgOi == 0)
    && (prior.Some? ==>
          && rec.chgNonComLong == cur.nonComLong - prior.value.nonComLong
          && rec.chgNonComShort == cur.nonComShort - prior.value.nonComShort
          && rec.chgOi == cur.openInterest - prior.value.openInterest)
    && rec.netSpec == rec.nonComLong - rec.nonComShort
    && rec.netComm == rec.commLong - rec.commShort
  }

  /** Builds the positioning record of one instrument from the report rows,
      field by field as the dictionary is filled; the first row of each
      date is the one read. */
  method ParseCot(rows: seq<CotRow>, inst: Instrument) returns (rec: Option<CotRecord>)
    ensures rec.None? <==> forall i :: 0 <= i < |rows| ==> !Matches(rows[i], inst)
    ensures rec.Some? ==>
      var w := FindLatestWeek(Select(rows, inst));
      w.Some? &&
      Describes(rec.value, w.value.latest[0],
                if w.value.prior == [] then None else Some(w.value.prior[0]))
  {
    var sub := Select(rows, inst);
    var week := FindLatestWeek(sub);
    if week.None? {
      forall i | 0 <= i < |rows| ensures !Matches(rows[i], inst) {
        assert rows[i] in rows;
      }
      return None;
    }
    assert sub[0] in rows;
    var cur := week.value.latest[0];
    var nonComLong, nonComShort := cur.nonComLong, cur.nonComShort;
    var commLong, commShort := cur.commLong, cur.commShort;
    var openInterest := cur.openInterest;
    var chgLong, chgShort, chgOi := 0, 0, 0;
    if week.value.prior != [] {
      var p := week.value.prior[0];
      chgLong := nonComLong - p.nonComLong;
      chgShort := nonComShort - p.nonComShort;
      chgOi := openInterest - p.openInterest;
    }
    var netSpec := nonComLong - nonComShort;
    var netComm := commLong - commShort;
    rec := Some(CotRecord(nonComLong, nonComShort, commLong, commShort, openInterest,
                          cur.date, chgLong, chgShort, chgOi, netSpec, netComm));
  }

  /** With a prior week, the change in net speculative position is the long
      delta minus the short delta. */
  lemma NetSpecChange(rec: CotRecord, cur: CotRow, prior: CotRow)
    requires Describes(rec, cur, Some(prior))
    ensures rec.netSpec - (prior.nonComLong - prior.nonComShort)
            == rec.chgNonComLong - rec.chgNonComShort
  {
  }

  /** Nasdaq positioning: the sign of the net speculative position (zero
      counts as bearish), strengthened by half a point when longs rose at
      least as much as shorts and weakened otherwise. */
  function ScoreCotGeneric(cot: Option<CotRecord>): (s: Score)
    ensures cot.None? ==> s == Score(0.0, NoData)
    ensures cot.Some? ==> s.rationale == Detail
    ensures cot.Some? ==> s.value in {-1.5, -0.5, 0.5, 1.5}
    ensures cot.Some? ==> (s.value > 0.0 <==> cot.value.netSpec > 0)
    ensures cot.Some? ==>
      ((s.value == 1.5 || s.value == -1.5) <==>
       ((cot.value.netSpec > 0) == (cot.value.chgNonComShort <= cot.value.chgNonComLong)))
  {
    match cot
    case None => Score(0.0, NoData)
    case Some(c) =>
      var base: real := if c.netSpec > 0 then 1.0 else -1.0;
      var adjusted := if c.chgNonComShort > c.chgNonComLong then base - 0.5 else base + 0.5;
      Score(ClampReal(adjusted, -2.0, 2.0), Detail)
  }

  /** Net speculative position above which gold positioning is strongly bullish. */
  const GoldStrongNetSpec: int := 50000

  /** Gold positioning: 1.5 above 50000 net speculative contracts, 1 for any
      other net long, -1 otherwise; then half a point up when speculative
      longs grew and half a point down when they did not. */
  function ScoreGoldCot(cot: Option<CotRecord>): (s: Score)
    ensures cot.None? ==> s == Score(0.0, NoData)
    ensures cot.Some? ==> s.rationale == Detail
    ensures cot.Some? ==> s.value in {-1.5, -0.5, 0.5, 1.0, 1.5, 2.0}
    ensures cot.Some? ==> -1.5 <= s.value <= 2.0
    ensures cot.Some? ==> (s.value > 0.0 <==> cot.value.netSpec > 0)
    ensures cot.Some? ==> (s.value in {1.0, 2.0} <==> cot.value.netSpec > GoldStrongNetSpec)
    ensures cot.Some? ==> (s.value in {-0.5, 1.5, 2.0} <==> cot.value.chgNonComLong > 0)
    ensures cot.Some? ==>
      (s.value == 2.0 <==> cot.value.netSpec > GoldStrongNetSpec && cot.value.chgNonComLong > 0)
    ensures cot.Some? ==>
      (s.value == -1.5 <==> cot.value.netSpec <= 0 && cot.value.chgNonComLong <= 0)
  {
    match cot
    case None => Score(0.0, NoData)
    case Some(c) =>
      var base: real :=
        if c.netSpec > GoldStrongNetSpec then 1.5 else if c.netSpec > 0 then 1.0 else -1.0;
      var adjusted := base + (if c.chgNonComLong > 0 then 0.5 else -0.5);
      Score(ClampReal(adjusted, -2.0, 2.0), Detail)
  }
}
