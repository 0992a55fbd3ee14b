/** The macro-calendar scorer: impact-weighted surprises of the events in a
    three-day window around an explicit evaluation time. */
module Macro {
  import opened Common

  const SecondsPerDay: int := 86400
  const WindowDays: int := 3

  /** The calendar's impact tag; anything other than the three known tags
      (or no tag) is `Unrated`. */
  datatype Impact = High | Medium | Low | Unrated

  /** The event's date field: absent or empty, present but not in the
      `%Y-%m-%dT%H:%M:%S` form, or a timestamp in seconds. */
  datatype DateField = Missing | Malformed | Stamp(seconds: int)

  /** The event's surprise field: absent or empty, present but not a
      number, or a number. */
  datatype SurpriseField = Blank | NonNumeric | Numeric(v: real)

  datatype MacroEvent = MacroEvent(date: DateField, impact: Impact, surprise: SurpriseField)

  /** High = 2, Medium = 1, Low and unrated = 0. */
  function ImpactWeight(i: Impact): (w: real)
    ensures 0.0 <= w <= 2.0
  {
    match i
    case High => 2.0
    case Medium => 1.0
    case Low => 0.0
    case Unrated => 0.0
  }

  /** The window is closed at both ends. */
  predicate InWindow(t: int, now: int)
  {
    now - WindowDays * SecondsPerDay <= t <= now + WindowDays * SecondsPerDay
  }

  /** The events the scorer passes over: no usable date, outside the
      window, or a surprise that is not a number. */
  predicate Skipped(e: MacroEvent, now: int)
  {
    || !e.date.Stamp?
    || !InWindow(e.date.seconds, now)
    || e.surprise.NonNumeric?
  }

  /** What one event adds to the running score. */
  function Contribution(e: MacroEvent, now: int): (c: real)
    ensures Skipped(e, now) ==> c == 0.0
    ensures !Skipped(e, now) && e.surprise.Blank? ==> c == -(ImpactWeight(e.impact) * 0.5)
    ensures !Skipped(e, now) && e.surprise.Numeric? ==>
      c == (if e.surprise.v > 0.0 then ImpactWeight(e.impact) else -ImpactWeight(e.impact))
    ensures -2.0 <= c <= 2.0
  {
    match e.date
    case Missing => 0.0
    case Malformed => 0.0
    case Stamp(t) =>
      if t < now - WindowDays * SecondsPerDay || t > now + WindowDays * SecondsPerDay then 0.0
      else
        var impact := ImpactWeight(e.impact);
        match e.surprise
        case Numeric(v) => if v > 0.0 then impact else -impact
        case NonNumeric => 0.0
        case Blank => -(impact * 0.5)
  }

  /** The unclamped sum of the contributions, accumulated front to back. */
  function MacroRaw(events: seq<MacroEvent>, now: int): (r: real)
    ensures -2.0 * |events| as real <= r <= 2.0 * |events| as real
  {
    if events == [] then 0.0
    else MacroRaw(events[..|events| - 1], now) + Contribution(events[|events| - 1], now)
  }

  /** The macro score: the sum clamped to [-3, 3]. */
  function MacroScore(events: seq<MacroEvent>, now: int): (r: real)
    ensures -3.0 <= r <= 3.0
    ensures -3.0 <= MacroRaw(events, now) <= 3.0 ==> r == MacroRaw(events, now)
  {
    ClampReal(MacroRaw(events, now), -3.0, 3.0)
  }

  /** Walks the calendar once, passing over unusable events. */
  method ScoreMacro(events: seq<MacroEvent>, now: int) returns (s: Score)
    ensures s.value == MacroScore(events, now)
    ensures -3.0 <= s.value <= 3.0
    ensures s.rationale == Detail
  {
    var start := now - WindowDays * SecondsPerDay;
    var end := now + WindowDays * SecondsPerDay;
    var score := 0.0;
    for i := 0 to |events|
      invariant score == MacroRaw(events[..i], now)
    {
      assert events[..i + 1][..i] == events[..i];
      var e := events[i];
      if !e.date.Stamp? {
        continue;
      }
      var dt := e.date.seconds;
      if dt < start || dt > end {
        continue;
      }
      var impact := ImpactWeight(e.impact);
      match e.surprise {
        case Numeric(sv) =>
          score := score + (if sv > 0.0 then impact else -impact);
        case NonNumeric =>
        case Blank =>
          score := score - impact * 0.5;
      }
    }
    assert events[..|events|] == events;
    score := ClampReal(score, -3.0, 3.0);
    s := Score(score, Detail);
  }

  /** The sum over a concatenation is the sum of the sums. */
  lemma {:induction false} MacroRawAppend(a: seq<MacroEvent>, b: seq<MacroEvent>, now: int)
    ensures MacroRaw(a + b, now) == MacroRaw(a, now) + MacroRaw(b, now)
  {
    if b == [] {
      assert a + b == a;
    } else {
      var n := |b| - 1;
      assert (a + b)[..|a + b| - 1] == a + b[..n];
      assert (a + b)[|a + b| - 1] == b[n];
      MacroRawAppend(a, b[..n], now);
    }
  }

  /** An event the scorer passes over can be inserted anywhere without
      changing the score. */
  lemma SkippedEventIgnored(a: seq<MacroEvent>, e: MacroEvent, b: seq<MacroEvent>, now: int)
    requires Skipped(e, now)
    ensures MacroScore(a + [e] + b, now) == MacroScore(a + b, now)
  {
    MacroRawAppend(a + [e], b, now);
    MacroRawAppend(a, [e], now);
    MacroRawAppend(a, b, now);
    assert MacroRaw([e], now) == MacroRaw([], now) + Contribution(e, now) by {
      assert [e][..0] == [];
    }
  }

  /** The score does not depend on the order in which the calendar lists
      its events. */
  lemma {:induction false} MacroRawPermutation(a: seq<MacroEvent>, b: seq<MacroEvent>, now: int)
    requires multiset(a) == multiset(b)
    ensures MacroRaw(a, now) == MacroRaw(b, now)
    decreases |a|
  {
    if a == [] {
      assert |b| == |multiset(b)| == 0;
    } else {
      var n := |a| - 1;
      var x := a[n];
      assert a == a[..n] + [x];
      assert x in multiset(b) by {
        assert x in multiset(a);
      }
      var j :| 0 <= j < |b| && b[j] == x;
      var rest := b[..j] + b[j + 1..];
      assert b == b[..j] + [x] + b[j + 1..];
      assert multiset(a[..n]) == multiset(rest) by {
        assert multiset(a) == multiset(a[..n]) + multiset{x};
        assert multiset(b) == multiset(b[..j]) + multiset{x} + multiset(b[j + 1..]);
        assert multiset(rest) == multiset(b[..j]) + multiset(b[j + 1..]);
        assert multiset(a[..n]) == multiset(a) - multiset{x};
        assert multiset(rest) == multiset(b) - multiset{x};
      }
      MacroRawPermutation(a[..n], rest, now);
      MacroRawAppend(b[..j] + [x], b[j + 1..], now);
      MacroRawAppend(b[..j], [x], now);
      MacroRawAppend(b[..j], b[j + 1..], now);
      MacroRawAppend(a[..n], [x], now);
      assert [x][..0] == [];
    }
  }

  /** One in-window High event: pending costs exactly 1, a positive surprise
      adds 2, and a zero or negative surprise subtracts 2. */
  lemma SingleHighEvent(t: int, now: int, surprise: SurpriseField)
    requires InWindow(t, now)
    ensures surprise.Blank? ==> MacroScore([MacroEvent(Stamp(t), High, surprise)], now) == -1.0
    ensures surprise.Numeric? && surprise.v > 0.0 ==>
      MacroScore([MacroEvent(Stamp(t), High, surprise)], now) == 2.0
    ensures surprise.Numeric? && surprise.v <= 0.0 ==>
      MacroScore([MacroEvent(Stamp(t), High, surprise)], now) == -2.0
    ensures surprise.NonNumeric? ==>
      MacroScore([MacroEvent(Stamp(t), High, surprise)], now) == 0.0
  {
  }

  /** Two positive High surprises sum to 4 but score the clamped 3. */
  lemma TwoHighSurprisesClamp(t: int, now: int)
    requires InWindow(t, now)
    ensures MacroScore([MacroEvent(Stamp(t), High, Numeric(1.0)),
                        MacroEvent(Stamp(t), High, Numeric(1.0))], now) == 3.0
  {
    var e := MacroEvent(Stamp(t), High, Numeric(1.0));
    assert Contribution(e, now) == 2.0;
    assert [e, e][..1] == [e];
    assert [e][..0] == [];
    assert MacroRaw([e], now) == 2.0;
    assert MacroRaw([e, e], now) == 4.0;
  }
}
