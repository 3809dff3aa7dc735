/** The history screen's range filter (HistoryScreen.js, filterDataByRange):
    a named range maps to a lookback, and a reading is kept when its time lies
    strictly between now minus the lookback and now. Times are milliseconds. */
module RangeFilter {

  import opened Readings

  /** The three range labels, and any label other than those three, which
      takes the default branch. */
  datatype Range = Hour | Day | Week | Other

  const HourMs: nat := 3_600_000
  const DayMs: nat := 24 * HourMs
  const WeekMs: nat := 7 * DayMs

  /** How far back each range looks. */
  function Lookback(range: Range): (ms: nat)
    ensures HourMs <= ms <= WeekMs
    ensures range.Day? <==> ms == DayMs
    ensures range.Week? <==> ms == WeekMs
    ensures range.Hour? || range.Other? <==> ms == HourMs
  {
    match range
    case Hour => HourMs
    case Day => DayMs
    case Week => WeekMs
    case Other => HourMs
  }

  /** Both bounds of the window are exclusive. */
  predicate InWindow(r: Reading, cutoff: int, now: int) {
    cutoff < r.timestamp < now
  }

  /** a can be obtained from b by deleting elements. */
  predicate SubsequenceOf<T(==)>(a: seq<T>, b: seq<T>)
    decreases |b|
  {
    if a == [] then true
    else if b == [] then false
    else (a[0] == b[0] && SubsequenceOf(a[1..], b[1..])) || SubsequenceOf(a, b[1..])
  }

  /** A subsequence is never longer than the sequence it is taken from. */
  lemma {:induction false} SubsequenceShorter<T>(a: seq<T>, b: seq<T>)
    requires SubsequenceOf(a, b)
    ensures |a| <= |b|
    decreases |b|
  {
    if a != [] {
      if a[0] == b[0] && SubsequenceOf(a[1..], b[1..]) {
        SubsequenceShorter(a[1..], b[1..]);
      } else {
        SubsequenceShorter(a, b[1..]);
      }
    }
  }

  /** The readings of xs inside (cutoff, now), in their original order. */
  function Keep(xs: seq<Reading>, cutoff: int, now: int): (ys: seq<Reading>)
    ensures SubsequenceOf(ys, xs)
    ensures forall i :: 0 <= i < |ys| ==> cutoff < ys[i].timestamp < now
    ensures forall i :: 0 <= i < |xs| && cutoff < xs[i].timestamp < now ==> xs[i] in ys
    decreases |xs|
  {
    if xs == [] then []
    else
      var rest := Keep(xs[1..], cutoff, now);
      assert forall i :: 1 <= i < |xs| ==> xs[i] == xs[1..][i - 1];
      if InWindow(xs[0], cutoff, now) then
        assert ([xs[0]] + rest)[1..] == rest;
        [xs[0]] + rest
      else rest
  }

  /** Each reading occurs in the filter's result exactly as often as in its
      input when it lies in the window, and not at all otherwise. */
  lemma {:induction false} KeepCounts(xs: seq<Reading>, cutoff: int, now: int)
    ensures forall r ::
              multiset(Keep(xs, cutoff, now))[r] == (if InWindow(r, cutoff, now) then multiset(xs)[r] else 0)
    decreases |xs|
  {
    if xs != [] {
      KeepCounts(xs[1..], cutoff, now);
      assert xs == [xs[0]] + xs[1..];
      assert multiset(xs) == multiset([xs[0]]) + multiset(xs[1..]);
    }
  }

  /** filterDataByRange with the clock read once, as `now`: the readings kept
      are exactly those strictly inside (now - lookback, now), every copy of
      them, in input order. */
  function FilterByRange(xs: seq<Reading>, range: Range, now: int): (ys: seq<Reading>)
    ensures SubsequenceOf(ys, xs)
    ensures forall i :: 0 <= i < |ys| ==> now - Lookback(range) < ys[i].timestamp < now
    ensures forall r ::
              multiset(ys)[r] == (if now - Lookback(range) < r.timestamp < now then multiset(xs)[r] else 0)
  {
    KeepCounts(xs, now - Lookback(range), now);
    Keep(xs, now - Lookback(range), now)
  }

  /** Filtering twice keeps the same readings as filtering once. */
  lemma {:induction false} KeepIdempotent(xs: seq<Reading>, cutoff: int, now: int)
    ensures Keep(Keep(xs, cutoff, now), cutoff, now) == Keep(xs, cutoff, now)
    decreases |xs|
  {
    if xs != [] {
      KeepIdempotent(xs[1..], cutoff, now);
      var rest := Keep(xs[1..], cutoff, now);
      if InWindow(xs[0], cutoff, now) {
        assert ([xs[0]] + rest)[1..] == rest;
      }
    }
  }

  /** The filter works reading by reading: filtering a concatenation is the
      concatenation of the filtered parts. */
  lemma {:induction false} KeepConcat(a: seq<Reading>, b: seq<Reading>, cutoff: int, now: int)
    ensures Keep(a + b, cutoff, now) == Keep(a, cutoff, now) + Keep(b, cutoff, now)
    decreases |a|
  {
    if a == [] {
      assert a + b == b;
    } else {
      assert (a + b)[0] == a[0];
      assert (a + b)[1..] == a[1..] + b;
      KeepConcat(a[1..], b, cutoff, now);
    }
  }

  /** Every reading is kept exactly when it lies in the window: the filter
      returns its input unchanged iff all of it is in the window. */
  lemma {:induction false} KeepAllIff(xs: seq<Reading>, cutoff: int, now: int)
    ensures Keep(xs, cutoff, now) == xs <==> forall i :: 0 <= i < |xs| ==> InWindow(xs[i], cutoff, now)
    decreases |xs|
  {
    if xs != [] {
      KeepAllIff(xs[1..], cutoff, now);
      var rest := Keep(xs[1..], cutoff, now);
      assert forall i :: 1 <= i < |xs| ==> xs[i] == xs[1..][i - 1];
      if !InWindow(xs[0], cutoff, now) {
        SubsequenceShorter(rest, xs[1..]);
      } else {
        assert xs == [xs[0]] + xs[1..];
      }
    }
  }

  /** A wider window keeps everything a narrower one keeps. */
  lemma {:induction false} WiderKeepsMore(xs: seq<Reading>, wide: int, narrow: int, now: int)
    requires wide <= narrow
    ensures SubsequenceOf(Keep(xs, narrow, now), Keep(xs, wide, now))
    decreases |xs|
  {
    if xs != [] {
      WiderKeepsMore(xs[1..], wide, narrow, now);
      var n := Keep(xs[1..], narrow, now);
      var w := Keep(xs[1..], wide, now);
      if InWindow(xs[0], narrow, now) {
        assert ([xs[0]] + n)[1..] == n;
        assert ([xs[0]] + w)[1..] == w;
      } else if InWindow(xs[0], wide, now) {
        assert ([xs[0]] + w)[1..] == w;
        SubsequenceOfSkip(n, xs[0], w);
      }
    }
  }

  /** A subsequence of b is also one of x + b. */
  lemma SubsequenceOfSkip<T>(a: seq<T>, x: T, b: seq<T>)
    requires SubsequenceOf(a, b)
    ensures SubsequenceOf(a, [x] + b)
  {
    assert ([x] + b)[1..] == b;
  }

  /** The ranges nest: the last hour's readings are among the last day's,
      and those among the last week's. */
  lemma RangesNest(xs: seq<Reading>, now: int)
    ensures SubsequenceOf(FilterByRange(xs, Hour, now), FilterByRange(xs, Day, now))
    ensures SubsequenceOf(FilterByRange(xs, Day, now), FilterByRange(xs, Week, now))
  {
    WiderKeepsMore(xs, now - DayMs, now - HourMs, now);
    WiderKeepsMore(xs, now - WeekMs, now - DayMs, now);
  }
}
