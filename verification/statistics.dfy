/** Summary statistics of the history screen (HistoryScreen.js,
    calculateStatistics): average, minimum and maximum of the readings'
    values, with all three zero for an empty list. Values are unrounded. */
module Statistics {

  import opened Readings

  datatype Summary = Summary(average: real, min: real, max: real)

  /** The reported values when there is nothing to summarise. */
  const Empty: Summary := Summary(0.0, 0.0, 0.0)

  /** The readings' values, in order. */
  function Values(data: seq<Reading>): (vs: seq<real>)
    ensures |vs| == |data|
    ensures forall i :: 0 <= i < |data| ==> vs[i] == data[i].value
  {
    seq(|data|, i requires 0 <= i < |data| => data[i].value)
  }

  /** Left-to-right sum starting from zero, as the reduce does. */
  function Sum(vs: seq<real>): real
    decreases |vs|
  {
    if vs == [] then 0.0 else Sum(vs[..|vs| - 1]) + vs[|vs| - 1]
  }

  /** The least value of a non-empty list. */
  function Min(vs: seq<real>): (m: real)
    requires |vs| > 0
    ensures m in vs
    ensures forall i :: 0 <= i < |vs| ==> m <= vs[i]
    decreases |vs|
  {
    if |vs| == 1 then vs[0]
    else
      var rest := Min(vs[1..]);
      assert forall i :: 1 <= i < |vs| ==> vs[i] == vs[1..][i - 1];
      if vs[0] <= rest then vs[0] else rest
  }

  /** The greatest value of a non-empty list. */
  function Max(vs: seq<real>): (m: real)
    requires |vs| > 0
    ensures m in vs
    ensures forall i :: 0 <= i < |vs| ==> vs[i] <= m
    decreases |vs|
  {
    if |vs| == 1 then vs[0]
    else
      var rest := Max(vs[1..]);
      assert forall i :: 1 <= i < |vs| ==> vs[i] == vs[1..][i - 1];
      if vs[0] >= rest then vs[0] else rest
  }

  /** A sum of n values within [lo, hi] lies within [n * lo, n * hi]. */
  lemma {:induction false} SumBetween(vs: seq<real>, lo: real, hi: real)
    requires forall i :: 0 <= i < |vs| ==> lo <= vs[i] <= hi
    ensures (|vs| as real) * lo <= Sum(vs) <= (|vs| as real) * hi
    decreases |vs|
  {
    if vs != [] {
      var init := vs[..|vs| - 1];
      assert forall i :: 0 <= i < |init| ==> init[i] == vs[i];
      SumBetween(init, lo, hi);
      assert (|vs| as real) * lo == (|init| as real) * lo + lo;
      assert (|vs| as real) * hi == (|init| as real) * hi + hi;
    }
  }

  /** Dividing a total within [n * lo, n * hi] by a positive n gives a value
      within [lo, hi]. */
  lemma QuotientBetween(total: real, n: real, lo: real, hi: real)
    requires n > 0.0
    requires n * lo <= total <= n * hi
    ensures lo <= total / n <= hi
  {
    var q := total / n;
    assert q * n == total;
    assert (q - lo) * n >= 0.0;
    assert (hi - q) * n >= 0.0;
  }

  /** The mean lies between the least and greatest value. */
  lemma MeanBetween(vs: seq<real>, lo: real, hi: real)
    requires |vs| > 0
    requires forall i :: 0 <= i < |vs| ==> lo <= vs[i] <= hi
    ensures lo <= Sum(vs) / (|vs| as real) <= hi
  {
    SumBetween(vs, lo, hi);
    QuotientBetween(Sum(vs), |vs| as real, lo, hi);
  }

  /** Average, minimum and maximum of a non-empty list of values. */
  function Summarise(vs: seq<real>): (st: Summary)
    requires |vs| > 0
    ensures st.min <= st.average <= st.max
    ensures st.min in vs && st.max in vs
    ensures forall i :: 0 <= i < |vs| ==> st.min <= vs[i] <= st.max
    ensures st.average == Sum(vs) / (|vs| as real)
  {
    var min := Min(vs);
    var max := Max(vs);
    MeanBetween(vs, min, max);
    Summary(Sum(vs) / (|vs| as real), min, max)
  }

  /** calculateStatistics, before rounding. */
  function Calculate(data: seq<Reading>): (st: Summary)
    ensures |data| == 0 ==> st == Empty
    ensures |data| > 0 ==>
      && st.min <= st.average <= st.max
      && st.min in Values(data)
      && st.max in Values(data)
      && (forall i :: 0 <= i < |data| ==> st.min <= data[i].value <= st.max)
      && st.average == Sum(Values(data)) / (|data| as real)
  {
    if |data| == 0 then Empty else Summarise(Values(data))
  }

  /** A worked case: 19.0, 20.0 and 21.0 average to 20.0. */
  lemma ThreeReadings()
    ensures Calculate([Reading(1, 19.0), Reading(2, 20.0), Reading(3, 21.0)])
            == Summary(20.0, 19.0, 21.0)
  {
    var data := [Reading(1, 19.0), Reading(2, 20.0), Reading(3, 21.0)];
    var vs := Values(data);
    assert vs == [19.0, 20.0, 21.0];
    assert vs[..2] == [19.0, 20.0];
    assert vs[..2][..1] == [19.0];
    assert [19.0][..0] == [];
    assert Sum([19.0]) == 19.0;
    assert Sum([19.0, 20.0]) == 39.0;
    assert Sum(vs) == 60.0;
    assert vs[1..] == [20.0, 21.0];
    assert vs[1..][1..] == [21.0];
  }
}
