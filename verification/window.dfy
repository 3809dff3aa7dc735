/** The rolling window of recent readings kept by the home screen: each new
    reading is appended and, once more than Capacity are held, only the
    Capacity newest are kept, oldest first. */
module Window {

  /** How many recent readings the home screen keeps. */
  const Capacity: nat := 10

  /** The smaller of two integers. */
  function Smaller(a: int, b: int): int {
    if a <= b then a else b
  }

  /** The n newest elements of s, in their original order. */
  function Last<T>(s: seq<T>, n: nat): seq<T>
    requires n <= |s|
  {
    s[|s| - n..]
  }

  /** Appends x and keeps only the Capacity newest entries. */
  function Push<T>(prev: seq<T>, x: T): (w: seq<T>)
    ensures |w| == Smaller(|prev| + 1, Capacity)
    ensures w == Last(prev + [x], |w|)
    ensures w[|w| - 1] == x
    ensures |prev| < Capacity ==> w == prev + [x]
  {
    var updated := prev + [x];
    if |updated| > Capacity then updated[|updated| - Capacity..] else updated
  }

  /** The window after pushing every element of xs, first to last. */
  function PushAll<T>(w: seq<T>, xs: seq<T>): seq<T>
    decreases |xs|
  {
    if xs == [] then w else PushAll(Push(w, xs[0]), xs[1..])
  }

  /** Taking a suffix of a, appending b and taking a shorter suffix is the same
      as taking that suffix of a + b directly. */
  lemma {:induction false} LastOfLast<T>(a: seq<T>, m: nat, b: seq<T>, k: nat)
    requires m <= |a|
    requires k <= m + |b|
    ensures Last(Last(a, m) + b, k) == Last(a + b, k)
  {
    var lhs := Last(Last(a, m) + b, k);
    var rhs := Last(a + b, k);
    assert |lhs| == k == |rhs|;
    forall i | 0 <= i < k
      ensures lhs[i] == rhs[i]
    {
      var j := |a| + |b| - k + i;
      if j < |a| {
        assert rhs[i] == a[j];
        assert lhs[i] == Last(a, m)[j - (|a| - m)];
      } else {
        assert rhs[i] == b[j - |a|];
        assert lhs[i] == b[j - |a|];
      }
    }
  }

  /** Moving the first element of xs onto the end of w leaves w + xs alone. */
  lemma SplitFirst<T>(w: seq<T>, xs: seq<T>)
    requires |xs| > 0
    ensures (w + [xs[0]]) + xs[1..] == w + xs
  {
    assert xs == [xs[0]] + xs[1..];
  }

  /** After any sequence of pushes onto a window that is within capacity, the
      window holds exactly the min(|w| + |xs|, Capacity) newest of everything
      pushed so far, in arrival order. */
  lemma {:induction false} PushAllKeepsNewest<T>(w: seq<T>, xs: seq<T>)
    requires |w| <= Capacity
    ensures |PushAll(w, xs)| == Smaller(|w| + |xs|, Capacity)
    ensures PushAll(w, xs) == Last(w + xs, Smaller(|w| + |xs|, Capacity))
    decreases |xs|
  {
    if xs == [] {
      assert w + xs == w;
    } else {
      var x, rest := xs[0], xs[1..];
      var grown := w + [x];
      var w' := Push(w, x);
      var m := Smaller(|w| + 1, Capacity);
      var k := Smaller(|w| + |xs|, Capacity);
      assert PushAll(w, xs) == PushAll(w', rest);
      assert |w'| == m && w' == Last(grown, m);
      PushAllKeepsNewest(w', rest);
      assert Smaller(m + |rest|, Capacity) == k;
      LastOfLast(grown, m, rest, k);
      SplitFirst(w, xs);
    }
  }

  /** Starting from an empty window, after n pushes the window holds the last
      min(n, Capacity) readings pushed. */
  lemma {:induction false} PushAllFromEmpty<T>(xs: seq<T>)
    ensures PushAll([], xs) == Last(xs, Smaller(|xs|, Capacity))
  {
    var empty: seq<T> := [];
    PushAllKeepsNewest(empty, xs);
    assert empty + xs == xs;
    assert |empty| + |xs| == |xs|;
  }
}
