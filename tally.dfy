/** Bookkeeping shared by the yield curves: the daylight masks, the running
    maximum scan of the callbacks and numpy's `argmax`, the two-point maximum
    marker, and numpy's sample grids. */
module Tally {

  /** Which elevations a script treats as daytime: the callbacks keep `a > 0`,
      the Python builds keep `a >= 0`; `AtZero` is what separates the two. */
  datatype Mask = AboveZero | AtOrAboveZero | AtZero

  predicate Keeps(m: Mask, a: real) {
    match m
    case AboveZero => a > 0.0
    case AtOrAboveZero => a >= 0.0
    case AtZero => a == 0.0
  }

  /** numpy's `argmax`: the first index at which the maximum is attained. */
  function ArgMax(ys: seq<real>): (k: nat)
    requires |ys| > 0
    ensures k < |ys|
    ensures forall j :: 0 <= j < |ys| ==> ys[j] <= ys[k]
    ensures forall j :: 0 <= j < k ==> ys[j] < ys[k]
    decreases |ys|
  {
    if |ys| == 1 then 0
    else
      var n := |ys| - 1;
      var k := ArgMax(ys[..n]);
      assert forall j :: 0 <= j < n ==> ys[..n][j] == ys[j];
      if ys[n] > ys[k] then n else k
  }

  /** The pair `(a_max, r_max)` a maximum scan ends with. */
  datatype Peak = Peak(at: real, value: real)

  /** The callbacks' scan: start from `a_max = 0`, `r_max = 0` and take the
      sample `i` whenever `y[i] > r_max`. */
  function RunningMax(xs: seq<real>, ys: seq<real>): Peak
    requires |xs| == |ys|
    decreases |ys|
  {
    if |ys| == 0 then Peak(0.0, 0.0)
    else
      var n := |ys| - 1;
      var p := RunningMax(xs[..n], ys[..n]);
      if ys[n] > p.value then Peak(xs[n], ys[n]) else p
  }

  /** The scan finds numpy's first maximum when that maximum is positive and
      otherwise leaves the marker at the origin. */
  lemma {:induction false} RunningMaxIsFirstMax(xs: seq<real>, ys: seq<real>)
    requires |xs| == |ys|
    ensures RunningMax(xs, ys)
            == if |ys| > 0 && ys[ArgMax(ys)] > 0.0 then Peak(xs[ArgMax(ys)], ys[ArgMax(ys)]) else Peak(0.0, 0.0)
    decreases |ys|
  {
    if |ys| > 1 {
      var n := |ys| - 1;
      RunningMaxIsFirstMax(xs[..n], ys[..n]);
      var k := ArgMax(ys[..n]);
      assert ys[..n][k] == ys[k] && xs[..n][k] == xs[k];
    }
  }

  /** Every scanned value is at most the final `r_max`, which is never
      negative. */
  lemma RunningMaxBounds(xs: seq<real>, ys: seq<real>)
    requires |xs| == |ys|
    ensures RunningMax(xs, ys).value >= 0.0
    ensures forall j :: 0 <= j < |ys| ==> ys[j] <= RunningMax(xs, ys).value
  {
    RunningMaxIsFirstMax(xs, ys);
  }

  /** The dashed maximum line: `x = [a_max, a_max]`, `y = [0, r_max]`. */
  datatype Marker = Marker(x: seq<real>, y: seq<real>)

  function MarkerAt(p: Peak): (m: Marker)
    ensures |m.x| == 2 && |m.y| == 2
    ensures m.x[0] == m.x[1] == p.at && m.y[0] == 0.0 && m.y[1] == p.value
  {
    Marker([p.at, p.at], [0.0, p.value])
  }

  /** The Python builds' marker: `x = [b[argmax(vals)]] * 2`,
      `y = [0, max(vals)]`. */
  function NumpyMarker(xs: seq<real>, ys: seq<real>): Marker
    requires |xs| == |ys| > 0
  {
    var k := ArgMax(ys);
    MarkerAt(Peak(xs[k], ys[k]))
  }

  /** The callbacks draw the same marker as the Python build exactly when the
      maximum is positive; otherwise theirs sits at `(0, 0)`. */
  lemma ScanMarkerMatchesNumpy(xs: seq<real>, ys: seq<real>)
    requires |xs| == |ys| > 0
    ensures ys[ArgMax(ys)] > 0.0 ==> MarkerAt(RunningMax(xs, ys)) == NumpyMarker(xs, ys)
    ensures ys[ArgMax(ys)] <= 0.0 ==> MarkerAt(RunningMax(xs, ys)) == Marker([0.0, 0.0], [0.0, 0.0])
  {
    RunningMaxIsFirstMax(xs, ys);
  }

  /** numpy's `arange(n)`: the integers 0 .. n-1. */
  function Arange(n: nat): (r: seq<real>)
    ensures |r| == n && forall i :: 0 <= i < n ==> r[i] == i as real
  {
    seq(n, i => i as real)
  }

  /** numpy's `linspace(lo, hi, n)`: n evenly spaced points, both ends included. */
  function Linspace(lo: real, hi: real, n: nat): seq<real>
    requires n >= 2
  {
    seq(n, i => GridPoint(lo, hi, n, i))
  }

  /** The `i`-th point of `linspace(lo, hi, n)`. */
  function GridPoint(lo: real, hi: real, n: nat, i: int): real
    requires n >= 2
  {
    lo + (i as real) * (hi - lo) / ((n - 1) as real)
  }

  /** The grid has `n` points and runs from `lo` to `hi` inclusive. */
  lemma LinspaceEnds(lo: real, hi: real, n: nat)
    requires n >= 2
    ensures |Linspace(lo, hi, n)| == n
    ensures Linspace(lo, hi, n)[0] == lo && Linspace(lo, hi, n)[n - 1] == hi
  {
    var k := (n - 1) as real;
    assert GridPoint(lo, hi, n, n - 1) == lo + k * (hi - lo) / k;
    assert k * (hi - lo) / k == hi - lo;
  }

  /** On a rising range the grid is strictly increasing. */
  lemma LinspaceIncreasing(lo: real, hi: real, n: nat)
    requires n >= 2 && lo < hi
    ensures forall i, j :: 0 <= i < j < n ==> Linspace(lo, hi, n)[i] < Linspace(lo, hi, n)[j]
  {
    forall i, j | 0 <= i < j < n ensures Linspace(lo, hi, n)[i] < Linspace(lo, hi, n)[j] {
      SpacingPositive(lo, hi, n, i, j);
    }
  }

  /** Points further along the grid lie strictly higher. */
  lemma SpacingPositive(lo: real, hi: real, n: nat, i: nat, j: nat)
    requires n >= 2 && lo < hi && i < j < n
    ensures Linspace(lo, hi, n)[i] < Linspace(lo, hi, n)[j]
  {
    assert Linspace(lo, hi, n)[i] == GridPoint(lo, hi, n, i) && Linspace(lo, hi, n)[j] == GridPoint(lo, hi, n, j);
    GridStep(lo, hi, n, i, j);
  }

  lemma GridStep(lo: real, hi: real, n: nat, i: nat, j: nat)
    requires n >= 2 && lo < hi && i < j
    ensures GridPoint(lo, hi, n, i) < GridPoint(lo, hi, n, j)
  {
    ScaledStep(i as real, j as real, hi - lo, (n - 1) as real);
  }

  lemma ScaledStep(p: real, q: real, w: real, k: real)
    requires p < q && w > 0.0 && k > 0.0
    ensures p * w / k < q * w / k
  {
    assert p * w < q * w;
  }

  /** A fresh array holding `s`, as a column is handed to the plot; `fill`
      is only the value the array starts from. */
  method NewColumn<A>(s: seq<A>, fill: A) returns (a: array<A>)
    ensures fresh(a) && a[..] == s
  {
    a := new A[|s|](_ => fill);
    var i := 0;
    while i < |s|
      invariant 0 <= i <= |s|
      invariant a[..i] == s[..i]
    {
      a[i] := s[i];
      i := i + 1;
    }
    assert a[..] == a[..|s|];
  }
}
