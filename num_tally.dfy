/** The bookkeeping of the yield curves whose samples may be NaN
    (scripts/yield_day_tot_fixed.py, scripts/yield_day.py): sentinel-aware
    addition, the callbacks' `r_max` scan, which skips a NaN because
    `NaN > r_max` is false, and numpy's `argmax`/`max`, which stop at the
    first NaN. */
module NumTally {
  import opened Solar
  import Tally

  /** Addition of samples: NaN absorbs everything, then `1/0`. */
  function Add(a: Num, b: Num): (r: Num)
    ensures r.NaN? <==> a.NaN? || b.NaN?
    ensures r.Value? <==> a.Value? && b.Value?
    ensures r.Value? ==> r.v == a.v + b.v
  {
    if a.NaN? || b.NaN? then NaN
    else if a.PosInf? || b.PosInf? then PosInf
    else Value(a.v + b.v)
  }

  /** Adding a zero changes nothing. */
  lemma AddZero(a: Num)
    ensures Add(a, Value(0.0)) == a && Add(Value(0.0), a) == a
  {
  }

  /** Sums may be regrouped and reordered. */
  lemma AddAssoc(a: Num, b: Num, c: Num)
    ensures Add(Add(a, b), c) == Add(a, Add(b, c))
  {
  }

  lemma AddSwap(a: Num, b: Num, c: Num)
    ensures Add(Add(a, b), c) == Add(Add(a, c), b)
  {
  }

  /** The numbers of a curve, with 0 standing in for a sentinel. */
  function Reals(ys: seq<Num>): (rs: seq<real>)
    ensures |rs| == |ys|
    ensures forall k :: 0 <= k < |ys| && ys[k].Value? ==> rs[k] == ys[k].v
  {
    seq(|ys|, k requires 0 <= k < |ys| => if ys[k].Value? then ys[k].v else 0.0)
  }

  predicate AllValues(ys: seq<Num>) {
    forall k :: 0 <= k < |ys| ==> ys[k].Value?
  }

  /** The callbacks' scan from `a_max = 0`, `r_max = 0`: a sample is taken
      when it is a number larger than `r_max`; a NaN never is. */
  function Scan(xs: seq<real>, ys: seq<Num>): Tally.Peak
    requires |xs| == |ys|
    decreases |ys|
  {
    if |ys| == 0 then Tally.Peak(0.0, 0.0)
    else
      var n := |ys| - 1;
      var p := Scan(xs[..n], ys[..n]);
      if ys[n].Value? && ys[n].v > p.value then Tally.Peak(xs[n], ys[n].v) else p
  }

  /** On a curve of numbers the scan is the plain running maximum. */
  lemma {:induction false} ScanOfValues(xs: seq<real>, ys: seq<Num>)
    requires |xs| == |ys| && AllValues(ys)
    ensures Scan(xs, ys) == Tally.RunningMax(xs, Reals(ys))
    decreases |ys|
  {
    if |ys| > 0 {
      var n := |ys| - 1;
      ScanOfValues(xs[..n], ys[..n]);
      assert Reals(ys[..n]) == Reals(ys)[..n];
    }
  }

  /** The index of the first NaN, or `|ys|` when there is none. */
  function FirstNaN(ys: seq<Num>): (k: nat)
    ensures k <= |ys|
    ensures k < |ys| ==> ys[k].NaN?
    ensures forall j :: 0 <= j < k ==> !ys[j].NaN?
    decreases |ys|
  {
    if |ys| == 0 then 0
    else
      var n := |ys| - 1;
      var k := FirstNaN(ys[..n]);
      assert forall j :: 0 <= j < n ==> ys[..n][j] == ys[j];
      if k < n then k else if ys[n].NaN? then n else n + 1
  }

  /** The two-point marker of a curve whose top may be NaN. */
  datatype NumMarker = NumMarker(x: seq<real>, y: seq<Num>)

  /** The Python builds' marker, `x = [b[argmax(vals)]] * 2`,
      `y = [0, max(vals)]`: numpy's `argmax` and `max` stop at the first NaN
      and otherwise take the first maximum. `Reals` reads an infinite total as
      0, where numpy would pick it; the Python-built totals are never
      infinite (`DayTotalNonnegative`). */
  function NumpyMarker(xs: seq<real>, ys: seq<Num>): (mk: NumMarker)
    requires |xs| == |ys| > 0
    ensures |mk.x| == 2 && |mk.y| == 2 && mk.x[0] == mk.x[1] && mk.y[0] == Value(0.0)
    ensures FirstNaN(ys) < |ys| ==> mk.x[0] == xs[FirstNaN(ys)] && mk.y[1] == NaN
  {
    var k := FirstNaN(ys);
    if k < |ys| then NumMarker([xs[k], xs[k]], [Value(0.0), NaN])
    else
      var j := Tally.ArgMax(Reals(ys));
      NumMarker([xs[j], xs[j]], [Value(0.0), Value(Reals(ys)[j])])
  }

  /** The callbacks' marker, `x = [a_max, a_max]`, `y = [0, r_max]`. */
  function ScanMarker(xs: seq<real>, ys: seq<Num>): (mk: NumMarker)
    requires |xs| == |ys|
  {
    var p := Scan(xs, ys);
    NumMarker([p.at, p.at], [Value(0.0), Value(p.value)])
  }

  /** On a curve of numbers the callback's marker is numpy's when the
      maximum is positive and sits at the origin otherwise. On a curve with
      a NaN, numpy's marker tops out at NaN while the callback's is a
      number. */
  lemma ScanMarkerVersusNumpy(xs: seq<real>, ys: seq<Num>)
    requires |xs| == |ys| > 0
    ensures AllValues(ys) ==>
      var top := Reals(ys)[Tally.ArgMax(Reals(ys))];
      && (top > 0.0 ==> ScanMarker(xs, ys) == NumpyMarker(xs, ys))
      && (top <= 0.0 ==> ScanMarker(xs, ys) == NumMarker([0.0, 0.0], [Value(0.0), Value(0.0)]))
    ensures FirstNaN(ys) < |ys| ==> NumpyMarker(xs, ys).y[1] == NaN && ScanMarker(xs, ys).y[1].Value?
  {
    if AllValues(ys) {
      ScanOfValues(xs, ys);
      Tally.RunningMaxIsFirstMax(xs, Reals(ys));
      assert FirstNaN(ys) == |ys|;
    }
  }

  /** The scanned value is never negative and bounds every number of the
      curve. */
  lemma {:induction false} ScanBounds(xs: seq<real>, ys: seq<Num>)
    requires |xs| == |ys|
    ensures Scan(xs, ys).value >= 0.0
    ensures forall k :: 0 <= k < |ys| && ys[k].Value? ==> ys[k].v <= Scan(xs, ys).value
    decreases |ys|
  {
    if |ys| > 0 {
      var n := |ys| - 1;
      ScanBounds(xs[..n], ys[..n]);
      assert forall k :: 0 <= k < n ==> ys[..n][k] == ys[k];
    }
  }
}
