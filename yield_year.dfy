/** Yield over the year of a panel tilted by beta that turns with the sun's
    hour angle (scripts/yield_year.py), as a function of the tilt.

    For each of the 365 days and each time sample whose elevation `a` counts
    as daytime, every tilt `b` gains `max(sin(b + a), 0)`; the totals are then
    divided by `365 * n` (n time samples) and scaled by 200. The Python build
    keeps the samples with `a >= 0`, the latitude callback those with `a > 0`. */
module YieldYear {
  import opened Solar
  import Tally
  import opened DaySums

  /** The days the year sums run over, `N = 0 .. 364`. */
  const DaysPerYear: nat := 365

  /** The tilts of the plot, `arange(90)` degrees. */
  const TiltCount: nat := 90

  /** The timing column: the cosines of the hour angles of `n` clock hours
      from 0 to 24. */
  function TimingColumn(T: Trig, n: nat): (t: seq<real>)
    requires n >= 2
    ensures |t| == n
  {
    var hours := Tally.Linspace(0.0, 24.0, n);
    seq(n, i requires 0 <= i < n => T.cos(D2R(HourAngleDeg(hours[i]), T.pi)))
  }

  /** The day coefficients of `N = 0 .. 364` as the callback computes them. */
  function CallbackTable(T: Trig, latDeg: real): (cs: seq<Coefficients>)
    ensures |cs| == DaysPerYear
  {
    seq(DaysPerYear, d => DayCoefficients(T, latDeg, d))
  }

  /** The same days as the Python build computes them. */
  function PythonTable(T: Trig, latDeg: real): (cs: seq<Coefficients>)
    ensures |cs| == DaysPerYear
  {
    seq(DaysPerYear, d => PyDayCoefficients(T, latDeg, d))
  }

  /** Both builds see the same days. */
  lemma SameTables(T: Trig, latDeg: real)
    ensures PythonTable(T, latDeg) == CallbackTable(T, latDeg)
  {
    forall d | 0 <= d < DaysPerYear
      ensures PythonTable(T, latDeg)[d] == CallbackTable(T, latDeg)[d]
    {
      CoefficientForms(T, latDeg, d);
    }
  }

  /** The total for tilt `b` (radians) over the days whose coefficients are
      `cs`, one after the other. */
  function YearSum(T: Trig, b: real, t: seq<real>, m: Tally.Mask, cs: seq<Coefficients>): real
    decreases |cs|
  {
    if |cs| == 0 then 0.0
    else
      var n := |cs| - 1;
      YearSum(T, b, t, m, cs[..n]) + DaySum(T, b, cs[n], t, m, |t|)
  }

  /** One more day: the step of the loops over the days. */
  lemma YearSumStep(T: Trig, b: real, t: seq<real>, m: Tally.Mask, cs: seq<Coefficients>, day: nat)
    requires day < |cs|
    ensures YearSum(T, b, t, m, cs[..day + 1]) == YearSum(T, b, t, m, cs[..day]) + DaySum(T, b, cs[day], t, m, |t|)
  {
    assert cs[..day + 1][..day] == cs[..day];
  }

  /** The callback's scaling `s / (365 n) * 200`. */
  function Scale(s: real, n: nat): real
    requires n > 0
  {
    s / ((365 * n) as real) * 200.0
  }

  /** The Python scaling `s / (n * 365) * 2 * 100`. */
  function PyScale(s: real, n: nat): real
    requires n > 0
  {
    s / ((n * 365) as real) * 2.0 * 100.0
  }

  /** The two scalings agree, and a total between 0 and `365 n` scales into
      [0, 200]. */
  lemma ScaleForms(s: real, n: nat)
    requires n > 0
    ensures PyScale(s, n) == Scale(s, n)
    ensures 0.0 <= s <= (365 * n) as real ==> 0.0 <= Scale(s, n) <= 200.0
  {
    var d := (365 * n) as real;
    assert (n * 365) as real == d;
    assert s / d * 2.0 * 100.0 == s / d * 200.0;
    if 0.0 <= s <= d {
      assert s / d <= 1.0;
    }
  }

  /** The curve the callback draws: tilt `b` (radians) to yield in percent. */
  function CallbackYield(T: Trig, latDeg: real, b: real, t: seq<real>): real
    requires |t| > 0
  {
    Scale(YearSum(T, b, t, Tally.AboveZero, CallbackTable(T, latDeg)), |t|)
  }

  /** The curve the Python build draws. */
  function InitialYield(T: Trig, latDeg: real, b: real, t: seq<real>): real
    requires |t| > 0
  {
    PyScale(YearSum(T, b, t, Tally.AtOrAboveZero, PythonTable(T, latDeg)), |t|)
  }

  /** Every total lies between 0 and one per sample of every day. */
  lemma {:induction false} YearSumBounds(T: Trig, b: real, t: seq<real>, m: Tally.Mask, cs: seq<Coefficients>)
    requires T.Valid()
    ensures 0.0 <= YearSum(T, b, t, m, cs) <= (|cs| * |t|) as real
    decreases |cs|
  {
    if |cs| > 0 {
      var n := |cs| - 1;
      YearSumBounds(T, b, t, m, cs[..n]);
      DaySumBounds(T, b, cs[n], t, m, |t|);
      MulStep(|cs|, |t|);
    }
  }

  /** `(a - 1) n + n = a n`, kept apart from the sums. */
  lemma MulStep(a: nat, n: nat)
    requires a > 0
    ensures ((a - 1) * n) as real + n as real == (a * n) as real
  {
  }

  /** Both curves stay between 0 and 200 percent. */
  lemma YieldBounds(T: Trig, latDeg: real, b: real, t: seq<real>)
    requires T.Valid() && |t| > 0
    ensures 0.0 <= CallbackYield(T, latDeg, b, t) <= 200.0
    ensures 0.0 <= InitialYield(T, latDeg, b, t) <= 200.0
  {
    YearSumBounds(T, b, t, Tally.AboveZero, CallbackTable(T, latDeg));
    YearSumBounds(T, b, t, Tally.AtOrAboveZero, PythonTable(T, latDeg));
    ScaleForms(YearSum(T, b, t, Tally.AboveZero, CallbackTable(T, latDeg)), |t|);
    ScaleForms(YearSum(T, b, t, Tally.AtOrAboveZero, PythonTable(T, latDeg)), |t|);
  }

  /** No sample of any of the days `cs` sits exactly on the horizon. */
  predicate NoneOnHorizon(T: Trig, t: seq<real>, cs: seq<Coefficients>) {
    forall n, i :: 0 <= n < |cs| && 0 <= i < |t| ==> Elevation(T, cs[n], t[i]) != 0.0
  }

  /** The Python total is the callback's total plus what the samples exactly
      on the horizon add, which is never negative. */
  lemma {:induction false} HorizonSamples(T: Trig, b: real, t: seq<real>, cs: seq<Coefficients>)
    requires T.Valid()
    ensures YearSum(T, b, t, Tally.AtOrAboveZero, cs)
            == YearSum(T, b, t, Tally.AboveZero, cs) + YearSum(T, b, t, Tally.AtZero, cs)
    ensures YearSum(T, b, t, Tally.AtZero, cs) >= 0.0
    ensures NoneOnHorizon(T, t, cs) ==> YearSum(T, b, t, Tally.AtZero, cs) == 0.0
    decreases |cs|
  {
    YearSumBounds(T, b, t, Tally.AtZero, cs);
    if |cs| > 0 {
      var n := |cs| - 1;
      HorizonSamples(T, b, t, cs[..n]);
      DaySumMaskSplit(T, b, cs[n], t, |t|);
      if NoneOnHorizon(T, t, cs) {
        assert NoneOnHorizon(T, t, cs[..n]);
      }
    }
  }

  /** The Python curve never lies below the callback's at the same latitude,
      and the two agree when no sample sits exactly on the horizon. */
  lemma InitialAtLeastCallback(T: Trig, latDeg: real, b: real, t: seq<real>)
    requires T.Valid() && |t| > 0
    ensures InitialYield(T, latDeg, b, t) >= CallbackYield(T, latDeg, b, t)
    ensures NoneOnHorizon(T, t, CallbackTable(T, latDeg))
            ==> InitialYield(T, latDeg, b, t) == CallbackYield(T, latDeg, b, t)
  {
    var cs := CallbackTable(T, latDeg);
    SameTables(T, latDeg);
    HorizonSamples(T, b, t, cs);
    ScaleExtra(YearSum(T, b, t, Tally.AboveZero, cs), YearSum(T, b, t, Tally.AtZero, cs), |t|);
  }

  /** Adding a nonnegative amount to a total never lowers its Python
      scaling below the callback's scaling of the total alone. */
  lemma ScaleExtra(s: real, z: real, n: nat)
    requires n > 0 && z >= 0.0
    ensures PyScale(s + z, n) >= Scale(s, n)
    ensures z == 0.0 ==> PyScale(s + z, n) == Scale(s, n)
  {
    var d := (365 * n) as real;
    ScaleForms(s + z, n);
    assert s / d <= (s + z) / d;
  }

  /** The Python build's accumulation: days outer, tilts inner; then the
      scaling. `betas` are the tilts in degrees and `cs` the days'
      coefficients. Python first filters the day's elevations to `a >= 0`;
      the `AtOrAboveZero` mask of `DaySum` is that filter. */
  method PythonYields(T: Trig, cs: seq<Coefficients>, t: seq<real>, betas: seq<real>) returns (ys: seq<real>)
    requires |t| > 0
    ensures |ys| == |betas|
    ensures forall k :: 0 <= k < |betas| ==>
      ys[k] == PyScale(YearSum(T, D2R(betas[k], T.pi), t, Tally.AtOrAboveZero, cs), |t|)
  {
    var acc := seq(|betas|, k => 0.0);
    var day := 0;
    while day < |cs|
      invariant 0 <= day <= |cs| && |acc| == |betas|
      invariant forall k :: 0 <= k < |betas| ==>
        acc[k] == YearSum(T, D2R(betas[k], T.pi), t, Tally.AtOrAboveZero, cs[..day])
    {
      acc := PythonDay(T, acc, betas, cs[day], t);
      forall k | 0 <= k < |betas|
        ensures acc[k] == YearSum(T, D2R(betas[k], T.pi), t, Tally.AtOrAboveZero, cs[..day + 1])
      {
        YearSumStep(T, D2R(betas[k], T.pi), t, Tally.AtOrAboveZero, cs, day);
      }
      day := day + 1;
    }
    assert cs[..|cs|] == cs;
    ys := seq(|betas|, k requires 0 <= k < |betas| => PyScale(acc[k], |t|));
  }

  /** One day of the Python build: every tilt gains the clipped sines of
      `d2r(beta) + a` over the day's elevations `a >= 0`. */
  method PythonDay(T: Trig, acc: seq<real>, betas: seq<real>, c: Coefficients, t: seq<real>) returns (acc': seq<real>)
    requires |acc| == |betas|
    ensures |acc'| == |betas|
    ensures forall k :: 0 <= k < |betas| ==>
      acc'[k] == acc[k] + DaySum(T, D2R(betas[k], T.pi), c, t, Tally.AtOrAboveZero, |t|)
  {
    acc' := acc;
    var idx := 0;
    while idx < |betas|
      invariant 0 <= idx <= |betas| && |acc'| == |betas|
      invariant forall k :: 0 <= k < idx ==>
        acc'[k] == acc[k] + DaySum(T, D2R(betas[k], T.pi), c, t, Tally.AtOrAboveZero, |t|)
      invariant forall k :: idx <= k < |betas| ==> acc'[k] == acc[k]
    {
      acc' := acc'[idx := acc'[idx] + DaySum(T, D2R(betas[idx], T.pi), c, t, Tally.AtOrAboveZero, |t|)];
      idx := idx + 1;
    }
  }

  /** The plot's columns: `x` the tilt in degrees, `y` the yield, `xx` the
      tilt in radians; `t` is the separate timing column of hour-angle
      cosines, and the marker is the dashed maximum line. */
  class YearSource {
    var x: array<real>
    var y: array<real>
    var xx: array<real>
    var t: seq<real>
    var markerX: seq<real>
    var markerY: seq<real>

    ghost predicate Valid()
      reads this
    {
      x.Length == y.Length == xx.Length && y != x && y != xx && |t| > 0
    }

    /** The Python build: tilts 0 .. 89 degrees, `n` hours from 0 to 24. */
    constructor (T: Trig, latDeg: real, n: nat)
      requires n >= 2
      ensures Valid()
      ensures x[..] == Tally.Arange(TiltCount) && xx[..] == Radians(T, x[..])
      ensures t == TimingColumn(T, n)
      ensures forall k :: 0 <= k < y.Length ==> y[k] == InitialYield(T, latDeg, xx[k], t)
      ensures Tally.Marker(markerX, markerY) == Tally.NumpyMarker(x[..], y[..])
    {
      var cosines := TimingColumn(T, n);
      var betas := Tally.Arange(TiltCount);
      var ys := PythonYields(T, PythonTable(T, latDeg), cosines, betas);
      var radians := Radians(T, betas);
      var xs := Tally.NewColumn(betas, 0.0);
      var xxs := Tally.NewColumn(radians, 0.0);
      var yv := Tally.NewColumn(ys, 0.0);
      x, xx, y := xs, xxs, yv;
      t := cosines;
      new;
      PlaceNumpyMarker();
    }

    /** The Python build's marker: the first tilt of largest yield, and that
      yield. */
    method PlaceNumpyMarker()
      requires Valid() && x.Length > 0
      modifies this
      ensures Valid()
      ensures x == old(x) && y == old(y) && xx == old(xx) && t == old(t)
      ensures Tally.Marker(markerX, markerY) == Tally.NumpyMarker(x[..], y[..])
    {
      var mk := Tally.NumpyMarker(x[..], y[..]);
      markerX := mk.x;
      markerY := mk.y;
    }

    /** The innermost callback loop: every tilt gains `max(sin(xx[j] + a), 0)`. */
    method AddSample(T: Trig, a: real)
      requires Valid()
      modifies y
      ensures Valid()
      ensures forall j :: 0 <= j < y.Length ==> y[j] == old(y[j]) + Max0(T.sin(xx[j] + a))
    {
      var j := 0;
      while j < x.Length
        invariant 0 <= j <= x.Length
        invariant forall k :: 0 <= k < j ==> y[k] == old(y[k]) + Max0(T.sin(xx[k] + a))
        invariant forall k :: j <= k < y.Length ==> y[k] == old(y[k])
      {
        y[j] := y[j] + Max0(T.sin(xx[j] + a));
        j := j + 1;
      }
    }

    /** One day of the callback: every sample with `a > 0` feeds every tilt. */
    method AddDay(T: Trig, c: Coefficients)
      requires Valid()
      modifies y
      ensures Valid()
      ensures forall j :: 0 <= j < y.Length ==> y[j] == old(y[j]) + DaySum(T, xx[j], c, t, Tally.AboveZero, |t|)
    {
      var i := 0;
      while i < |t|
        invariant 0 <= i <= |t|
        invariant forall j :: 0 <= j < y.Length ==> y[j] == old(y[j]) + DaySum(T, xx[j], c, t, Tally.AboveZero, i)
      {
        var a := Elevation(T, c, t[i]);
        if a > 0.0 {
          AddSample(T, a);
        }
        i := i + 1;
      }
    }

    /** The callback's reset loop: every `y` back to 0. */
    method Reset()
      requires Valid()
      modifies y
      ensures Valid()
      ensures forall k :: 0 <= k < y.Length ==> y[k] == 0.0
    {
      var i := 0;
      while i < y.Length
        invariant 0 <= i <= y.Length
        invariant forall k :: 0 <= k < i ==> y[k] == 0.0
      {
        y[i] := 0.0;
        i := i + 1;
      }
    }

    /** The callback's loop over the days, from totals at 0. */
    method AddYear(T: Trig, cs: seq<Coefficients>)
      requires Valid()
      requires forall k :: 0 <= k < y.Length ==> y[k] == 0.0
      modifies y
      ensures Valid()
      ensures forall k :: 0 <= k < y.Length ==> y[k] == YearSum(T, xx[k], t, Tally.AboveZero, cs)
    {
      var day := 0;
      while day < |cs|
        invariant 0 <= day <= |cs|
        invariant forall k :: 0 <= k < y.Length ==> y[k] == YearSum(T, xx[k], t, Tally.AboveZero, cs[..day])
      {
        AddDay(T, cs[day]);
        assert cs[..day + 1][..day] == cs[..day];
        day := day + 1;
      }
      assert cs[..|cs|] == cs;
    }

    /** The callback's last loop: scale every total and scan for the first
      strictly largest yield, starting from `(0, 0)`. */
    method ScaleAndScan() returns (peak: Tally.Peak)
      requires Valid()
      modifies y
      ensures Valid()
      ensures forall k :: 0 <= k < y.Length ==> y[k] == Scale(old(y[k]), |t|)
      ensures peak == Tally.RunningMax(x[..], y[..])
    {
      var aMax, rMax := 0.0, 0.0;
      var i := 0;
      while i < y.Length
        invariant 0 <= i <= y.Length
        invariant forall k :: 0 <= k < i ==> y[k] == Scale(old(y[k]), |t|)
        invariant forall k :: i <= k < y.Length ==> y[k] == old(y[k])
        invariant Tally.Peak(aMax, rMax) == Tally.RunningMax(x[..i], y[..i])
      {
        y[i] := y[i] / ((365 * |t|) as real) * 200.0;
        assert x[..i + 1][..i] == x[..i] && y[..i + 1][..i] == y[..i];
        if y[i] > rMax {
          rMax := y[i];
          aMax := x[i];
        }
        i := i + 1;
      }
      assert x[..y.Length] == x[..] && y[..y.Length] == y[..];
      peak := Tally.Peak(aMax, rMax);
    }

    /** The latitude slider: reset `y`, accumulate the 365 days, scale, and
      move the marker to the scan's maximum. Only `y` and the marker change. */
    method OnLatitudeChange(T: Trig, latDeg: real)
      requires Valid()
      modifies this, y
      ensures Valid()
      ensures x == old(x) && y == old(y) && xx == old(xx) && t == old(t)
      ensures forall j :: 0 <= j < y.Length ==> y[j] == CallbackYield(T, latDeg, xx[j], t)
      ensures Tally.Marker(markerX, markerY) == Tally.MarkerAt(Tally.RunningMax(x[..], y[..]))
    {
      Reset();
      AddYear(T, CallbackTable(T, latDeg));
      var peak := ScaleAndScan();
      var mk := Tally.MarkerAt(peak);
      markerX := mk.x;
      markerY := mk.y;
    }
  }
}
