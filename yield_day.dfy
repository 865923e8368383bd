/** Relative yield over one day of a panel turned to follow the sun in
    azimuth, as a function of its tilt (scripts/yield_day.py).

    For a tilt `b` (radians) a daytime sample of elevation `a` contributes
    `sin(b + a)`. The Python build keeps `a >= 0`, clips each contribution
    at 0 and takes the mean, which is NaN on a day without daytime samples.
    The callback keeps `a > 0`, does not clip, and divides by one more than
    the number of daytime samples: its counter starts at 1. */
module YieldDay {
  import opened Solar
  import Tally
  import opened DaySums
  import NumTally

  /** The tilts `np.arange(90)`. */
  const TiltCount: nat := 90

  /** The time samples, `np.linspace(0, 24, 200)`. */
  const HourCount: nat := 200

  /** `cos` of every hour angle: the callback takes `Math.cos(t[j])` and the
      Python build `np.cos(hra)`. */
  function Cosines(T: Trig, hra: seq<real>): (cs: seq<real>)
    ensures |cs| == |hra| && forall j :: 0 <= j < |hra| ==> cs[j] == T.cos(hra[j])
  {
    seq(|hra|, j requires 0 <= j < |hra| => T.cos(hra[j]))
  }

  /** The Python value of a tilt of `betaDeg` degrees on the day with
      coefficients `c`: `100` times the mean of the clipped sines over the
      samples with `alpha >= 0`, NaN when there are none. */
  function PythonMean(T: Trig, c: Coefficients, betaDeg: real, cs: seq<real>): Num {
    var n := DayCount(T, c, cs, Tally.AtOrAboveZero, |cs|);
    if n == 0 then NaN
    else Value(100.0 * (DaySum(T, D2R(betaDeg, T.pi), c, cs, Tally.AtOrAboveZero, |cs|) / (n as real)))
  }

  /** The Python build's value at its slider values. */
  function InitialValue(T: Trig, latDeg: real, day: int, betaDeg: real, hra: seq<real>): Num {
    PythonMean(T, PyDayCoefficients(T, latDeg, day), betaDeg, Cosines(T, hra))
  }

  /** The callback's value of a tilt of `b` radians: `100 s / c` where `s`
      sums `sin(b + ax)` over the samples with `ax > 0` and `c` counts them
      from 1. */
  function CallbackMean(T: Trig, c: Coefficients, b: real, cs: seq<real>): real {
    100.0 * RawSum(T, b, c, cs, Tally.AboveZero, |cs|) / ((DayCount(T, c, cs, Tally.AboveZero, |cs|) + 1) as real)
  }

  /** The callback's value for the sliders `latDeg`, `day`. */
  function CallbackValue(T: Trig, latDeg: real, day: int, b: real, hra: seq<real>): real {
    CallbackMean(T, DayCoefficients(T, latDeg, day), b, Cosines(T, hra))
  }

  /** The Python value is NaN exactly on a day whose samples all lie below
      the horizon, and is otherwise a percentage in [0, 100]. */
  lemma PythonMeanRange(T: Trig, c: Coefficients, betaDeg: real, cs: seq<real>)
    requires T.Valid()
    ensures PythonMean(T, c, betaDeg, cs).NaN? <==> forall j :: 0 <= j < |cs| ==> Elevation(T, c, cs[j]) < 0.0
    ensures PythonMean(T, c, betaDeg, cs).Value? ==> 0.0 <= PythonMean(T, c, betaDeg, cs).v <= 100.0
  {
    var n := DayCount(T, c, cs, Tally.AtOrAboveZero, |cs|);
    DayCountZero(T, c, cs, Tally.AtOrAboveZero, |cs|);
    if n > 0 {
      var s := DaySum(T, D2R(betaDeg, T.pi), c, cs, Tally.AtOrAboveZero, |cs|);
      DaySumBounds(T, D2R(betaDeg, T.pi), c, cs, Tally.AtOrAboveZero, |cs|);
      MeanInUnit(s, n);
    }
  }

  lemma MeanInUnit(s: real, n: nat)
    requires n > 0 && 0.0 <= s <= n as real
    ensures 0.0 <= 100.0 * (s / (n as real)) <= 100.0
  {
    assert s / (n as real) <= 1.0;
  }

  /** The callback's divisor is never zero, and its value stays strictly
      between -100 and 100. */
  lemma CallbackMeanRange(T: Trig, c: Coefficients, b: real, cs: seq<real>)
    requires T.Valid()
    ensures -100.0 < CallbackMean(T, c, b, cs) < 100.0
  {
    var n := DayCount(T, c, cs, Tally.AboveZero, |cs|);
    RawSumBounds(T, b, c, cs, Tally.AboveZero, |cs|);
    ShiftedMeanInRange(RawSum(T, b, c, cs, Tally.AboveZero, |cs|), n);
  }

  lemma ShiftedMeanInRange(s: real, n: nat)
    requires -(n as real) <= s <= n as real
    ensures -100.0 < 100.0 * s / ((n + 1) as real) < 100.0
  {
    var d := (n + 1) as real;
    assert 100.0 * s / d == 100.0 * (s / d);
    QuotientInUnit(s, d);
  }

  /** `-d < s < d` with `d > 0` puts `s / d` strictly inside (-1, 1). */
  lemma QuotientInUnit(s: real, d: real)
    requires d > 0.0 && -d < s < d
    ensures -1.0 < s / d < 1.0
  {
    var q := s / d;
    assert q * d == s;
    assert (1.0 - q) * d == d - s && (q + 1.0) * d == s + d;
    PositiveFactor(1.0 - q, d);
    PositiveFactor(q + 1.0, d);
  }

  /** A product with a positive factor is positive only if the other factor
      is. */
  lemma PositiveFactor(a: real, d: real)
    requires d > 0.0 && a * d > 0.0
    ensures a > 0.0
  {
  }

  /** At the slider values the Python build used and with no sample exactly
      on the horizon, the callback's value never exceeds the Python mean: it
      adds the unclipped sines and divides by one more sample. */
  lemma CallbackAtMostInitial(T: Trig, latDeg: real, day: int, betaDeg: real, hra: seq<real>)
    requires T.Valid()
    requires NoneOnHorizonUpTo(T, DayCoefficients(T, latDeg, day), Cosines(T, hra), |hra|)
    requires InitialValue(T, latDeg, day, betaDeg, hra).Value?
    ensures CallbackValue(T, latDeg, day, D2R(betaDeg, T.pi), hra) <= InitialValue(T, latDeg, day, betaDeg, hra).v
  {
    var c := DayCoefficients(T, latDeg, day);
    var cs := Cosines(T, hra);
    var b := D2R(betaDeg, T.pi);
    CoefficientForms(T, latDeg, day);
    AboveAtMostAtOrAbove(T, b, c, cs);
    MeanShrinks(RawSum(T, b, c, cs, Tally.AboveZero, |cs|), DaySum(T, b, c, cs, Tally.AtOrAboveZero, |cs|),
      DayCount(T, c, cs, Tally.AtOrAboveZero, |cs|));
  }

  /** `s / (n + 1) <= S / n` when `s <= S` and `S >= 0`. */
  lemma MeanShrinks(s: real, s': real, n: nat)
    requires n > 0 && s <= s' && 0.0 <= s'
    ensures 100.0 * s / ((n + 1) as real) <= 100.0 * (s' / (n as real))
  {
    var d := n as real;
    assert s / (d + 1.0) <= s' / (d + 1.0);
    assert s' / (d + 1.0) <= s' / d by {
      assert s' * d <= s' * (d + 1.0);
    }
    assert 100.0 * s / (d + 1.0) == 100.0 * (s / (d + 1.0));
  }

  /** On a polar night (no sample at or above the horizon) the Python value
      is NaN while the callback shows 0. */
  lemma PolarNight(T: Trig, latDeg: real, day: int, betaDeg: real, hra: seq<real>)
    requires T.Valid()
    requires forall j :: 0 <= j < |hra| ==> Elevation(T, DayCoefficients(T, latDeg, day), T.cos(hra[j])) < 0.0
    ensures InitialValue(T, latDeg, day, betaDeg, hra) == NaN
    ensures CallbackValue(T, latDeg, day, D2R(betaDeg, T.pi), hra) == 0.0
  {
    var c := DayCoefficients(T, latDeg, day);
    var cs := Cosines(T, hra);
    var b := D2R(betaDeg, T.pi);
    CoefficientForms(T, latDeg, day);
    DayCountZero(T, c, cs, Tally.AtOrAboveZero, |cs|);
    DayCountZero(T, c, cs, Tally.AboveZero, |cs|);
    RawSumBounds(T, b, c, cs, Tally.AboveZero, |cs|);
  }

  /** The Python loop over the tilts (degrees): `angles` is filtered once,
      then one mean is appended per tilt. */
  method PythonValues(T: Trig, latDeg: real, day: int, hra: seq<real>, betas: seq<real>) returns (vals: seq<Num>)
    ensures |vals| == |betas|
    ensures forall k :: 0 <= k < |betas| ==> vals[k] == InitialValue(T, latDeg, day, betas[k], hra)
  {
    var c := PyDayCoefficients(T, latDeg, day);
    var cs := Cosines(T, hra);
    vals := [];
    var k := 0;
    while k < |betas|
      invariant 0 <= k <= |betas| && |vals| == k
      invariant forall j :: 0 <= j < k ==> vals[j] == InitialValue(T, latDeg, day, betas[j], hra)
    {
      vals := vals + [PythonMean(T, c, betas[k], cs)];
      k := k + 1;
    }
  }

  /** The callback's inner loop for a tilt of `b` radians: `s` gains
      `sin(b + ax)` and `count` one at every sample with `ax > 0`, `count`
      starting from 1. */
  method DayLoop(T: Trig, c: Coefficients, b: real, hra: seq<real>) returns (s: real, count: nat)
    ensures s == RawSum(T, b, c, Cosines(T, hra), Tally.AboveZero, |hra|)
    ensures count == DayCount(T, c, Cosines(T, hra), Tally.AboveZero, |hra|) + 1
  {
    s, count := 0.0, 1;
    var j := 0;
    while j < |hra|
      invariant 0 <= j <= |hra|
      invariant s == RawSum(T, b, c, Cosines(T, hra), Tally.AboveZero, j)
      invariant count == DayCount(T, c, Cosines(T, hra), Tally.AboveZero, j) + 1
    {
      s, count := DayStep(T, c, b, hra, j, s, count);
      j := j + 1;
    }
  }

  /** The body of the inner loop at sample `j`: when `ax > 0`, add
      `sin(b + ax)` and count the sample; the sum and count of the first
      `j` samples become those of the first `j + 1`. */
  method DayStep(T: Trig, c: Coefficients, b: real, hra: seq<real>, j: nat, s: real, count: nat)
    returns (s': real, count': nat)
    requires j < |hra|
    requires s == RawSum(T, b, c, Cosines(T, hra), Tally.AboveZero, j)
    requires count == DayCount(T, c, Cosines(T, hra), Tally.AboveZero, j) + 1
    ensures s' == RawSum(T, b, c, Cosines(T, hra), Tally.AboveZero, j + 1)
    ensures count' == DayCount(T, c, Cosines(T, hra), Tally.AboveZero, j + 1) + 1
  {
    var ax := Elevation(T, c, T.cos(hra[j]));
    var a := T.sin(b + ax);
    s', count' := s, count;
    if ax > 0.0 {
      s' := s + a;
      count' := count + 1;
    }
  }

  /** One step of the callback's outer loop: the inner loop, then
      `100 s / c`. */
  method CallbackTilt(T: Trig, c: Coefficients, b: real, hra: seq<real>) returns (v: real)
    ensures v == CallbackMean(T, c, b, Cosines(T, hra))
  {
    var s, count := DayLoop(T, c, b, hra);
    v := 100.0 * s / (count as real);
  }

  /** The plot's columns: `x` the tilt in degrees, `y` the value, `xx` the
      tilt in radians; `t` is the separate column of hour angles and the
      marker the dashed maximum line. */
  class DaySource {
    var x: array<real>
    var y: array<Num>
    var xx: array<real>
    var t: seq<real>
    var markerX: seq<real>
    var markerY: seq<Num>

    ghost predicate Valid()
      reads this
    {
      x.Length == y.Length == xx.Length
    }

    /** The Python build: tilts 0 .. 89 degrees, `HourCount` hours from 0
        to 24. */
    constructor (T: Trig, latDeg: real, day: int)
      ensures Valid()
      ensures x[..] == Tally.Arange(TiltCount) && xx[..] == Radians(T, x[..])
      ensures t == HourAngles(T, Tally.Linspace(0.0, 24.0, HourCount))
      ensures forall k :: 0 <= k < y.Length ==> y[k] == InitialValue(T, latDeg, day, x[k], t)
      ensures NumTally.NumMarker(markerX, markerY) == NumTally.NumpyMarker(x[..], y[..])
    {
      var hra := HourAngles(T, Tally.Linspace(0.0, 24.0, HourCount));
      var betas := Tally.Arange(TiltCount);
      var vals := PythonValues(T, latDeg, day, hra, betas);
      var xs := Tally.NewColumn(betas, 0.0);
      var xxs := Tally.NewColumn(Radians(T, betas), 0.0);
      var ys := Tally.NewColumn(vals, NaN);
      x, y, xx, t := xs, ys, xxs, hra;
      new;
      PlaceNumpyMarker();
    }

    /** The Python build's marker: numpy's `argmax` and `max` of the
        values. */
    method PlaceNumpyMarker()
      requires Valid() && x.Length > 0
      modifies this
      ensures Valid()
      ensures x == old(x) && y == old(y) && xx == old(xx) && t == old(t)
      ensures NumTally.NumMarker(markerX, markerY) == NumTally.NumpyMarker(x[..], y[..])
    {
      var mk := NumTally.NumpyMarker(x[..], y[..]);
      markerX := mk.x;
      markerY := mk.y;
    }

    /** The callback's loop over the tilts: every `y[i]` becomes the
        callback's value for the tilt `xx[i]`, and the scan tracks the first
        largest. */
    method Recompute(T: Trig, c: Coefficients) returns (peak: Tally.Peak)
      requires Valid()
      modifies y
      ensures Valid()
      ensures forall i :: 0 <= i < y.Length ==> y[i] == Value(CallbackMean(T, c, xx[i], Cosines(T, t)))
      ensures peak == NumTally.Scan(x[..], y[..])
    {
      var aMax, rMax := 0.0, 0.0;
      var i := 0;
      while i < x.Length
        invariant 0 <= i <= x.Length
        invariant forall k :: 0 <= k < i ==> y[k] == Value(CallbackMean(T, c, xx[k], Cosines(T, t)))
        invariant Tally.Peak(aMax, rMax) == NumTally.Scan(x[..i], y[..i])
      {
        var v := CallbackTilt(T, c, xx[i], t);
        y[i] := Value(v);
        assert x[..i + 1][..i] == x[..i] && y[..i + 1][..i] == y[..i];
        if y[i].v > rMax {
          rMax := y[i].v;
          aMax := x[i];
        }
        i := i + 1;
      }
      assert x[..x.Length] == x[..] && y[..x.Length] == y[..];
      peak := Tally.Peak(aMax, rMax);
    }

    /** Either slider: recompute every value, then move the marker to the
        scan's maximum. Only `y` and the marker change, and afterwards no
        value is NaN. */
    method OnSliderChange(T: Trig, latDeg: real, day: int)
      requires Valid()
      modifies this, y
      ensures Valid()
      ensures x == old(x) && y == old(y) && xx == old(xx) && t == old(t)
      ensures forall i :: 0 <= i < y.Length ==> y[i] == Value(CallbackValue(T, latDeg, day, xx[i], t))
      ensures NumTally.AllValues(y[..])
      ensures NumTally.NumMarker(markerX, markerY) == NumTally.ScanMarker(x[..], y[..])
    {
      var peak := Recompute(T, DayCoefficients(T, latDeg, day));
      markerX := [peak.at, peak.at];
      markerY := [Value(0.0), Value(peak.value)];
    }
  }
}
