/** Sun elevation over a day (scripts/sun_elevation_hours.py): one sample per
    clock hour, `y` the elevation in degrees. The Python build plots the raw
    elevation, negative at night; the slider callback clips it at zero. */
module SunElevationHours {
  import opened Solar
  import Tally

  /** The Python build's `y` entry: `r2d(asin(...))` at the hour angle
      `d2r(15 (h - 12))`, not clipped. */
  function InitialValue(T: Trig, latDeg: real, day: int, hour: real): real
    requires T.Valid()
  {
    R2D(Elevation(T, PyDayCoefficients(T, latDeg, day), T.cos(D2R(HourAngleDeg(hour), T.pi))), T.pi)
  }

  /** The callback's `y` entry for a sample whose `hra` column is `hra`:
      the elevation in degrees, clipped at zero. */
  function CallbackValue(T: Trig, latDeg: real, day: int, hra: real): real
    requires T.Valid()
  {
    Max0(R2D(Elevation(T, DayCoefficients(T, latDeg, day), T.cos(hra)), T.pi))
  }

  /** The initial plot is not clipped: a sample is negative exactly when the
      sun is below the horizon. */
  lemma InitialNotClipped(T: Trig, latDeg: real, day: int, hour: real)
    requires T.Valid()
    ensures var a := Elevation(T, PyDayCoefficients(T, latDeg, day), T.cos(D2R(HourAngleDeg(hour), T.pi)));
      InitialValue(T, latDeg, day, hour) < 0.0 <==> a < 0.0
  {
    var a := Elevation(T, PyDayCoefficients(T, latDeg, day), T.cos(D2R(HourAngleDeg(hour), T.pi)));
    R2DSign(a, T.pi);
  }

  /** At the initial slider values the callback draws the initial curve with
      its negative part raised to zero, and it is never negative. */
  lemma CallbackClipsInitial(T: Trig, latDeg: real, day: int, hour: real)
    requires T.Valid()
    ensures CallbackValue(T, latDeg, day, D2R(HourAngleDeg(hour), T.pi)) == Max0(InitialValue(T, latDeg, day, hour))
    ensures CallbackValue(T, latDeg, day, D2R(HourAngleDeg(hour), T.pi)) >= 0.0
    ensures InitialValue(T, latDeg, day, hour) >= 0.0 ==>
      CallbackValue(T, latDeg, day, D2R(HourAngleDeg(hour), T.pi)) == InitialValue(T, latDeg, day, hour)
  {
    CoefficientForms(T, latDeg, day);
  }

  /** The plot's columns. The callback overwrites `y` in place. */
  class ElevationSource {
    var x: array<real>
    var y: array<real>
    var hra: array<real>

    ghost predicate Valid()
      reads this
    {
      x.Length == y.Length == hra.Length && y != x && y != hra
    }

    /** The Python build over `n` hours from 0 to 24. */
    constructor (T: Trig, latDeg: real, day: int, n: nat)
      requires T.Valid() && n >= 2
      ensures Valid() && x[..] == Tally.Linspace(0.0, 24.0, n)
      ensures forall i :: 0 <= i < n ==>
        hra[i] == D2R(HourAngleDeg(x[i]), T.pi) && y[i] == InitialValue(T, latDeg, day, x[i])
    {
      var hours := Tally.Linspace(0.0, 24.0, n);
      x := new real[n](i => if 0 <= i < n then hours[i] else 0.0);
      hra := new real[n](i => if 0 <= i < n then D2R(HourAngleDeg(hours[i]), T.pi) else 0.0);
      y := new real[n](i requires T.Valid() => if 0 <= i < n then InitialValue(T, latDeg, day, hours[i]) else 0.0);
      new;
      assert x[..] == hours;
    }

    /** Either slider: every `y` is recomputed from its own `hra` and the
      sliders alone and ends nonnegative; `x` and `hra` are untouched. */
    method OnSliderChange(T: Trig, latDeg: real, day: int)
      requires T.Valid() && Valid()
      modifies y
      ensures Valid()
      ensures forall i :: 0 <= i < y.Length ==> y[i] == CallbackValue(T, latDeg, day, hra[i]) && y[i] >= 0.0
      ensures x[..] == old(x[..]) && hra[..] == old(hra[..])
    {
      var c := DayCoefficients(T, latDeg, day);
      var i := 0;
      while i < x.Length
        invariant 0 <= i <= x.Length
        invariant forall k :: 0 <= k < i ==> y[k] == CallbackValue(T, latDeg, day, hra[k])
      {
        y[i] := Elevation(T, c, T.cos(hra[i]));
        y[i] := Max0(R2D(y[i], T.pi));
        i := i + 1;
      }
    }
  }
}
