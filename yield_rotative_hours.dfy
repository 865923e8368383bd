/** Hour-by-hour yield of a sun-tracking panel with a fixed tilt
    (scripts/yield_rotative_hours.py). The panel turns to face the sun, so its
    yield is the sine of the elevation plus the tilt, clipped at zero. */
module YieldRotativeHours {
  import opened Solar
  import Tally

  /** The `h` column entry of a clock hour, Python's `hra * pi / 180`. */
  function HourColumn(T: Trig, hour: real): real {
    HourAngleDeg(hour) * T.pi / 180.0
  }

  /** The `h` column is the hour angle in radians, 0 at noon. */
  lemma HourColumnIsRadians(T: Trig, hour: real)
    ensures HourColumn(T, hour) == D2R(HourAngleDeg(hour), T.pi)
    ensures HourColumn(T, 12.0) == 0.0
  {
    D2RForms(HourAngleDeg(hour), T.pi);
  }

  /** The Python build's `y` entry: `100 sin(alpha)`, no tilt, no night
      masking. */
  function InitialValue(T: Trig, latDeg: real, day: int, hour: real): Num {
    var alpha := Elevation(T, PyDayCoefficients(T, latDeg, day), T.cos(D2R(HourAngleDeg(hour), T.pi)));
    Value(100.0 * T.sin(alpha))
  }

  /** The callback's `y` entry for elevation `a` and tilt `beta` (radians):
      `100 sin(max(0, a + beta))` by day, `1/0` by night. */
  function CallbackSample(T: Trig, a: real, beta: real): Num {
    if T.sin(a) > 0.0 then Value(100.0 * T.sin(Max0(a + beta))) else PosInf
  }

  /** For an elevation, the callback's day test is `a > 0`: above the horizon
      the sample is the clipped tilted sine, otherwise the `1/0` sentinel. */
  lemma DayAndNight(T: Trig, c: Coefficients, cosH: real, beta: real)
    requires T.Valid()
    ensures var a := Elevation(T, c, cosH);
      && (a > 0.0 ==> CallbackSample(T, a, beta) == Value(100.0 * T.sin(Max0(a + beta))))
      && (a <= 0.0 ==> CallbackSample(T, a, beta) == PosInf)
  {
    DayTestIsPositiveElevation(T, c, cosH);
  }

  /** At the default tilt 0 the callback redraws the Python values of the
      daytime samples; the Python night samples, which the callback replaces
      by `1/0`, are not positive. */
  lemma ZeroTiltMatchesInitial(T: Trig, latDeg: real, day: int, hour: real)
    requires T.Valid()
    ensures var a := Elevation(T, DayCoefficients(T, latDeg, day), T.cos(HourColumn(T, hour)));
      && (a > 0.0 ==> CallbackSample(T, a, 0.0) == InitialValue(T, latDeg, day, hour))
      && (a <= 0.0 ==> CallbackSample(T, a, 0.0) == PosInf && InitialValue(T, latDeg, day, hour).v <= 0.0)
  {
    HourColumnIsRadians(T, hour);
    CoefficientForms(T, latDeg, day);
    var a := Elevation(T, DayCoefficients(T, latDeg, day), T.cos(HourColumn(T, hour)));
    DayTestIsPositiveElevation(T, DayCoefficients(T, latDeg, day), T.cos(HourColumn(T, hour)));
    assert a + 0.0 == a;
  }

  /** The plot's columns. The callback overwrites `y` in place. */
  class TrackingSource {
    var x: array<real>
    var y: array<Num>
    var h: array<real>

    ghost predicate Valid()
      reads this
    {
      x.Length == y.Length == h.Length && x != h
    }

    /** The Python build over `n` hours from 0 to 24. */
    constructor (T: Trig, latDeg: real, day: int, n: nat)
      requires n >= 2
      ensures Valid() && x[..] == Tally.Linspace(0.0, 24.0, n)
      ensures forall i :: 0 <= i < n ==> h[i] == HourColumn(T, x[i]) && y[i] == InitialValue(T, latDeg, day, x[i])
    {
      var hours := Tally.Linspace(0.0, 24.0, n);
      x := new real[n](i => if 0 <= i < n then hours[i] else 0.0);
      h := new real[n](i => if 0 <= i < n then HourColumn(T, hours[i]) else 0.0);
      y := new Num[n](i => if 0 <= i < n then InitialValue(T, latDeg, day, hours[i]) else PosInf);
      new;
      assert x[..] == hours;
    }

    /** Any slider: every `y` is recomputed from its own `h` and the sliders
      (tilt in degrees); `x`, `h` and the length stay as they were. */
    method OnSliderChange(T: Trig, latDeg: real, day: int, betaDeg: real)
      requires Valid()
      modifies y
      ensures Valid()
      ensures forall i :: 0 <= i < y.Length ==>
        y[i] == CallbackSample(T, Elevation(T, DayCoefficients(T, latDeg, day), T.cos(h[i])), D2R(betaDeg, T.pi))
      ensures x[..] == old(x[..]) && h[..] == old(h[..])
    {
      var c := DayCoefficients(T, latDeg, day);
      var beta := D2R(betaDeg, T.pi);
      var i := 0;
      while i < x.Length
        invariant 0 <= i <= x.Length
        invariant forall k :: 0 <= k < i ==> y[k] == CallbackSample(T, Elevation(T, c, T.cos(h[k])), beta)
      {
        var a := Elevation(T, c, T.cos(h[i]));
        if T.sin(a) > 0.0 {
          y[i] := Value(a + beta);
          y[i] := Value(100.0 * T.sin(Max0(y[i].v)));
        } else {
          y[i] := PosInf;
        }
        i := i + 1;
      }
    }
  }
}
