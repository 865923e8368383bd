/** Hour-by-hour yield of a fixed panel (scripts/yield_hours_fixed.py).

    The plot has one sample per clock hour of a 0..24 grid, with the columns
    `x` (hour), `y` (yield in percent), `h` (hour angle, radians), `ch` and
    `sh` (its cosine and sine). Night samples carry a sentinel instead of a
    yield: NaN in the Python build, `1/0` in the slider callback. */
module YieldHoursFixed {
  import opened Solar
  import FixedPanel
  import Tally

  /** The Python sample: NaN where `alpha < 0`, otherwise the formula with
      `TA = tan(max(alpha, 0))`. */
  function PySample(T: Trig, sb: real, cb: real, ch: real, sh: real, alpha: real): Num
    requires T.Valid()
  {
    if alpha < 0.0 then NaN else FixedPanel.Yield(T, sb, cb, ch, sh, T.tan(Max0(alpha)))
  }

  /** The callback sample: the formula with `TA = tan(a)` where `sin(a) > 0`,
      otherwise `1/0`. */
  function JsSample(T: Trig, sb: real, cb: real, ch: real, sh: real, a: real): Num
    requires T.Valid()
  {
    if T.sin(a) > 0.0 then FixedPanel.Yield(T, sb, cb, ch, sh, T.tan(a)) else PosInf
  }

  /** For an elevation: below the horizon Python writes NaN and the callback
      `1/0`; exactly on the horizon Python computes the formula while the
      callback writes `1/0`; above it both compute the same formula. */
  lemma NightSentinels(T: Trig, c: Coefficients, cosH: real, sb: real, cb: real, ch: real, sh: real)
    requires T.Valid()
    ensures var a := Elevation(T, c, cosH);
      && (a < 0.0 ==> PySample(T, sb, cb, ch, sh, a) == NaN && JsSample(T, sb, cb, ch, sh, a) == PosInf)
      && (a == 0.0 ==> PySample(T, sb, cb, ch, sh, a) == FixedPanel.Yield(T, sb, cb, ch, sh, T.tan(0.0))
                       && JsSample(T, sb, cb, ch, sh, a) == PosInf)
      && (a > 0.0 ==> PySample(T, sb, cb, ch, sh, a) == JsSample(T, sb, cb, ch, sh, a)
                      == FixedPanel.Yield(T, sb, cb, ch, sh, T.tan(a)))
  {
    DayTestIsPositiveElevation(T, c, cosH);
  }

  /** The hour-angle column entry of a clock hour, `d2r(15 (h - 12))`. */
  function HourAngle(T: Trig, hour: real): real {
    D2R(HourAngleDeg(hour), T.pi)
  }

  /** The Python build's `y` entry for a clock hour. */
  function InitialValue(T: Trig, latDeg: real, day: int, betaDeg: real, hour: real): Num
    requires T.Valid()
  {
    var hra := HourAngle(T, hour);
    var beta := D2R(betaDeg, T.pi);
    var alpha := Elevation(T, PyDayCoefficients(T, latDeg, day), T.cos(hra));
    PySample(T, T.sin(beta), T.cos(beta), T.cos(hra), T.sin(hra), alpha)
  }

  /** The callback's `y` entry for a sample whose columns are `hra`, `ch`
      and `sh`. */
  function CallbackValue(T: Trig, latDeg: real, day: int, betaDeg: real, hra: real, ch: real, sh: real): Num
    requires T.Valid()
  {
    var beta := D2R(betaDeg, T.pi);
    var a := Elevation(T, DayCoefficients(T, latDeg, day), T.cos(hra));
    JsSample(T, T.sin(beta), T.cos(beta), ch, sh, a)
  }

  /** At the slider values the Python build used, the callback redraws every
      daytime sample unchanged, turns Python's NaN nights into `1/0`, and also
      blanks the samples exactly on the horizon that Python computed. */
  lemma CallbackVersusInitial(T: Trig, latDeg: real, day: int, betaDeg: real, hour: real)
    requires T.Valid()
    ensures var hra := HourAngle(T, hour);
      var a := Elevation(T, DayCoefficients(T, latDeg, day), T.cos(hra));
      var js := CallbackValue(T, latDeg, day, betaDeg, hra, T.cos(hra), T.sin(hra));
      var py := InitialValue(T, latDeg, day, betaDeg, hour);
      && (a > 0.0 ==> js == py)
      && (a < 0.0 ==> js == PosInf && py == NaN)
      && (a == 0.0 ==> js == PosInf
                       && py == FixedPanel.Yield(T, T.sin(D2R(betaDeg, T.pi)), T.cos(D2R(betaDeg, T.pi)), T.cos(hra), T.sin(hra), T.tan(0.0)))
  {
    var hra := HourAngle(T, hour);
    var beta := D2R(betaDeg, T.pi);
    CoefficientForms(T, latDeg, day);
    NightSentinels(T, DayCoefficients(T, latDeg, day), T.cos(hra), T.sin(beta), T.cos(beta), T.cos(hra), T.sin(hra));
  }

  /** The plot's columns. The callback overwrites `y` in place. */
  class HourlySource {
    var x: array<real>
    var y: array<Num>
    var h: array<real>
    var ch: array<real>
    var sh: array<real>

    ghost predicate Valid()
      reads this
    {
      && x.Length == y.Length == h.Length == ch.Length == sh.Length
    }

    /** The Python build over `n` hours from 0 to 24. */
    constructor (T: Trig, latDeg: real, day: int, betaDeg: real, n: nat)
      requires T.Valid() && n >= 2
      ensures Valid() && x[..] == Tally.Linspace(0.0, 24.0, n)
      ensures forall i :: 0 <= i < n ==>
        && h[i] == HourAngle(T, x[i]) && ch[i] == T.cos(h[i]) && sh[i] == T.sin(h[i])
        && y[i] == InitialValue(T, latDeg, day, betaDeg, x[i])
    {
      var hours := Tally.Linspace(0.0, 24.0, n);
      x := new real[n](i => if 0 <= i < n then hours[i] else 0.0);
      h := new real[n](i => if 0 <= i < n then HourAngle(T, hours[i]) else 0.0);
      ch := new real[n](i => if 0 <= i < n then T.cos(HourAngle(T, hours[i])) else 0.0);
      sh := new real[n](i => if 0 <= i < n then T.sin(HourAngle(T, hours[i])) else 0.0);
      y := new Num[n](i requires T.Valid() => if 0 <= i < n then InitialValue(T, latDeg, day, betaDeg, hours[i]) else NaN);
      new;
      assert x[..] == hours;
    }

    /** Any slider: recompute every `y` from the sample's own columns and
      the sliders; nothing else changes. */
    method OnSliderChange(T: Trig, latDeg: real, day: int, betaDeg: real)
      requires T.Valid() && Valid()
      modifies y
      ensures Valid()
      ensures forall i :: 0 <= i < y.Length ==> y[i] == CallbackValue(T, latDeg, day, betaDeg, h[i], ch[i], sh[i])
      ensures x[..] == old(x[..]) && h[..] == old(h[..]) && ch[..] == old(ch[..]) && sh[..] == old(sh[..])
    {
      var c := DayCoefficients(T, latDeg, day);
      var beta := D2R(betaDeg, T.pi);
      var cb, sb := T.cos(beta), T.sin(beta);
      var i := 0;
      while i < x.Length
        invariant 0 <= i <= x.Length
        invariant forall k :: 0 <= k < i ==> y[k] == CallbackValue(T, latDeg, day, betaDeg, h[k], ch[k], sh[k])
      {
        var a := Elevation(T, c, T.cos(h[i]));
        if T.sin(a) > 0.0 {
          y[i] := FixedPanel.Yield(T, sb, cb, ch[i], sh[i], T.tan(a));
        } else {
          y[i] := PosInf;
        }
        i := i + 1;
      }
    }
  }
}
