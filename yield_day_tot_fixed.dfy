/** Yield over one day of a fixed panel, as a function of its tilt
    (scripts/yield_day_tot_fixed.py).

    For every tilt the day's samples whose elevation counts as daytime add
    the fixed panel's unscaled share of the light (`FixedPanel.Ratio`, with
    no factor 100); the total is scaled to `100 s / n` over all `n`
    samples, daytime or not. The Python build keeps `alpha >= 0` and uses
    `TA = tan(max(alpha, 0))`; the callback keeps `alpha > 0` and uses
    `TA = tan(alpha)`. A NaN sample turns its tilt's total into NaN. */
module YieldDayTotFixed {
  import opened Solar
  import FixedPanel
  import Tally
  import NumTally

  /** `N_HOUR`, the time samples of the day. */
  const HourCount: nat := 200

  /** `N_BETA`, the tilts of the plot. */
  const TiltCount: nat := 200

  /** The timing columns: hour angles `t` in radians and their cosines `ch`
      and sines `sh`. */
  datatype Timing = Timing(t: seq<real>, ch: seq<real>, sh: seq<real>)
  {
    predicate WellFormed() {
      |t| == |ch| == |sh| > 0
    }
  }

  /** The columns of the clock hours `hours`: `hra = d2r(15 (h - 12))`,
      `CH = cos(hra)`, `SH = sin(hra)`. */
  function TimingOf(T: Trig, hours: seq<real>): (tm: Timing)
    requires |hours| > 0
    ensures tm.WellFormed() && |tm.t| == |hours|
    ensures forall j :: 0 <= j < |hours| ==>
      tm.t[j] == D2R(HourAngleDeg(hours[j]), T.pi) && tm.ch[j] == T.cos(tm.t[j]) && tm.sh[j] == T.sin(tm.t[j])
  {
    var hra := HourAngles(T, hours);
    Timing(hra, seq(|hours|, j requires 0 <= j < |hours| => T.cos(hra[j])),
      seq(|hours|, j requires 0 <= j < |hours| => T.sin(hra[j])))
  }

  /** The panel's unscaled share at the `j`-th time sample, with
      `TA = tan(max(a, 0))` for its elevation `a`: the script's per-sample
      `Yield`, which carries no factor 100. */
  function PanelAt(T: Trig, c: Coefficients, sb: real, cb: real, tm: Timing, j: nat): Num
    requires tm.WellFormed() && j < |tm.t|
  {
    FixedPanel.Ratio(T, sb, cb, tm.ch[j], tm.sh[j], T.tan(Max0(Elevation(T, c, T.cos(tm.t[j])))))
  }

  /** The total of the panel's share over those of the first `i` time
      samples whose elevation the mask keeps: `Yield[msk].sum()` for
      `i = |t|`, added from the front. */
  function DayTotal(T: Trig, c: Coefficients, sb: real, cb: real, tm: Timing, m: Tally.Mask, i: nat): Num
    requires tm.WellFormed() && i <= |tm.t|
    decreases i
  {
    if i == 0 then Value(0.0)
    else if Tally.Keeps(m, Elevation(T, c, T.cos(tm.t[i - 1]))) then
      NumTally.Add(DayTotal(T, c, sb, cb, tm, m, i - 1), PanelAt(T, c, sb, cb, tm, i - 1))
    else DayTotal(T, c, sb, cb, tm, m, i - 1)
  }

  /** `100 s / n`, the only factor 100 of the plot; a NaN total stays NaN. */
  function Percent(s: Num, n: nat): Num
    requires n > 0
  {
    if s.Value? then Value(100.0 * s.v / (n as real)) else s
  }

  /** The plotted value of one tilt: `100 s / n` of the day's total under
      the mask. */
  function TiltValue(T: Trig, c: Coefficients, sb: real, cb: real, tm: Timing, m: Tally.Mask): Num
    requires tm.WellFormed()
  {
    Percent(DayTotal(T, c, sb, cb, tm, m, |tm.t|), |tm.t|)
  }

  /** The Python build's value for a tilt of `betaDeg` degrees. */
  function InitialValue(T: Trig, latDeg: real, day: int, betaDeg: real, tm: Timing): Num
    requires tm.WellFormed()
  {
    var beta := D2R(betaDeg, T.pi);
    TiltValue(T, PyDayCoefficients(T, latDeg, day), T.sin(beta), T.cos(beta), tm, Tally.AtOrAboveZero)
  }

  /** The callback's value for a tilt whose `sb`, `cb` columns hold `sb`, `cb`. */
  function CallbackValue(T: Trig, latDeg: real, day: int, sb: real, cb: real, tm: Timing): Num
    requires tm.WellFormed()
  {
    TiltValue(T, DayCoefficients(T, latDeg, day), sb, cb, tm, Tally.AboveZero)
  }

  /** A total is NaN or a number, never `1/0`, and a number is never
      negative. */
  lemma {:induction false} DayTotalNonnegative(T: Trig, c: Coefficients, sb: real, cb: real, tm: Timing, m: Tally.Mask, i: nat)
    requires T.Valid() && tm.WellFormed() && i <= |tm.t|
    ensures !DayTotal(T, c, sb, cb, tm, m, i).PosInf?
    ensures DayTotal(T, c, sb, cb, tm, m, i).Value? ==> DayTotal(T, c, sb, cb, tm, m, i).v >= 0.0
    decreases i
  {
    if i > 0 {
      DayTotalNonnegative(T, c, sb, cb, tm, m, i - 1);
      var a := Elevation(T, c, T.cos(tm.t[i - 1]));
      FixedPanel.RatioNonnegative(T, sb, cb, tm.ch[i - 1], tm.sh[i - 1], T.tan(Max0(a)));
    }
  }

  /** Keeping `a >= 0` is keeping `a > 0` plus the samples exactly on the
      horizon. */
  lemma {:induction false} DayTotalMaskSplit(T: Trig, c: Coefficients, sb: real, cb: real, tm: Timing, i: nat)
    requires tm.WellFormed() && i <= |tm.t|
    ensures DayTotal(T, c, sb, cb, tm, Tally.AtOrAboveZero, i)
            == NumTally.Add(DayTotal(T, c, sb, cb, tm, Tally.AboveZero, i), DayTotal(T, c, sb, cb, tm, Tally.AtZero, i))
    decreases i
  {
    if i == 0 {
      NumTally.AddZero(Value(0.0));
    } else {
      DayTotalMaskSplit(T, c, sb, cb, tm, i - 1);
      var above, zero := DayTotal(T, c, sb, cb, tm, Tally.AboveZero, i - 1), DayTotal(T, c, sb, cb, tm, Tally.AtZero, i - 1);
      var a := Elevation(T, c, T.cos(tm.t[i - 1]));
      if a > 0.0 {
        NumTally.AddSwap(above, zero, PanelAt(T, c, sb, cb, tm, i - 1));
      } else if a == 0.0 {
        NumTally.AddAssoc(above, zero, PanelAt(T, c, sb, cb, tm, i - 1));
      }
    }
  }

  /** With no sample exactly on the horizon the horizon samples add nothing. */
  lemma {:induction false} NoHorizonTotal(T: Trig, c: Coefficients, sb: real, cb: real, tm: Timing, i: nat)
    requires tm.WellFormed() && i <= |tm.t|
    requires forall j :: 0 <= j < i ==> Elevation(T, c, T.cos(tm.t[j])) != 0.0
    ensures DayTotal(T, c, sb, cb, tm, Tally.AtZero, i) == Value(0.0)
    decreases i
  {
    if i > 0 {
      NoHorizonTotal(T, c, sb, cb, tm, i - 1);
    }
  }

  /** At the slider values the Python build used, the callback's curve lies
      at or below the Python curve: a NaN in the callback is a NaN in Python,
      and where Python has a number the callback has a smaller or equal one.
      With no sample exactly on the horizon the two agree. */
  lemma InitialAtLeastCallback(T: Trig, latDeg: real, day: int, betaDeg: real, tm: Timing)
    requires T.Valid() && tm.WellFormed()
    ensures var beta := D2R(betaDeg, T.pi);
      var py := InitialValue(T, latDeg, day, betaDeg, tm);
      var js := CallbackValue(T, latDeg, day, T.sin(beta), T.cos(beta), tm);
      && (js.NaN? ==> py.NaN?)
      && (py.Value? ==> js.Value? && js.v <= py.v)
      && ((forall j :: 0 <= j < |tm.t| ==> Elevation(T, DayCoefficients(T, latDeg, day), T.cos(tm.t[j])) != 0.0) ==> py == js)
  {
    var beta := D2R(betaDeg, T.pi);
    var c := DayCoefficients(T, latDeg, day);
    CoefficientForms(T, latDeg, day);
    DayTotalMaskSplit(T, c, T.sin(beta), T.cos(beta), tm, |tm.t|);
    DayTotalNonnegative(T, c, T.sin(beta), T.cos(beta), tm, Tally.AtZero, |tm.t|);
    if forall j :: 0 <= j < |tm.t| ==> Elevation(T, c, T.cos(tm.t[j])) != 0.0 {
      NoHorizonTotal(T, c, T.sin(beta), T.cos(beta), tm, |tm.t|);
    }
    PercentOfSplit(DayTotal(T, c, T.sin(beta), T.cos(beta), tm, Tally.AboveZero, |tm.t|),
      DayTotal(T, c, T.sin(beta), T.cos(beta), tm, Tally.AtZero, |tm.t|), |tm.t|);
  }

  /** Adding a total that is NaN or a number at least 0 can turn a value
      into NaN or raise it, never lower it; adding `Value(0)` changes
      nothing. */
  lemma PercentOfSplit(s: Num, z: Num, n: nat)
    requires n > 0 && !z.PosInf? && (z.Value? ==> z.v >= 0.0)
    ensures Percent(s, n).NaN? ==> Percent(NumTally.Add(s, z), n).NaN?
    ensures Percent(NumTally.Add(s, z), n).Value? ==>
      Percent(s, n).Value? && Percent(s, n).v <= Percent(NumTally.Add(s, z), n).v
    ensures z == Value(0.0) ==> Percent(NumTally.Add(s, z), n) == Percent(s, n)
  {
    NumTally.AddZero(s);
    if s.Value? && z.Value? {
      PercentMonotone(s.v, s.v + z.v, n);
    }
  }

  lemma PercentMonotone(s: real, s': real, n: nat)
    requires n > 0 && s <= s'
    ensures 100.0 * s / (n as real) <= 100.0 * s' / (n as real)
  {
  }

  /** The scale of a plotted value: on a day of one sample above the
      horizon, the value is 100 times that sample's share, for either mask
      that keeps it. */
  lemma OneSampleValue(T: Trig, c: Coefficients, sb: real, cb: real, tm: Timing, m: Tally.Mask)
    requires tm.WellFormed() && |tm.t| == 1
    requires m != Tally.AtZero && Elevation(T, c, T.cos(tm.t[0])) > 0.0
    ensures PanelAt(T, c, sb, cb, tm, 0).Value? ==>
      Percent(DayTotal(T, c, sb, cb, tm, m, 1), 1) == Value(100.0 * PanelAt(T, c, sb, cb, tm, 0).v)
    ensures PanelAt(T, c, sb, cb, tm, 0).NaN? ==> Percent(DayTotal(T, c, sb, cb, tm, m, 1), 1).NaN?
  {
    NumTally.AddZero(PanelAt(T, c, sb, cb, tm, 0));
  }

  /** The Python loop over the tilts (degrees), appending one value each. */
  method PythonValues(T: Trig, latDeg: real, day: int, tm: Timing, betas: seq<real>) returns (vals: seq<Num>)
    requires tm.WellFormed()
    ensures |vals| == |betas|
    ensures forall k :: 0 <= k < |betas| ==> vals[k] == InitialValue(T, latDeg, day, betas[k], tm)
  {
    var c := PyDayCoefficients(T, latDeg, day);
    vals := [];
    var k := 0;
    while k < |betas|
      invariant 0 <= k <= |betas| && |vals| == k
      invariant forall j :: 0 <= j < k ==> vals[j] == InitialValue(T, latDeg, day, betas[j], tm)
    {
      var beta := D2R(betas[k], T.pi);
      vals := vals + [TiltValue(T, c, T.sin(beta), T.cos(beta), tm, Tally.AtOrAboveZero)];
      k := k + 1;
    }
  }

  /** The callback's inner loop for one tilt: `s` gains the panel's share
      at every sample with `alpha > 0`. */
  method CallbackTotal(T: Trig, c: Coefficients, sb: real, cb: real, tm: Timing) returns (s: Num)
    requires tm.WellFormed()
    ensures s == DayTotal(T, c, sb, cb, tm, Tally.AboveZero, |tm.t|)
  {
    s := Value(0.0);
    var j := 0;
    while j < |tm.t|
      invariant 0 <= j <= |tm.t|
      invariant s == DayTotal(T, c, sb, cb, tm, Tally.AboveZero, j)
    {
      s := CallbackStep(T, c, sb, cb, tm, j, s);
      j := j + 1;
    }
  }

  /** The body of the inner loop at sample `j`: when `alpha > 0`, add the
      panel's unscaled share with `TA = tan(alpha)`; the total of the first `j`
      samples becomes the total of the first `j + 1`. */
  method CallbackStep(T: Trig, c: Coefficients, sb: real, cb: real, tm: Timing, j: nat, s: Num) returns (s': Num)
    requires tm.WellFormed() && j < |tm.t|
    requires s == DayTotal(T, c, sb, cb, tm, Tally.AboveZero, j)
    ensures s' == DayTotal(T, c, sb, cb, tm, Tally.AboveZero, j + 1)
  {
    var alpha := Elevation(T, c, T.cos(tm.t[j]));
    s' := s;
    if alpha > 0.0 {
      s' := NumTally.Add(s, FixedPanel.Ratio(T, sb, cb, tm.ch[j], tm.sh[j], T.tan(alpha)));
    }
  }

  /** One step of the callback's outer loop: the inner loop, then
      `100 s / n`. */
  method CallbackTilt(T: Trig, c: Coefficients, sb: real, cb: real, tm: Timing) returns (v: Num)
    requires tm.WellFormed()
    ensures v == TiltValue(T, c, sb, cb, tm, Tally.AboveZero)
  {
    var s := CallbackTotal(T, c, sb, cb, tm);
    v := Percent(s, |tm.t|);
  }

  /** The `cb` column, `cos(d2r(beta))` of every tilt in degrees. */
  function TiltCosines(T: Trig, betas: seq<real>): (cbs: seq<real>)
    ensures |cbs| == |betas| && forall k :: 0 <= k < |betas| ==> cbs[k] == T.cos(D2R(betas[k], T.pi))
  {
    seq(|betas|, k requires 0 <= k < |betas| => T.cos(D2R(betas[k], T.pi)))
  }

  /** The `sb` column, `sin(d2r(beta))` of every tilt in degrees. */
  function TiltSines(T: Trig, betas: seq<real>): (sbs: seq<real>)
    ensures |sbs| == |betas| && forall k :: 0 <= k < |betas| ==> sbs[k] == T.sin(D2R(betas[k], T.pi))
  {
    seq(|betas|, k requires 0 <= k < |betas| => T.sin(D2R(betas[k], T.pi)))
  }

  /** The plot's columns: `x` the tilt in degrees, `y` the value, `cb` and
      `sb` the tilt's cosine and sine; `tm` is the separate timing data and
      the marker the dashed maximum line. */
  class DayTotalSource {
    var x: array<real>
    var y: array<Num>
    var cb: array<real>
    var sb: array<real>
    var tm: Timing
    var markerX: seq<real>
    var markerY: seq<Num>

    ghost predicate Valid()
      reads this
    {
      x.Length == y.Length == cb.Length == sb.Length && tm.WellFormed()
    }

    /** The Python build: `N_BETA` tilts from 0 to 90 degrees, `N_HOUR`
        hours from 0 to 24. */
    constructor (T: Trig, latDeg: real, day: int)
      ensures Valid()
      ensures x[..] == Tally.Linspace(0.0, 90.0, TiltCount)
      ensures tm == TimingOf(T, Tally.Linspace(0.0, 24.0, HourCount))
      ensures cb[..] == TiltCosines(T, x[..]) && sb[..] == TiltSines(T, x[..])
      ensures forall k :: 0 <= k < x.Length ==> y[k] == InitialValue(T, latDeg, day, x[k], tm)
      ensures NumTally.NumMarker(markerX, markerY) == NumTally.NumpyMarker(x[..], y[..])
    {
      var timing := TimingOf(T, Tally.Linspace(0.0, 24.0, HourCount));
      var betas := Tally.Linspace(0.0, 90.0, TiltCount);
      var vals := PythonValues(T, latDeg, day, timing, betas);
      var xs := Tally.NewColumn(betas, 0.0);
      var cbs := Tally.NewColumn(TiltCosines(T, betas), 0.0);
      var sbs := Tally.NewColumn(TiltSines(T, betas), 0.0);
      var ys := Tally.NewColumn(vals, NaN);
      x, y, cb, sb, tm := xs, ys, cbs, sbs, timing;
      new;
      PlaceNumpyMarker();
    }

    /** The Python build's marker. */
    method PlaceNumpyMarker()
      requires Valid() && x.Length > 0
      modifies this
      ensures Valid()
      ensures x == old(x) && y == old(y) && cb == old(cb) && sb == old(sb) && tm == old(tm)
      ensures NumTally.NumMarker(markerX, markerY) == NumTally.NumpyMarker(x[..], y[..])
    {
      var mk := NumTally.NumpyMarker(x[..], y[..]);
      markerX := mk.x;
      markerY := mk.y;
    }

    /** The callback's loop over the tilts: every `y[i]` becomes
        `100 s / n` for its tilt, and the scan tracks the first largest. */
    method Recompute(T: Trig, c: Coefficients) returns (peak: Tally.Peak)
      requires Valid()
      modifies y
      ensures Valid()
      ensures forall i :: 0 <= i < y.Length ==>
        y[i] == TiltValue(T, c, sb[i], cb[i], tm, Tally.AboveZero)
      ensures peak == NumTally.Scan(x[..], y[..])
    {
      var aMax, rMax := 0.0, 0.0;
      var i := 0;
      while i < x.Length
        invariant 0 <= i <= x.Length
        invariant forall k :: 0 <= k < i ==>
          y[k] == TiltValue(T, c, sb[k], cb[k], tm, Tally.AboveZero)
        invariant Tally.Peak(aMax, rMax) == NumTally.Scan(x[..i], y[..i])
      {
        var v := CallbackTilt(T, c, sb[i], cb[i], tm);
        y[i] := v;
        assert x[..i + 1][..i] == x[..i] && y[..i + 1][..i] == y[..i];
        if v.Value? && v.v > rMax {
          rMax := v.v;
          aMax := x[i];
        }
        i := i + 1;
      }
      assert x[..x.Length] == x[..] && y[..x.Length] == y[..];
      peak := Tally.Peak(aMax, rMax);
    }

    /** Either slider: recompute every value, then move the marker to the
        scan's maximum. Only `y` and the marker change. */
    method OnSliderChange(T: Trig, latDeg: real, day: int)
      requires Valid()
      modifies this, y
      ensures Valid()
      ensures x == old(x) && y == old(y) && cb == old(cb) && sb == old(sb) && tm == old(tm)
      ensures forall i :: 0 <= i < y.Length ==> y[i] == CallbackValue(T, latDeg, day, sb[i], cb[i], tm)
      ensures NumTally.NumMarker(markerX, markerY) == NumTally.ScanMarker(x[..], y[..])
    {
      var peak := Recompute(T, DayCoefficients(T, latDeg, day));
      markerX := [peak.at, peak.at];
      markerY := [Value(0.0), Value(peak.value)];
    }
  }
}
