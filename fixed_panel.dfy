/** The instantaneous yield of a fixed panel tilted by beta, shared by
    scripts/yield_hours_fixed.py and scripts/yield_day_tot_fixed.py: the
    projection of the sun direction on the panel normal, written with the
    tangent `TA` of the elevation, the hour-angle cosine and sine `CH`, `SH`,
    and the tilt's cosine and sine `CB`, `SB`. */
module FixedPanel {
  import opened Solar

  /** `X = 1 + TA^2`, the divisor of every quotient in the formula. */
  function Spread(ta: real): (x: real)
    ensures x >= 1.0
  {
    1.0 + ta * ta
  }

  /** `sqrt` as numpy and JavaScript evaluate it: NaN below zero. */
  function Sqrt(T: Trig, x: real): (r: Num)
    ensures r.NaN? <==> x < 0.0
  {
    if x < 0.0 then NaN else Value(T.sqrt(x))
  }

  /** The panel's share of the direct light,
      `sqrt(1 - (V_AB / (V_A V_B))^2) * V_B * V_A` with
      `Y = SB TA - CB CH`, `V_A = sqrt(1 - SH^2 / X)`,
      `V_B = sqrt(1 - Y^2 / X)`, `V_AB = Y SH / X`. A quotient by
      `V_A V_B = 0` is NaN (0/0) or infinite, and either way the outer square
      root makes the sample NaN. */
  function Ratio(T: Trig, sb: real, cb: real, ch: real, sh: real, ta: real): Num {
    var x := Spread(ta);
    var y := sb * ta - cb * ch;
    var va := Sqrt(T, 1.0 - sh * sh / x);
    var vb := Sqrt(T, 1.0 - y * y / x);
    var vab := y * sh / x;
    if va.NaN? || vb.NaN? || va.v * vb.v == 0.0 then NaN
    else
      var q := vab / (va.v * vb.v);
      var w := Sqrt(T, 1.0 - q * q);
      if w.NaN? then NaN else Value(w.v * vb.v * va.v)
  }

  /** The same share in percent, `100 * Ratio`; NaN stays NaN. */
  function Yield(T: Trig, sb: real, cb: real, ch: real, sh: real, ta: real): Num {
    var r := Ratio(T, sb, cb, ch, sh, ta);
    if r.Value? then Value(100.0 * r.v) else r
  }

  /** The share is NaN or a number, never `1/0`, and a number is never
      negative: it is a product of square roots. */
  lemma RatioNonnegative(T: Trig, sb: real, cb: real, ch: real, sh: real, ta: real)
    requires T.Valid()
    ensures !Ratio(T, sb, cb, ch, sh, ta).PosInf?
    ensures Ratio(T, sb, cb, ch, sh, ta).Value? ==> Ratio(T, sb, cb, ch, sh, ta).v >= 0.0
  {
    var x := Spread(ta);
    var y := sb * ta - cb * ch;
    var va := Sqrt(T, 1.0 - sh * sh / x);
    var vb := Sqrt(T, 1.0 - y * y / x);
    if !(va.NaN? || vb.NaN? || va.v * vb.v == 0.0) {
      var q := y * sh / x / (va.v * vb.v);
      var w := Sqrt(T, 1.0 - q * q);
      if !w.NaN? {
        NonnegativeProduct(w.v, vb.v, va.v);
      }
    }
  }

  /** The yield in percent is NaN exactly when the share is, is never
      `1/0`, and a number is never negative. */
  lemma YieldNonnegative(T: Trig, sb: real, cb: real, ch: real, sh: real, ta: real)
    requires T.Valid()
    ensures Yield(T, sb, cb, ch, sh, ta).NaN? <==> Ratio(T, sb, cb, ch, sh, ta).NaN?
    ensures !Yield(T, sb, cb, ch, sh, ta).PosInf?
    ensures Yield(T, sb, cb, ch, sh, ta).Value? ==> Yield(T, sb, cb, ch, sh, ta).v >= 0.0
  {
    RatioNonnegative(T, sb, cb, ch, sh, ta);
  }

  lemma NonnegativeProduct(p: real, q: real, r: real)
    requires p >= 0.0 && q >= 0.0 && r >= 0.0
    ensures p * q * r >= 0.0
  {
    assert p * q >= 0.0;
  }

  /** With `|SH| <= 1` the first square root is always defined, because
      `X >= 1`. */
  lemma FirstRootDefined(T: Trig, sh: real, ta: real)
    requires T.Valid() && -1.0 <= sh <= 1.0
    ensures Sqrt(T, 1.0 - sh * sh / Spread(ta)).Value?
  {
    var x := Spread(ta);
    assert sh * sh <= 1.0 by {
      if sh >= 0.0 { assert sh * sh <= 1.0 * sh; } else { assert sh * sh <= (-1.0) * sh; }
    }
    assert sh * sh / x <= sh * sh;
  }

  /** At solar noon (`SH = 0`) `V_A = sqrt(1)` and `V_AB = 0`, so where the
      square root of 1 is 1 the share is `V_B` and the yield `100 V_B` (NaN
      when `V_B` is NaN or 0). */
  lemma NoonYield(T: Trig, sb: real, cb: real, ch: real, ta: real)
    requires T.Valid() && T.sqrt(1.0) == 1.0
    ensures var y := sb * ta - cb * ch;
      var vb := Sqrt(T, 1.0 - y * y / Spread(ta));
      && Ratio(T, sb, cb, ch, 0.0, ta) == (if vb.NaN? || vb.v == 0.0 then NaN else Value(vb.v))
      && Yield(T, sb, cb, ch, 0.0, ta) == (if vb.NaN? || vb.v == 0.0 then NaN else Value(100.0 * vb.v))
  {
    var x := Spread(ta);
    assert 0.0 * 0.0 / x == 0.0;
    var y := sb * ta - cb * ch;
    assert y * 0.0 / x == 0.0;
  }
}
