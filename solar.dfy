/** Solar geometry shared by every script: degree/radian conversion, the hour
    angle, the declination approximation and the elevation formula.

    The elementary functions are not computed: they are the fields of a `Trig`
    record that callers pass in, and the only facts assumed about them are
    range and sign facts (`Trig.Valid`). */
module Solar {

  /** The elementary functions the scripts call, left uninterpreted, and the
      value of pi they use. */
  datatype Trig = Trig(
    sin: real -> real,
    cos: real -> real,
    tan: real -> real,
    asin: real -> real,
    sqrt: real -> real,
    pi: real)
  {
    /** Range and sign facts only. */
    ghost predicate Valid() {
      && pi > 0.0
      && (forall x :: -1.0 <= sin(x) <= 1.0)
      && (forall x :: -1.0 <= cos(x) <= 1.0)
      && (forall x :: -pi / 2.0 <= asin(x) <= pi / 2.0)
      && (forall x :: -pi / 2.0 <= x <= pi / 2.0 ==> (sin(x) > 0.0 <==> x > 0.0))
      && (forall x :: 0.0 <= x ==> 0.0 <= sqrt(x))
    }
  }

  /** The range facts are consistent: some record satisfies them. */
  lemma ValidTrigExists()
    ensures exists T: Trig :: T.Valid()
  {
    var clamp := (x: real) => if x < -1.0 then -1.0 else if x > 1.0 then 1.0 else x;
    var T := Trig(clamp, clamp, x => x, clamp, x => if x < 0.0 then 0.0 else x, 4.0);
    assert T.Valid();
  }

  /** A plotted sample: a number, numpy's NaN, or JavaScript's `1/0`. */
  datatype Num = Value(v: real) | NaN | PosInf

  /** Degrees to radians, `x / 180 * pi`. */
  function D2R(x: real, pi: real): real {
    x / 180.0 * pi
  }

  /** The callbacks' spelling `v * PI / 180` of `d2r`. */
  lemma D2RForms(x: real, pi: real)
    ensures x * pi / 180.0 == D2R(x, pi)
  {
  }

  /** `d2r` of every entry of a column of degrees. */
  function Radians(T: Trig, ds: seq<real>): (rs: seq<real>)
    ensures |rs| == |ds| && forall k :: 0 <= k < |ds| ==> rs[k] == D2R(ds[k], T.pi)
  {
    seq(|ds|, k requires 0 <= k < |ds| => D2R(ds[k], T.pi))
  }

  /** Radians to degrees, `x / pi * 180`. */
  function R2D(x: real, pi: real): real
    requires pi != 0.0
  {
    x / pi * 180.0
  }

  lemma D2RR2DInverse(x: real, pi: real)
    requires pi != 0.0
    ensures R2D(D2R(x, pi), pi) == x
    ensures D2R(R2D(x, pi), pi) == x
  {
    calc {
      R2D(D2R(x, pi), pi);
      == (x / 180.0 * pi) / pi * 180.0;
      == { assert (x / 180.0 * pi) / pi == x / 180.0; }
      x;
    }
    calc {
      D2R(R2D(x, pi), pi);
      == (x / pi * 180.0) / 180.0 * pi;
      == { assert (x / pi * 180.0) / 180.0 == x / pi; }
      x / pi * pi;
    }
  }

  /** Radians to degrees keeps the sign of an angle. */
  lemma R2DSign(x: real, pi: real)
    requires pi > 0.0
    ensures R2D(x, pi) < 0.0 <==> x < 0.0
    ensures R2D(x, pi) > 0.0 <==> x > 0.0
  {
    var q := x / pi;
    assert x == q * pi;
    assert x < 0.0 <==> q < 0.0;
    assert x > 0.0 <==> q > 0.0;
  }

  /** The hour angle in degrees of a clock hour: `15 * (h - 12)`. */
  function HourAngleDeg(h: real): real {
    15.0 * (h - 12.0)
  }

  /** Noon is the zero of the hour angle, the day [0, 24] maps onto
      [-180, 180] and the map is increasing. */
  lemma HourAngleRange(h: real, h': real)
    ensures HourAngleDeg(12.0) == 0.0
    ensures 0.0 <= h <= 24.0 ==> -180.0 <= HourAngleDeg(h) <= 180.0
    ensures HourAngleDeg(0.0) == -180.0 && HourAngleDeg(24.0) == 180.0
    ensures h < h' ==> HourAngleDeg(h) < HourAngleDeg(h')
  {
  }

  /** The `hra` column of clock hours: `d2r(15 (h - 12))` of every hour. */
  function HourAngles(T: Trig, hours: seq<real>): (hra: seq<real>)
    ensures |hra| == |hours| && forall j :: 0 <= j < |hours| ==> hra[j] == D2R(HourAngleDeg(hours[j]), T.pi)
  {
    seq(|hours|, j requires 0 <= j < |hours| => D2R(HourAngleDeg(hours[j]), T.pi))
  }

  /** The day-of-year argument of the declination sine, in radians. */
  function YearPhase(T: Trig, day: int): real {
    2.0 * T.pi * ((day as real) + 284.0) / 365.0
  }

  /** Declination in degrees, as the Python builds compute it. */
  function DeclinationDeg(T: Trig, day: int): real {
    23.433333 * T.sin(YearPhase(T, day))
  }

  /** Declination in radians, as the JavaScript callbacks compute it. */
  function DeclinationRad(T: Trig, day: int): real {
    23.433333 * T.pi / 180.0 * T.sin(YearPhase(T, day))
  }

  /** The callbacks' radian declination is the Python degree declination
      converted with `d2r`. */
  lemma DeclinationForms(T: Trig, day: int)
    ensures DeclinationRad(T, day) == D2R(DeclinationDeg(T, day), T.pi)
  {
    var s := T.sin(YearPhase(T, day));
    assert DeclinationRad(T, day) == (23.433333 / 180.0 * T.pi) * s;
    assert D2R(DeclinationDeg(T, day), T.pi) == (23.433333 / 180.0 * T.pi) * s;
  }

  /** The declination stays within the tropics: +-23.433333 degrees. */
  lemma DeclinationRange(T: Trig, day: int)
    requires T.Valid()
    ensures -23.433333 <= DeclinationDeg(T, day) <= 23.433333
    ensures -23.433333 / 180.0 * T.pi <= DeclinationRad(T, day) <= 23.433333 / 180.0 * T.pi
  {
    var s := T.sin(YearPhase(T, day));
    var c := 23.433333 / 180.0 * T.pi;
    assert DeclinationRad(T, day) == c * s;
    ScaledUnit(c, s);
  }

  lemma ScaledUnit(c: real, s: real)
    requires c > 0.0 && -1.0 <= s <= 1.0
    ensures -c <= c * s <= c
  {
  }

  /** The two day-constant coefficients of the elevation formula,
      `A = sin(decl) sin(lat)` and `B = cos(decl) cos(lat)` (radians). */
  datatype Coefficients = Coefficients(a: real, b: real)

  function SunCoefficients(T: Trig, declRad: real, latRad: real): Coefficients {
    Coefficients(T.sin(declRad) * T.sin(latRad), T.cos(declRad) * T.cos(latRad))
  }

  /** Both coefficients are products of two values in [-1, 1]. */
  lemma SunCoefficientsRange(T: Trig, declRad: real, latRad: real)
    requires T.Valid()
    ensures var c := SunCoefficients(T, declRad, latRad);
      -1.0 <= c.a <= 1.0 && -1.0 <= c.b <= 1.0
  {
    ProductInUnit(T.sin(declRad), T.sin(latRad));
    ProductInUnit(T.cos(declRad), T.cos(latRad));
  }

  lemma ProductInUnit(u: real, w: real)
    requires -1.0 <= u <= 1.0 && -1.0 <= w <= 1.0
    ensures -1.0 <= u * w <= 1.0
  {
    if u >= 0.0 {
      if w >= 0.0 { assert u * w <= 1.0 * w; } else { assert u * w >= u * (-1.0); }
    } else {
      if w >= 0.0 { assert u * w >= (-1.0) * w; } else { assert u * w <= (-1.0) * w; }
    }
  }

  /** The coefficients of a day and a latitude in degrees as the callbacks
      compute them: declination in radians, latitude as `v * PI / 180`. */
  function DayCoefficients(T: Trig, latDeg: real, day: int): Coefficients {
    SunCoefficients(T, DeclinationRad(T, day), D2R(latDeg, T.pi))
  }

  /** The same coefficients as the Python builds compute them: `d2r` of the
      declination in degrees and of the latitude. */
  function PyDayCoefficients(T: Trig, latDeg: real, day: int): Coefficients {
    SunCoefficients(T, D2R(DeclinationDeg(T, day), T.pi), D2R(latDeg, T.pi))
  }

  lemma CoefficientForms(T: Trig, latDeg: real, day: int)
    ensures PyDayCoefficients(T, latDeg, day) == DayCoefficients(T, latDeg, day)
    ensures latDeg * T.pi / 180.0 == D2R(latDeg, T.pi)
  {
    DeclinationForms(T, day);
    D2RForms(latDeg, T.pi);
  }

  /** Sun elevation in radians at a sample whose hour-angle cosine is `cosH`:
      `asin(A + B cos H)`. */
  function Elevation(T: Trig, c: Coefficients, cosH: real): real {
    T.asin(c.a + c.b * cosH)
  }

  /** An elevation lies in [-pi/2, pi/2]. */
  lemma ElevationRange(T: Trig, c: Coefficients, cosH: real)
    requires T.Valid()
    ensures -T.pi / 2.0 <= Elevation(T, c, cosH) <= T.pi / 2.0
  {
  }

  /** For an elevation, which lies in [-pi/2, pi/2], the callbacks' night test
      `sin(a) > 0` is the test `a > 0`. */
  lemma DayTestIsPositiveElevation(T: Trig, c: Coefficients, cosH: real)
    requires T.Valid()
    ensures T.sin(Elevation(T, c, cosH)) > 0.0 <==> Elevation(T, c, cosH) > 0.0
  {
    ElevationRange(T, c, cosH);
  }

  function Max0(x: real): (r: real)
    ensures r >= 0.0 && r >= x && (r == x || r == 0.0)
  {
    if x > 0.0 then x else 0.0
  }
}
