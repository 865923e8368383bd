/** Sums over one day's time samples, shared by the yield curves of a panel
    that turns with the sun (scripts/yield_year.py, scripts/yield_day.py).

    A day is given by its elevation coefficients `c` and the hour-angle
    cosines `t` of its samples; sample `i` has elevation
    `Elevation(T, c, t[i])`. Every sum runs over the first `i` samples and
    keeps those whose elevation the mask keeps. */
module DaySums {
  import opened Solar
  import Tally

  /** The clipped sines `max(sin(b + a), 0)` of the kept elevations `a`,
      for a tilt `b` in radians. */
  function DaySum(T: Trig, b: real, c: Coefficients, t: seq<real>, m: Tally.Mask, i: nat): real
    requires i <= |t|
    decreases i
  {
    if i == 0 then 0.0
    else
      var a := Elevation(T, c, t[i - 1]);
      DaySum(T, b, c, t, m, i - 1) + if Tally.Keeps(m, a) then Max0(T.sin(b + a)) else 0.0
  }

  /** The plain sines `sin(b + a)` of the kept elevations, not clipped. */
  function RawSum(T: Trig, b: real, c: Coefficients, t: seq<real>, m: Tally.Mask, i: nat): real
    requires i <= |t|
    decreases i
  {
    if i == 0 then 0.0
    else
      var a := Elevation(T, c, t[i - 1]);
      RawSum(T, b, c, t, m, i - 1) + if Tally.Keeps(m, a) then T.sin(b + a) else 0.0
  }

  /** How many of the first `i` samples the mask keeps. */
  function DayCount(T: Trig, c: Coefficients, t: seq<real>, m: Tally.Mask, i: nat): nat
    requires i <= |t|
    decreases i
  {
    if i == 0 then 0
    else DayCount(T, c, t, m, i - 1) + if Tally.Keeps(m, Elevation(T, c, t[i - 1])) then 1 else 0
  }

  /** Every kept sample adds between 0 and 1, so the clipped sum lies between
      0 and the number of kept samples, which is at most `i`. */
  lemma {:induction false} DaySumBounds(T: Trig, b: real, c: Coefficients, t: seq<real>, m: Tally.Mask, i: nat)
    requires T.Valid() && i <= |t|
    ensures 0.0 <= DaySum(T, b, c, t, m, i) <= DayCount(T, c, t, m, i) as real
    ensures DayCount(T, c, t, m, i) <= i
    decreases i
  {
    if i > 0 {
      DaySumBounds(T, b, c, t, m, i - 1);
    }
  }

  /** Clipping never lowers a sum: the unclipped sum is at most the clipped
      one. */
  lemma {:induction false} RawAtMostClipped(T: Trig, b: real, c: Coefficients, t: seq<real>, m: Tally.Mask, i: nat)
    requires i <= |t|
    ensures RawSum(T, b, c, t, m, i) <= DaySum(T, b, c, t, m, i)
    decreases i
  {
    if i > 0 {
      RawAtMostClipped(T, b, c, t, m, i - 1);
    }
  }

  /** No sample of the first `i` sits exactly on the horizon. */
  predicate NoneOnHorizonUpTo(T: Trig, c: Coefficients, t: seq<real>, i: nat)
    requires i <= |t|
  {
    forall j :: 0 <= j < i ==> Elevation(T, c, t[j]) != 0.0
  }

  /** Keeping `a >= 0` is keeping `a > 0` plus the samples exactly on the
      horizon, for the sums and for the count; with no sample on the horizon
      the two masks agree. */
  lemma {:induction false} DaySumMaskSplit(T: Trig, b: real, c: Coefficients, t: seq<real>, i: nat)
    requires i <= |t|
    ensures DaySum(T, b, c, t, Tally.AtOrAboveZero, i)
            == DaySum(T, b, c, t, Tally.AboveZero, i) + DaySum(T, b, c, t, Tally.AtZero, i)
    ensures DayCount(T, c, t, Tally.AtOrAboveZero, i)
            == DayCount(T, c, t, Tally.AboveZero, i) + DayCount(T, c, t, Tally.AtZero, i)
    ensures NoneOnHorizonUpTo(T, c, t, i) ==>
      DaySum(T, b, c, t, Tally.AtZero, i) == 0.0 && DayCount(T, c, t, Tally.AtZero, i) == 0
    decreases i
  {
    if i > 0 {
      DaySumMaskSplit(T, b, c, t, i - 1);
    }
  }

  /** The unclipped sum lies between minus and plus the number of kept
      samples. */
  lemma {:induction false} RawSumBounds(T: Trig, b: real, c: Coefficients, t: seq<real>, m: Tally.Mask, i: nat)
    requires T.Valid() && i <= |t|
    ensures -(DayCount(T, c, t, m, i) as real) <= RawSum(T, b, c, t, m, i) <= DayCount(T, c, t, m, i) as real
    decreases i
  {
    if i > 0 {
      RawSumBounds(T, b, c, t, m, i - 1);
    }
  }

  /** No sample is kept exactly when every one of the first `i` elevations
      fails the mask. */
  lemma {:induction false} DayCountZero(T: Trig, c: Coefficients, t: seq<real>, m: Tally.Mask, i: nat)
    requires i <= |t|
    ensures DayCount(T, c, t, m, i) == 0 <==> forall j :: 0 <= j < i ==> !Tally.Keeps(m, Elevation(T, c, t[j]))
    decreases i
  {
    if i > 0 {
      DayCountZero(T, c, t, m, i - 1);
    }
  }

  /** With no sample on the horizon, the unclipped sum over `a > 0` is at
      most the clipped sum over `a >= 0`, that sum is not negative, and the
      two masks keep the same number of samples. */
  lemma AboveAtMostAtOrAbove(T: Trig, b: real, c: Coefficients, t: seq<real>)
    requires T.Valid() && NoneOnHorizonUpTo(T, c, t, |t|)
    ensures RawSum(T, b, c, t, Tally.AboveZero, |t|) <= DaySum(T, b, c, t, Tally.AtOrAboveZero, |t|)
    ensures 0.0 <= DaySum(T, b, c, t, Tally.AtOrAboveZero, |t|)
    ensures DayCount(T, c, t, Tally.AboveZero, |t|) == DayCount(T, c, t, Tally.AtOrAboveZero, |t|)
  {
    DaySumMaskSplit(T, b, c, t, |t|);
    RawAtMostClipped(T, b, c, t, Tally.AboveZero, |t|);
    DaySumBounds(T, b, c, t, Tally.AboveZero, |t|);
  }
}
