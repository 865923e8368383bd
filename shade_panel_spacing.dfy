/** The shade of a tilted solar panel (scripts/shade_panel_spacing.py).

    A panel of size S tilted by beta rises from (0, 0) to (D, H); the sun at
    elevation alpha casts its top's shadow D1 = H / tan(alpha) further on. The
    figure has three shapes: the panel segment, a ground strip, and the sunny
    area, a 7-vertex polygon whose slanted sides are parallel to the sun ray. */
module ShadePanelSpacing {
  import opened Solar

  /** Every column of the figure. */
  datatype Layout = Layout(
    panelX: seq<real>, panelY: seq<real>,
    groundX: seq<real>, groundY: seq<real>,
    sunX: seq<real>, sunY: seq<real>)

  /** Height of the sunny area: twice the larger of 1 and the panel height. */
  function SkyHeight(h: real): (h1: real)
    ensures h1 >= 2.0 && h1 > h
  {
    (if 1.0 > h then 1.0 else h) * 2.0
  }

  /** The columns for panel rise `h`, run `d` and sun tangent `t`. */
  function Shapes(h: real, d: real, t: real): Layout
    requires t != 0.0
  {
    var h1 := SkyHeight(h);
    var d2 := h1 / t;
    var d1 := h / t;
    Layout(
      [0.0, d], [0.0, h],
      [-1.0, d + d1 + 1.0, d + d1 + 1.0, -1.0], [0.0, 0.0, -0.1, -0.1],
      [-1.0, 0.0, d, d + d1, d + d1 + 1.0, d + d1 + 1.0 - d2, -1.0 - d2], [0.0, 0.0, h, 0.0, 0.0, h1, h1])
  }

  /** The initial Python build from the panel size and the two angles in
      degrees (`d2r` for each angle). */
  function InitialLayout(T: Trig, size: real, panelDeg: real, sunDeg: real): Layout
    requires T.tan(D2R(sunDeg, T.pi)) != 0.0
  {
    var h := size * T.sin(D2R(panelDeg, T.pi));
    var d := size * T.cos(D2R(panelDeg, T.pi));
    Shapes(h, d, T.tan(D2R(sunDeg, T.pi)))
  }

  /** The slider callback; its conversion `v / 180 * PI` is `d2r`. */
  function CallbackLayout(T: Trig, size: real, panelDeg: real, sunDeg: real): Layout
    requires T.tan(D2R(sunDeg, T.pi)) != 0.0
  {
    var alpha := D2R(sunDeg, T.pi);
    var beta := D2R(panelDeg, T.pi);
    var h := size * T.sin(beta);
    var d := size * T.cos(beta);
    Shapes(h, d, T.tan(alpha))
  }

  /** The callback recomputes the same columns as the initial build, so the
      initial slider values reproduce the initial figure. */
  lemma CallbackReproducesInitial(T: Trig, size: real, panelDeg: real, sunDeg: real)
    requires T.tan(D2R(sunDeg, T.pi)) != 0.0
    ensures CallbackLayout(T, size, panelDeg, sunDeg) == InitialLayout(T, size, panelDeg, sunDeg)
  {
  }

  /** The edge from vertex i to vertex j of a polygon has slope `-t`. */
  predicate Slanted(xs: seq<real>, ys: seq<real>, i: nat, j: nat, t: real)
    requires i < |xs| && i < |ys| && j < |xs| && j < |ys|
  {
    ys[j] - ys[i] == -t * (xs[j] - xs[i])
  }

  /** The geometry of the figure: the panel runs from the origin to (D, H);
      the shadow tip (D + D1, 0) is where the sun ray through the panel top
      lands; the sunny polygon has 7 vertices and the ground 4; its three
      slanted sides are parallel to the sun ray; its top lies above the panel
      top; the ground ends where the sunny area's fifth vertex is. */
  lemma LayoutGeometry(h: real, d: real, t: real)
    requires t != 0.0
    ensures var l := Shapes(h, d, t);
      && l.panelX == [0.0, d] && l.panelY == [0.0, h]
      && |l.sunX| == |l.sunY| == 7 && |l.groundX| == |l.groundY| == 4
      && l.sunX[2] == d && l.sunY[2] == h && l.sunY[3] == 0.0
      && h - t * (l.sunX[3] - d) == 0.0
      && Slanted(l.sunX, l.sunY, 2, 3, t)
      && Slanted(l.sunX, l.sunY, 4, 5, t)
      && Slanted(l.sunX, l.sunY, 6, 0, t)
      && l.sunY[5] == l.sunY[6] >= 2.0 && l.sunY[5] > h
      && l.groundX[1] == l.groundX[2] == l.sunX[4] == d + h / t + 1.0
  {
    var h1 := SkyHeight(h);
    assert t * (h / t) == h;
    assert t * (h1 / t) == h1;
  }

  /** With a panel that rises and leans forward (H, D >= 0), the ground
      vertices of the sunny area run left to right. */
  lemma LayoutOrder(h: real, d: real, t: real)
    requires t > 0.0 && h >= 0.0 && d >= 0.0
    ensures var l := Shapes(h, d, t);
      l.sunX[6] < l.sunX[0] < l.sunX[1] <= l.sunX[2] <= l.sunX[3] < l.sunX[4]
  {
    assert h / t >= 0.0;
    assert SkyHeight(h) / t > 0.0;
  }

  /** The sun slider reaches 90 degrees, where the callback's tangent of
      `90 / 180 * 3.14159265359` is negative because that literal exceeds pi.
      With a negative tangent the shadow tip (D + D1, 0) falls left of the
      panel top's abscissa D, and the sky edge leans right of the ground end:
      the sunny polygon folds over itself instead of running left to right. */
  lemma ShadowBehindPanel(h: real, d: real, t: real)
    requires t < 0.0 && h > 0.0
    ensures var l := Shapes(h, d, t);
      l.sunX[3] < l.sunX[2] && l.sunX[5] > l.sunX[4]
  {
  }
}
