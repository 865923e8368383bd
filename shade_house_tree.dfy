/** The shade of a tree over a wall (scripts/shade_house_tree.py).

    The tree stands at x = 0, the wall at x = `wallD`; the sun shines from the
    left at an angle whose tangent is `t`. The sunlit region is the polygon
    under the sun ray that grazes the tree top, and it is built in one of three
    ways: the ray passes over the wall (wall fully lit), strikes the wall face
    (wall half lit), or lands behind the wall (wall shaded). */
module ShadeHouseTree {
  import Tally

  /** Slider values: tree height, wall height, wall distance, and the tangent
      of the sun angle (the sun slider keeps the angle in (0, 90) degrees, so
      callers pass `t > 0`). */
  datatype Scene = Scene(treeH: real, wallH: real, wallD: real, t: real)

  /** x of the ray polygon's first vertex, to the left of the tree. */
  const X0: real := -2.0

  function Abs(x: real): real {
    if x < 0.0 then -x else x
  }

  /** Height of the sun ray at `X0`, Python form `tree_h + |x0| t`. */
  function Y0Py(s: Scene): real {
    s.treeH + Abs(X0) * s.t
  }

  /** Height of the sun ray at `X0`, callback form `tree_h - x0 t`. */
  function Y0Js(s: Scene): real {
    s.treeH - X0 * s.t
  }

  /** Where the grazing ray reaches the ground. */
  function X1(s: Scene): real
    requires s.t > 0.0
  {
    s.treeH / s.t
  }

  /** Where the ray grazing the wall top reaches the ground. */
  function X2(s: Scene): real
    requires s.t > 0.0
  {
    s.wallH / s.t + s.wallD
  }

  /** Height of the grazing ray at the wall. */
  function YLight(s: Scene): real {
    s.treeH - s.t * s.wallD
  }

  datatype Case = WallShaded | HalfLight | FullLight

  /** The source's two nested tests: `y_light < wall_h`, then `x1 > wall_d`. */
  function Classify(s: Scene): Case
    requires s.t > 0.0
  {
    if YLight(s) < s.wallH then
      if X1(s) > s.wallD then HalfLight else FullLight
    else WallShaded
  }

  /** A polygon as the plot stores it: parallel x and y columns. */
  datatype Polygon = Polygon(xs: seq<real>, ys: seq<real>)

  /** The sunlit polygon of the initial Python build. */
  function PyRay(s: Scene): Polygon
    requires s.t > 0.0
  {
    var y0, x1, x2, yl := Y0Py(s), X1(s), X2(s), YLight(s);
    if yl < s.wallH then
      var x3 := x2 + 3.0 - y0 / s.t;
      if x1 > s.wallD then
        Polygon([X0] + [s.wallD, s.wallD, x2, x2 + 3.0, x3], [y0] + [yl, s.wallH, 0.0, 0.0, y0])
      else
        Polygon([X0] + [x1, s.wallD, s.wallD, x2, x2 + 3.0, x3], [y0] + [0.0, 0.0, s.wallH, 0.0, 0.0, y0])
    else
      var x3 := x1 + 3.0 - y0 / s.t;
      Polygon([X0] + [x1, x1 + 3.0, x3], [y0] + [0.0, 0.0, y0])
  }

  /** The sunlit polygon the slider callback builds. */
  function JsRay(s: Scene): Polygon
    requires s.t > 0.0
  {
    var y0, x1, x2, yl := Y0Js(s), X1(s), X2(s), YLight(s);
    if yl < s.wallH then
      var x3 := x2 + 3.0 - y0 / s.t;
      if x1 > s.wallD then
        Polygon([X0] + [s.wallD, s.wallD, x2, x2, x2 + 3.0, x3], [y0] + [yl, s.wallH, 0.0, 0.0, 0.0, y0])
      else
        Polygon([X0] + [x1, s.wallD, s.wallD, x2, x2 + 3.0, x3], [y0] + [0.0, 0.0, s.wallH, 0.0, 0.0, y0])
    else
      var x3 := x1 + 3.0 - y0 / s.t;
      Polygon([X0] + [x1, x1 + 3.0, x3, x3, x3, x3], [y0] + [0.0, 0.0, y0, y0, y0, y0])
  }

  /** x > wall_d, the half-light test, is the test that the grazing ray is
      still above the ground at the wall. */
  lemma HalfLightTest(s: Scene)
    requires s.t > 0.0
    ensures X1(s) > s.wallD <==> YLight(s) > 0.0
  {
    var x1 := X1(s);
    assert s.treeH == s.t * x1;
    assert s.t * (x1 - s.wallD) == s.t * x1 - s.t * s.wallD;
    assert YLight(s) == s.t * (x1 - s.wallD);
    ProductSign(s.t, x1 - s.wallD);
  }

  /** A product with a positive factor has the other factor's sign. */
  lemma ProductSign(a: real, b: real)
    requires a > 0.0
    ensures a * b > 0.0 <==> b > 0.0
  {
    if b <= 0.0 {
      assert a * b == -(a * -b);
      assert a * -b >= 0.0;
    }
  }

  /** The three cases partition the scenes by the strike height `y_light`. */
  lemma CasePartition(s: Scene)
    requires s.t > 0.0
    ensures Classify(s) == WallShaded <==> YLight(s) >= s.wallH
    ensures Classify(s) == HalfLight <==> 0.0 < YLight(s) < s.wallH
    ensures Classify(s) == FullLight <==> YLight(s) <= 0.0 && YLight(s) < s.wallH
  {
    HalfLightTest(s);
  }

  /** The two forms of the height at `X0` agree. */
  lemma Y0Forms(s: Scene)
    ensures Y0Py(s) == Y0Js(s)
  {
  }

  /** A point on the ray through the tree top `(0, tree_h)` with slope `-t`. */
  predicate OnSunRay(s: Scene, x: real, y: real) {
    y == s.treeH - s.t * x
  }

  /** The first vertex, the tree top, the strike point on the wall and the
      ray's landing point all lie on the grazing ray. */
  lemma RayCollinear(s: Scene)
    requires s.t > 0.0
    ensures OnSunRay(s, X0, Y0Py(s)) && OnSunRay(s, X0, Y0Js(s))
    ensures OnSunRay(s, 0.0, s.treeH)
    ensures OnSunRay(s, s.wallD, YLight(s))
    ensures OnSunRay(s, X1(s), 0.0)
  {
    assert s.t * X1(s) == s.treeH;
  }

  /** The edge from vertex i to vertex j has slope `-t`. */
  predicate Slanted(p: Polygon, i: nat, j: nat, t: real)
    requires i < |p.xs| && i < |p.ys| && j < |p.xs| && j < |p.ys|
  {
    p.ys[j] - p.ys[i] == -t * (p.xs[j] - p.xs[i])
  }

  predicate Horizontal(p: Polygon, i: nat, j: nat)
    requires i < |p.ys| && j < |p.ys|
  {
    p.ys[i] == p.ys[j]
  }

  predicate Vertical(p: Polygon, i: nat, j: nat)
    requires i < |p.xs| && j < |p.xs|
  {
    p.xs[i] == p.xs[j]
  }

  /** The initial polygon vertex by vertex: 6 points when the wall is half lit,
      7 when it is fully lit, 4 when it is shaded; every slanted edge is
      parallel to the sun ray and the others are ground, wall or sky edges. */
  lemma PyRayShape(s: Scene)
    requires s.t > 0.0
    ensures var p := PyRay(s); |p.xs| == |p.ys|
    ensures var p := PyRay(s); var t := s.t;
      match Classify(s)
      case HalfLight =>
        && |p.xs| == 6
        && p.xs[1] == s.wallD && p.ys[1] == YLight(s) && p.ys[2] == s.wallH
        && Slanted(p, 0, 1, t) && Vertical(p, 1, 2) && Slanted(p, 2, 3, t)
        && Horizontal(p, 3, 4) && p.ys[3] == 0.0 && Slanted(p, 4, 5, t) && Horizontal(p, 5, 0)
      case FullLight =>
        && |p.xs| == 7
        && p.xs[1] == X1(s) && p.xs[2] == s.wallD && p.ys[3] == s.wallH
        && Slanted(p, 0, 1, t) && Horizontal(p, 1, 2) && p.ys[1] == 0.0 && Vertical(p, 2, 3)
        && Slanted(p, 3, 4, t) && Horizontal(p, 4, 5) && p.ys[4] == 0.0
        && Slanted(p, 5, 6, t) && Horizontal(p, 6, 0)
      case WallShaded =>
        && |p.xs| == 4
        && p.xs[1] == X1(s)
        && Slanted(p, 0, 1, t) && Horizontal(p, 1, 2) && p.ys[1] == 0.0
        && Slanted(p, 2, 3, t) && Horizontal(p, 3, 0)
  {
    var t := s.t;
    var y0 := Y0Py(s);
    assert t * (y0 / t) == y0;
    assert t * (s.wallH / t) == s.wallH;
    assert t * X1(s) == s.treeH;
  }

  /** The callback always emits 7 vertices. */
  lemma JsRayCount(s: Scene)
    requires s.t > 0.0
    ensures |JsRay(s).xs| == 7 && |JsRay(s).ys| == 7
  {
  }

  /** The callback's polygon against the initial one: equal when the wall is
      fully lit; the wall-top shadow point doubled when it is half lit; the
      last vertex repeated three more times when it is shaded. */
  lemma PyJsRayRelation(s: Scene)
    requires s.t > 0.0
    ensures var p, q := PyRay(s), JsRay(s);
      match Classify(s)
      case FullLight => q == p
      case HalfLight => q.xs == p.xs[..4] + [p.xs[3]] + p.xs[4..] && q.ys == p.ys[..4] + [p.ys[3]] + p.ys[4..]
      case WallShaded => q.xs == p.xs + [p.xs[3], p.xs[3], p.xs[3]] && q.ys == p.ys + [p.ys[3], p.ys[3], p.ys[3]]
  {
    Y0Forms(s);
  }

  /** The vertices of a polygon as points. */
  function Points(p: Polygon): (r: seq<(real, real)>)
    requires |p.xs| == |p.ys|
    ensures |r| == |p.xs| && forall i :: 0 <= i < |r| ==> r[i] == (p.xs[i], p.ys[i])
  {
    seq(|p.xs|, i requires 0 <= i < |p.xs| => (p.xs[i], p.ys[i]))
  }

  /** The outline a patch draws: the vertices with consecutive repeats
      dropped. */
  function Outline(ps: seq<(real, real)>): seq<(real, real)>
    decreases |ps|
  {
    if |ps| <= 1 then ps
    else if ps[0] == ps[1] then Outline(ps[1..])
    else [ps[0]] + Outline(ps[1..])
  }

  /** Repeating a vertex does not change the outline. */
  lemma {:induction false} OutlineRepeat(a: seq<(real, real)>, x: (real, real), b: seq<(real, real)>)
    ensures Outline(a + [x, x] + b) == Outline(a + [x] + b)
    decreases |a|
  {
    if |a| == 0 {
      assert (a + [x, x] + b)[1..] == [x] + b;
      assert a + [x] + b == [x] + b;
    } else {
      OutlineRepeat(a[1..], x, b);
      assert (a + [x, x] + b)[1..] == a[1..] + [x, x] + b;
      assert (a + [x] + b)[1..] == a[1..] + [x] + b;
      if |a| == 1 {
        assert (a + [x, x] + b)[1] == x == (a + [x] + b)[1];
      } else {
        assert (a + [x, x] + b)[1] == a[1] == (a + [x] + b)[1];
      }
    }
  }

  /** Whatever the case, the callback and the initial build draw the same
      outline. */
  lemma SameOutline(s: Scene)
    requires s.t > 0.0
    ensures |PyRay(s).xs| == |PyRay(s).ys| && |JsRay(s).xs| == |JsRay(s).ys|
    ensures Outline(Points(JsRay(s))) == Outline(Points(PyRay(s)))
  {
    PyRayShape(s);
    JsRayCount(s);
    PyJsRayRelation(s);
    var p, q := Points(PyRay(s)), Points(JsRay(s));
    match Classify(s)
    case FullLight =>
    case HalfLight =>
      assert q == p[..3] + [p[3], p[3]] + p[4..];
      assert p == p[..3] + [p[3]] + p[4..];
      OutlineRepeat(p[..3], p[3], p[4..]);
    case WallShaded =>
      var x := p[3];
      var a := p[..3];
      assert p == a + [x] + [];
      assert q == a + [x, x] + [x, x];
      OutlineRepeat(a, x, [x, x]);
      assert a + [x] + [x, x] == a + [x, x] + [x];
      OutlineRepeat(a, x, [x]);
      assert a + [x] + [x] == a + [x, x] + [];
      OutlineRepeat(a, x, []);
  }

  /** Full light with positive heights: the ground x-coordinates are in
      order `x0 < x1 <= wall_d < x2 < x2 + 3`. */
  lemma FullLightOrdering(s: Scene)
    requires s.t > 0.0 && s.treeH > 0.0 && s.wallH > 0.0
    requires Classify(s) == FullLight
    ensures X0 < X1(s) <= s.wallD < X2(s) < X2(s) + 3.0
    ensures var p := PyRay(s); p.xs[0] < p.xs[1] <= p.xs[2] == p.xs[3] < p.xs[4] < p.xs[5]
  {
    assert X1(s) > 0.0;
    assert s.wallH / s.t > 0.0;
  }

  /** The default scene (tree 3, wall 2 at distance 4) under sun angles of
      50, 30 and 10 degrees, with their tangents to two or three digits. */
  lemma DefaultSceneCases()
    ensures Classify(Scene(3.0, 2.0, 4.0, 1.19)) == FullLight
    ensures Classify(Scene(3.0, 2.0, 4.0, 0.577)) == HalfLight
    ensures Classify(Scene(3.0, 2.0, 4.0, 0.176)) == WallShaded
  {
    CasePartition(Scene(3.0, 2.0, 4.0, 1.19));
    CasePartition(Scene(3.0, 2.0, 4.0, 0.577));
    CasePartition(Scene(3.0, 2.0, 4.0, 0.176));
  }

  /** `Math.max(...xs)`. */
  function Largest(xs: seq<real>): (m: real)
    requires |xs| > 0
    ensures m in xs && forall i :: 0 <= i < |xs| ==> xs[i] <= m
  {
    xs[Tally.ArgMax(xs)]
  }

  /** The tree outline at height `h`: every unit-height y times `h`. */
  function Scaled(ys: seq<real>, h: real): (r: seq<real>)
    ensures |r| == |ys| && forall i :: 0 <= i < |ys| ==> r[i] == h * ys[i]
  {
    seq(|ys|, i requires 0 <= i < |ys| => h * ys[i])
  }

  /** The Python polygon has as many x as y values, and at least one. */
  lemma PyRayNonempty(s: Scene)
    requires s.t > 0.0
    ensures |PyRay(s).xs| == |PyRay(s).ys| > 0
  {
    PyRayShape(s);
  }

  /** The x and y columns of every shape of the figure. The tree and wall
      columns are updated element by element; the ray and ground x columns are
      replaced as a whole. */
  class ShadeView {
    var treeX: array<real>
    var treeY0: array<real>
    var treeY: array<real>
    var wallX: array<real>
    var wallY: array<real>
    var rayX: seq<real>
    var rayY: seq<real>
    var groundX: seq<real>
    var groundY: seq<real>

    ghost predicate Valid()
      reads this
    {
      && treeX.Length == treeY0.Length == treeY.Length
      && treeY != treeX && treeY != treeY0
      && wallX.Length == 2 && wallY.Length == 2 && wallX != wallY
      && {treeX, treeY0, treeY} !! {wallX, wallY}
      && |rayX| == |rayY| > 0
      && |groundX| == 4 && groundX[0] == -2.0 && groundX[3] == -2.0 && groundX[1] == groundX[2]
      && groundY == [0.0, 0.0, -0.5, -0.5]
    }

    /** The initial Python build from a tree outline of unit height. */
    constructor (outlineX: seq<real>, outlineY: seq<real>, s: Scene)
      requires |outlineX| == |outlineY| && s.t > 0.0
      ensures Valid()
      ensures treeX[..] == outlineX && treeY0[..] == outlineY
      ensures forall i :: 0 <= i < treeY.Length ==> treeY[i] == s.treeH * outlineY[i]
      ensures wallX[..] == [s.wallD, s.wallD] && wallY[..] == [0.0, s.wallH]
      ensures rayX == PyRay(s).xs && rayY == PyRay(s).ys
      ensures groundX == [-2.0, 12.0, 12.0, -2.0]
    {
      var tx := Tally.NewColumn(outlineX, 0.0);
      var ty0 := Tally.NewColumn(outlineY, 0.0);
      var ty := Tally.NewColumn(Scaled(outlineY, s.treeH), 0.0);
      var wx := Tally.NewColumn([s.wallD, s.wallD], 0.0);
      var wy := Tally.NewColumn([0.0, s.wallH], 0.0);
      PyRayNonempty(s);
      treeX, treeY0, treeY, wallX, wallY := tx, ty0, ty, wx, wy;
      rayX, rayY := PyRay(s).xs, PyRay(s).ys;
      groundX := [-2.0, 12.0, 12.0, -2.0];
      groundY := [0.0, 0.0, -0.5, -0.5];
    }

    /** Tree-height slider: every tree y becomes its unit-height value times
      `v`; the x column and the wall are untouched. */
    method OnTreeHeight(v: real)
      requires Valid()
      modifies treeY
      ensures Valid()
      ensures forall i :: 0 <= i < treeY.Length ==> treeY[i] == treeY0[i] * v
      ensures treeX[..] == old(treeX[..]) && treeY0[..] == old(treeY0[..])
      ensures wallX[..] == old(wallX[..]) && wallY[..] == old(wallY[..])
    {
      var i := 0;
      while i < treeX.Length
        invariant 0 <= i <= treeX.Length
        invariant forall k :: 0 <= k < i ==> treeY[k] == treeY0[k] * v
      {
        treeY[i] := treeY0[i] * v;
        i := i + 1;
      }
    }

    /** Distance slider: every wall x becomes `v`; the tree is untouched. */
    method OnWallDistance(v: real)
      requires Valid()
      modifies wallX
      ensures Valid()
      ensures wallX[..] == [v, v] && wallY[..] == old(wallY[..])
      ensures treeX[..] == old(treeX[..]) && treeY0[..] == old(treeY0[..]) && treeY[..] == old(treeY[..])
    {
      var i := 0;
      while i < wallX.Length
        invariant 0 <= i <= wallX.Length
        invariant forall k :: 0 <= k < i ==> wallX[k] == v
      {
        wallX[i] := v;
        i := i + 1;
      }
      assert wallX[..] == [wallX[0], wallX[1]];
    }

    /** Wall-height slider: only the top of the wall moves; the tree is
      untouched. */
    method OnWallHeight(v: real)
      requires Valid()
      modifies wallY
      ensures Valid()
      ensures wallY[..] == [old(wallY[0]), v] && wallX[..] == old(wallX[..])
      ensures treeX[..] == old(treeX[..]) && treeY0[..] == old(treeY0[..]) && treeY[..] == old(treeY[..])
    {
      wallY[1] := v;
      assert wallY[..] == [wallY[0], wallY[1]];
    }

    /** Any slider: rebuild the ray polygon as the callback does and move the
      ground's right edge two units past the rightmost ray vertex. */
    method OnSceneChange(s: Scene)
      requires Valid() && s.t > 0.0
      modifies this
      ensures Valid()
      ensures rayX == JsRay(s).xs && rayY == JsRay(s).ys && |rayX| == 7
      ensures groundX == [-2.0, Largest(rayX) + 2.0, Largest(rayX) + 2.0, -2.0]
      ensures forall k :: 0 <= k < |rayX| ==> rayX[k] + 2.0 <= groundX[1]
      ensures groundY == old(groundY) && groundX[0] == old(groundX[0]) && groundX[3] == old(groundX[3])
      ensures treeX == old(treeX) && treeY0 == old(treeY0) && treeY == old(treeY)
      ensures wallX == old(wallX) && wallY == old(wallY)
    {
      var p := JsRay(s);
      JsRayCount(s);
      rayX, rayY := p.xs, p.ys;
      var m := Largest(rayX);
      groundX := [-2.0, m + 2.0, m + 2.0, -2.0];
    }
  }
}
