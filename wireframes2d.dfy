/** The 2D shapes of the current generation (backend/objects/wireframes_2d.py):
    the coordinate and edge lists each shape hands to the `Object`
    constructor, the Bézier sampler, and the B-spline samplers by direct
    evaluation and by forward differences. */
module Wireframes2D {
  import opened Vectors
  import opened Objects
  import opened Matrices
  import Clipping

  /** The arguments a shape passes to the `Object` constructor. */
  datatype Shape = Shape(coords: seq<Vec3>, lines: seq<Edge>, kind: ObjectKind, fill: bool, closed: bool)

  // ---------------------------------------------------------------- edge lists

  /** The closed cycle over n points: edge i runs from i to the next point around. */
  function Cycle(n: nat): seq<Edge>
  {
    seq(n, i requires 0 <= i < n => Edge(i, if i < n - 1 then i + 1 else 0))
  }

  /** The open chain over n points: edge i runs from i to i + 1. */
  function Chain(n: nat): seq<Edge>
  {
    var m := if n == 0 then 0 else n - 1;
    seq(m, i requires 0 <= i < m => Edge(i, i + 1))
  }

  /** The edges of a spline: the cycle when closed, the chain otherwise. */
  function SplineLines(n: nat, closed: bool): seq<Edge>
  {
    if closed then Cycle(n) else Chain(n)
  }

  /** `Wireframe2D.__init__`: (i, i + 1) for every point but the last,
      which is joined back to point 0. */
  method PolygonEdges(n: nat) returns (lines: seq<Edge>)
    ensures lines == Cycle(n)
  {
    lines := [];
    for i := 0 to n
      invariant |lines| == i
      invariant lines == Cycle(n)[..i]
    {
      if i < n - 1 {
        lines := lines + [Edge(i, i + 1)];
      } else {
        lines := lines + [Edge(i, 0)];
      }
    }
  }

  /** `SplineCurve.__init__`: (i, i + 1) for every point but the last, and
      (last, 0) only for a closed spline. */
  method SplineEdges(n: nat, closed: bool) returns (lines: seq<Edge>)
    ensures lines == SplineLines(n, closed)
  {
    lines := [];
    for i := 0 to n
      invariant |lines| == (if !closed && i == n && n > 0 then n - 1 else i)
      invariant forall j :: 0 <= j < |lines| ==> lines[j] == SplineLines(n, closed)[j]
    {
      if i < n - 1 {
        lines := lines + [Edge(i, i + 1)];
      } else if closed {
        lines := lines + [Edge(n - 1, 0)];
      }
    }
  }

  /** `BezierCurve.__init__`: (i, i + 1) for i < n - 1. */
  method ChainEdges(n: nat) returns (lines: seq<Edge>)
    ensures lines == Chain(n)
  {
    lines := [];
    var m := if n == 0 then 0 else n - 1;
    for i := 0 to m
      invariant lines == Chain(i + 1)[..i]
    {
      lines := lines + [Edge(i, i + 1)];
    }
  }

  /** Resolved against its points, the cycle is one closed chain of
      segments, segment i starting at point i. */
  lemma CycleLinesClose(cs: seq<Vec3>)
    ensures var r := ResolveEdges(cs, Cycle(|cs|));
      |r| == |cs| && Clipping.ClosedChain(r)
      && forall i :: 0 <= i < |cs| ==> r[i].start == cs[i]
  {
    var n := |cs|;
    var es := Cycle(n);
    ResolveAllInRange(cs, es);
  }

  /** Resolved against its points, the chain joins each point to the next. */
  lemma ChainLines(cs: seq<Vec3>)
    ensures var r := ResolveEdges(cs, Chain(|cs|));
      |r| == (if cs == [] then 0 else |cs| - 1)
      && forall i :: 0 <= i < |r| ==> r[i] == Segment(cs[i], cs[i + 1])
  {
    ResolveAllInRange(cs, Chain(|cs|));
  }

  // -------------------------------------------------------------------- shapes

  /** A point is drawn as the segment from it to one unit along x. */
  function Point(p: Vec3): Shape
  {
    Shape([p, p.Add(Vec3(1.0, 0.0, 0.0))], [Edge(0, 1)], PointKind, false, false)
  }

  function Line(a: Vec3, b: Vec3): Shape
  {
    Shape([a, b], [Edge(0, 1)], LineKind, false, false)
  }

  function Wireframe2D(cs: seq<Vec3>, kind: ObjectKind, fill: bool): Shape
  {
    Shape(cs, Cycle(|cs|), kind, fill, true)
  }

  function Triangle(a: Vec3, b: Vec3, c: Vec3, fill: bool): Shape
  {
    Wireframe2D([a, b, c], TriangleKind, fill)
  }

  /** Corners in the order origin, (origin.x, extension.y), extension,
      (extension.x, origin.y), all but the extension at the origin's depth. */
  function Rectangle(o: Vec3, e: Vec3, fill: bool): Shape
  {
    Wireframe2D([o, Vec3(o.x, e.y, o.z), e, Vec3(e.x, o.y, o.z)], RectangleKind, fill)
  }

  /** The segments a shape is drawn with, before any transform. */
  function Outline(s: Shape): seq<Segment>
  {
    ResolveEdges(s.coords, s.lines)
  }

  lemma PointOutline(p: Vec3)
    ensures |Outline(Point(p))| == 1
    ensures Outline(Point(p))[0].start == p
    ensures Outline(Point(p))[0].end.Sub(p) == Vec3(1.0, 0.0, 0.0)
  {
    ResolveAllInRange(Point(p).coords, Point(p).lines);
  }

  lemma LineOutline(a: Vec3, b: Vec3)
    ensures Outline(Line(a, b)) == [Segment(a, b)]
  {
    ResolveAllInRange(Line(a, b).coords, Line(a, b).lines);
  }

  /** A triangle is drawn as a closed chain through its three corners. */
  lemma TriangleOutline(a: Vec3, b: Vec3, c: Vec3, fill: bool)
    ensures Outline(Triangle(a, b, c, fill)) == [Segment(a, b), Segment(b, c), Segment(c, a)]
  {
    var t := Triangle(a, b, c, fill);
    CycleLinesClose(t.coords);
    assert t.lines == [Edge(0, 1), Edge(1, 2), Edge(2, 0)];
    ResolveAllInRange(t.coords, t.lines);
  }

  /** A rectangle is drawn as a closed chain of four sides, each parallel
      to an axis. */
  lemma RectangleOutline(o: Vec3, e: Vec3, fill: bool)
    ensures var r := Outline(Rectangle(o, e, fill));
      |r| == 4 && Clipping.ClosedChain(r)
      && forall i :: 0 <= i < 4 ==> r[i].start.x == r[i].end.x || r[i].start.y == r[i].end.y
  {
    var s := Rectangle(o, e, fill);
    CycleLinesClose(s.coords);
    assert s.lines == [Edge(0, 1), Edge(1, 2), Edge(2, 3), Edge(3, 0)];
    ResolveAllInRange(s.coords, s.lines);
  }

  // ------------------------------------------------------------------ sampling

  /** The four control points of one cubic segment. */
  datatype Control = Control(p0: Vec3, p1: Vec3, p2: Vec3, p3: Vec3)

  function Xs(g: Control): Vec4 { Vec4(g.p0.x, g.p1.x, g.p2.x, g.p3.x) }

  function Ys(g: Control): Vec4 { Vec4(g.p0.y, g.p1.y, g.p2.y, g.p3.y) }

  /** The step row [t^3, t^2, t, 1]. */
  function PowerRow(t: real): Vec4 { Vec4(t * t * t, t * t, t, 1.0) }

  const BezierBasis := Mat4(Vec4(-1.0, 3.0, -3.0, 1.0), Vec4(3.0, -6.0, 3.0, 0.0),
                            Vec4(-3.0, 3.0, 0.0, 0.0), Vec4(1.0, 0.0, 0.0, 0.0))

  /** One sixth of the uniform cubic B-spline matrix. */
  const BSplineBasis := Mat4(Vec4(-1.0 / 6.0, 3.0 / 6.0, -3.0 / 6.0, 1.0 / 6.0),
                             Vec4(3.0 / 6.0, -6.0 / 6.0, 3.0 / 6.0, 0.0),
                             Vec4(-3.0 / 6.0, 0.0, 3.0 / 6.0, 0.0),
                             Vec4(1.0 / 6.0, 4.0 / 6.0, 1.0 / 6.0, 0.0))

  /** `step_matrix * basis * geometry` for x and for y, with z = 0. */
  function Sample(m: Mat4, g: Control, t: real): Vec3
  {
    var w := RowMul(PowerRow(t), m);
    Vec3(Dot4(w, Xs(g)), Dot4(w, Ys(g)), 0.0)
  }

  /** The cubic with coefficients c (highest power first). */
  function Cubic(c: Vec4, t: real): real { Dot4(PowerRow(t), c) }

  /** A sample is the cubic whose coefficients are basis * geometry. */
  lemma SampleAsCubic(m: Mat4, g: Control, t: real)
    ensures Sample(m, g, t) == Vec3(Cubic(Apply(m, Xs(g)), t), Cubic(Apply(m, Ys(g)), t), 0.0)
  {
    RowMulDot(PowerRow(t), m, Xs(g));
    RowMulDot(PowerRow(t), m, Ys(g));
  }

  /** The cubic Bernstein form of four values. */
  function Bernstein(a: Vec4, t: real): real
  {
    var s := 1.0 - t;
    s * s * s * a.x + 3.0 * t * s * s * a.y + 3.0 * t * t * s * a.z + t * t * t * a.w
  }

  /** The Bézier basis matrix evaluates the Bernstein cubic. */
  lemma BezierIsBernstein(g: Control, t: real)
    ensures Sample(BezierBasis, g, t) == Vec3(Bernstein(Xs(g), t), Bernstein(Ys(g), t), 0.0)
  {
    BezierWeights(t);
    BernsteinWeights(Xs(g), t);
    BernsteinWeights(Ys(g), t);
  }

  /** [t^3, t^2, t, 1] times the Bézier matrix. */
  lemma BezierWeights(t: real)
    ensures RowMul(PowerRow(t), BezierBasis)
         == Vec4(-(t * t * t) + 3.0 * (t * t) - 3.0 * t + 1.0, 3.0 * (t * t * t) - 6.0 * (t * t) + 3.0 * t,
                 -3.0 * (t * t * t) + 3.0 * (t * t), t * t * t)
  {
  }

  lemma BernsteinWeights(a: Vec4, t: real)
    ensures Bernstein(a, t)
         == Dot4(Vec4(-(t * t * t) + 3.0 * (t * t) - 3.0 * t + 1.0, 3.0 * (t * t * t) - 6.0 * (t * t) + 3.0 * t,
                      -3.0 * (t * t * t) + 3.0 * (t * t), t * t * t), a)
  {
    var s := 1.0 - t;
    assert s * s * s == -(t * t * t) + 3.0 * (t * t) - 3.0 * t + 1.0;
    assert 3.0 * t * s * s == 3.0 * (t * t * t) - 6.0 * (t * t) + 3.0 * t;
    assert 3.0 * t * t * s == -3.0 * (t * t * t) + 3.0 * (t * t);
  }

  /** A Bézier segment starts at its first control point and ends at its last. */
  lemma BezierStart(g: Control)
    ensures Sample(BezierBasis, g, 0.0) == Vec3(g.p0.x, g.p0.y, 0.0)
  {
    assert RowMul(PowerRow(0.0), BezierBasis) == Vec4(1.0, 0.0, 0.0, 0.0) by {
      BezierWeights(0.0);
    }
  }

  lemma BezierEnd(g: Control)
    ensures Sample(BezierBasis, g, 1.0) == Vec3(g.p3.x, g.p3.y, 0.0)
  {
    assert RowMul(PowerRow(1.0), BezierBasis) == Vec4(0.0, 0.0, 0.0, 1.0) by {
      BezierWeights(1.0);
    }
  }

  /** The uniform cubic B-spline blend of four values. */
  function BSplineBlend(a: Vec4, t: real): real
  {
    var s := 1.0 - t;
    (s * s * s * a.x + (3.0 * t * t * t - 6.0 * t * t + 4.0) * a.y
     + (-3.0 * t * t * t + 3.0 * t * t + 3.0 * t + 1.0) * a.z + t * t * t * a.w) / 6.0
  }

  lemma BSplineIsBlend(g: Control, t: real)
    ensures Sample(BSplineBasis, g, t) == Vec3(BSplineBlend(Xs(g), t), BSplineBlend(Ys(g), t), 0.0)
  {
  }

  /** The blend weights sum to one: four copies of a point give the point. */
  lemma BSplineOfRepeatedPoint(p: Vec3, t: real)
    ensures Sample(BSplineBasis, Control(p, p, p, p), t) == Vec3(p.x, p.y, 0.0)
  {
    BSplineIsBlend(Control(p, p, p, p), t);
  }

  /** Consecutive B-spline segments meet: the end of the segment on a, b, c, d
      is the start of the segment on b, c, d, e. */
  lemma BSplineJoins(a: Vec3, b: Vec3, c: Vec3, d: Vec3, e: Vec3)
    ensures Sample(BSplineBasis, Control(a, b, c, d), 1.0) == Sample(BSplineBasis, Control(b, c, d, e), 0.0)
  {
    assert PowerRow(1.0) == Vec4(1.0, 1.0, 1.0, 1.0);
    assert RowMul(PowerRow(1.0), BSplineBasis) == Vec4(0.0, 1.0 / 6.0, 4.0 / 6.0, 1.0 / 6.0);
    assert PowerRow(0.0) == Vec4(0.0, 0.0, 0.0, 1.0);
    assert RowMul(PowerRow(0.0), BSplineBasis) == Vec4(1.0 / 6.0, 4.0 / 6.0, 1.0 / 6.0, 0.0);
  }

  /** The samples at t = k / steps for k < count. */
  function Samples(m: Mat4, g: Control, steps: nat, count: nat): (r: seq<Vec3>)
    requires count == 0 || steps > 0
    ensures |r| == count
  {
    seq(count, k requires 0 <= k < count => Sample(m, g, k as real / steps as real))
  }

  // -------------------------------------------------------------------- Bézier

  /** `generate_curve_coords`: `steps` samples at t = step / steps, from the
      start of the segment up to, not including, its end. */
  method CurveCoords(g: Control, steps: nat) returns (curve: seq<Vec3>)
    ensures curve == Samples(BezierBasis, g, steps, steps)
  {
    curve := [];
    for step := 0 to steps
      invariant curve == Samples(BezierBasis, g, steps, step)
    {
      var t := step as real / steps as real;
      var w := RowMul(PowerRow(t), BezierBasis);
      curve := curve + [Vec3(Dot4(w, Xs(g)), Dot4(w, Ys(g)), 0.0)];
    }
  }

  /** The first sample of a segment is its start point. */
  lemma CurveStartsAtStart(g: Control, steps: nat)
    requires steps > 0
    ensures Samples(BezierBasis, g, steps, steps)[0] == Vec3(g.p0.x, g.p0.y, 0.0)
  {
    assert 0 as real / steps as real == 0.0;
    BezierStart(g);
  }

  /** The number of cubic segments in n = 3k + 1 control points. */
  function BezierSegments(n: nat): nat
  {
    if n == 0 then 0 else (n - 1) / 3
  }

  /** Segment j of a Bézier curve: control points 3j to 3j + 3. */
  function BezierSegment(points: seq<Vec3>, j: nat): Control
    requires 3 * j + 3 < |points|
  {
    Control(points[3 * j], points[3 * j + 1], points[3 * j + 2], points[3 * j + 3])
  }

  /** The samples of the first k segments, in order. */
  function BezierSpec(points: seq<Vec3>, steps: nat, k: nat): (r: seq<Vec3>)
    requires 3 * k < |points| || k == 0
    ensures |r| == k * steps
  {
    if k == 0 then [] else BezierSpec(points, steps, k - 1) + Samples(BezierBasis, BezierSegment(points, k - 1), steps, steps)
  }

  /** `BezierCurve.__init__`'s sampling loop: stride 3, stopping at the last
      control point. Other counts than 3k + 1 (and 0) index out of range. */
  method BezierCoords(points: seq<Vec3>, steps: nat) returns (coords: seq<Vec3>)
    requires |points| == 0 || |points| % 3 == 1
    ensures coords == BezierSpec(points, steps, BezierSegments(|points|))
    ensures |coords| == BezierSegments(|points|) * steps
  {
    coords := [];
    var i := 0;
    ghost var k := 0;
    ghost var q := BezierSegments(|points|);
    assert |points| == 0 || |points| - 1 == 3 * q;
    while i < |points|
      invariant i == 3 * k && k <= q
      invariant |points| == 0 || |points| - 1 == 3 * q
      invariant coords == BezierSpec(points, steps, k)
    {
      if i == |points| - 1 {
        break;
      }
      var segment := CurveCoords(Control(points[i], points[i + 1], points[i + 2], points[i + 3]), steps);
      coords := coords + segment;
      i := i + 3;
      k := k + 1;
    }
  }

  /** A Bézier curve: its samples joined by the open chain. */
  function BezierCurve(points: seq<Vec3>, steps: nat): Shape
    requires |points| == 0 || |points| % 3 == 1
  {
    var cs := BezierSpec(points, steps, BezierSegments(|points|));
    Shape(cs, Chain(|cs|), BezierKind, false, false)
  }

  /** k segments of `steps` samples give k * steps points and one edge less. */
  lemma BezierCurveCounts(points: seq<Vec3>, steps: nat)
    requires |points| % 3 == 1 && steps > 0
    ensures |BezierCurve(points, steps).coords| == (|points| - 1) / 3 * steps
    ensures |BezierCurve(points, steps).lines| == |BezierCurve(points, steps).coords| - 1 || |points| == 1
  {
  }

  // ------------------------------------------------------------------- splines

  /** The control points of spline segment i, wrapping around. */
  function SplineControl(points: seq<Vec3>, i: nat): Control
    requires |points| > 0
  {
    var n := |points|;
    Control(points[i % n], points[(i + 1) % n], points[(i + 2) % n], points[(i + 3) % n])
  }

  /** Closed: one segment per point. Open: one per window of four points. */
  function SplineSegments(n: nat, closed: bool): nat
  {
    if closed then n else if n >= 3 then n - 3 else 0
  }

  /** The first k segments, `count` samples each, in order. */
  function SplineSpec(points: seq<Vec3>, steps: nat, count: nat, k: nat): (r: seq<Vec3>)
    requires k == 0 || |points| > 0
    requires count == 0 || steps > 0
    ensures |r| == k * count
  {
    if k == 0 then []
    else SplineSpec(points, steps, count, k - 1) + Samples(BSplineBasis, SplineControl(points, k - 1), steps, count)
  }

  /** The direct indices of an inner window agree with the wrapped ones. */
  lemma InnerWindow(points: seq<Vec3>, i: nat)
    requires i + 3 < |points|
    ensures SplineControl(points, i) == Control(points[i], points[i + 1], points[i + 2], points[i + 3])
  {
    var n := |points|;
    assert i % n == i && (i + 1) % n == i + 1 && (i + 2) % n == i + 2 && (i + 3) % n == i + 3;
  }

  /** `generate_spline_coords`: for each window of four points (wrapping
      around when closed, stopping at the first incomplete one when open),
      `steps` samples of T(t) * M * G. */
  method SplineCoords(points: seq<Vec3>, steps: nat, closed: bool) returns (coords: seq<Vec3>)
    ensures coords == SplineSpec(points, steps, steps, SplineSegments(|points|, closed))
  {
    coords := [];
    var i := 0;
    while i < |points|
      invariant i <= SplineSegments(|points|, closed)
      invariant coords == SplineSpec(points, steps, steps, i)
    {
      var g: Control;
      if i + 3 < |points| {
        g := Control(points[i], points[i + 1], points[i + 2], points[i + 3]);
        InnerWindow(points, i);
      } else if closed {
        var n := |points|;
        g := Control(points[i % n], points[(i + 1) % n], points[(i + 2) % n], points[(i + 3) % n]);
      } else {
        break;
      }
      ghost var before := coords;
      for step := 0 to steps
        invariant coords == before + Samples(BSplineBasis, g, steps, step)
      {
        var t := step as real / steps as real;
        var w := RowMul(PowerRow(t), BSplineBasis);
        coords := coords + [Vec3(Dot4(w, Xs(g)), Dot4(w, Ys(g)), 0.0)];
      }
      i := i + 1;
    }
  }

  /** The forward-difference matrix E(delta). */
  function DifferenceMatrix(d: real): Mat4
  {
    Mat4(Vec4(0.0, 0.0, 0.0, 1.0),
         Vec4(d * d * d, d * d, d, 0.0),
         Vec4(6.0 * d * d * d, 2.0 * d * d, 0.0, 0.0),
         Vec4(6.0 * d * d * d, 0.0, 0.0, 0.0))
  }

  /** The running sums after k steps of size d: the value at k d and its
      first, second and third forward differences. */
  predicate Differences(c: Vec4, d: real, k: nat, v: real, d1: real, d2: real, d3: real)
  {
    var u := k as real * d;
    v == Cubic(c, u)
    && d1 == Cubic(c, u + d) - Cubic(c, u)
    && d2 == Cubic(c, u + 2.0 * d) - 2.0 * Cubic(c, u + d) + Cubic(c, u)
    && d3 == 6.0 * c.x * (d * d * d)
  }

  /** The third forward difference of a cubic is constant. */
  lemma ThirdDifference(c: Vec4, u: real, d: real)
    ensures Cubic(c, u + 3.0 * d) - 3.0 * Cubic(c, u + 2.0 * d) + 3.0 * Cubic(c, u + d) - Cubic(c, u)
         == 6.0 * c.x * (d * d * d)
  {
  }

  /** E(d) * C holds the initial conditions. */
  lemma DifferencesStart(c: Vec4, d: real)
    ensures var e := Apply(DifferenceMatrix(d), c);
      Differences(c, d, 0, e.x, e.y, e.z, e.w)
  {
  }

  /** One round of running sums advances the differences by one step. */
  lemma DifferencesStep(c: Vec4, d: real, k: nat, v: real, d1: real, d2: real, d3: real)
    requires Differences(c, d, k, v, d1, d2, d3)
    ensures Differences(c, d, k + 1, v + d1, d1 + d2, d2 + d3, d3)
  {
    var u := k as real * d;
    assert (k + 1) as real * d == u + d;
    ThirdDifference(c, u, d);
  }

  /** Sample k of a segment is the cubic at k times 1 / steps. */
  lemma SampleAtStep(g: Control, steps: nat, k: nat)
    requires steps > 0
    ensures var d := 1.0 / steps as real;
      Sample(BSplineBasis, g, k as real / steps as real)
      == Vec3(Cubic(Apply(BSplineBasis, Xs(g)), k as real * d), Cubic(Apply(BSplineBasis, Ys(g)), k as real * d), 0.0)
  {
    assert k as real / steps as real == k as real * (1.0 / steps as real);
    SampleAsCubic(BSplineBasis, g, k as real / steps as real);
  }

  /** The point (cubic x, cubic y, 0) at t = k * d. */
  function CubicPoint(cx: Vec4, cy: Vec4, d: real, k: nat): Vec3
  {
    Vec3(Cubic(cx, k as real * d), Cubic(cy, k as real * d), 0.0)
  }

  /** The cubic points for k < count. */
  function CubicSamples(cx: Vec4, cy: Vec4, d: real, count: nat): (r: seq<Vec3>)
    ensures |r| == count
  {
    seq(count, k requires 0 <= k < count => CubicPoint(cx, cy, d, k))
  }

  /** With the B-spline coefficients and d = 1 / steps these are the
      direct samples. */
  lemma CubicSamplesAreSamples(g: Control, steps: nat, count: nat)
    requires steps > 0
    ensures CubicSamples(Apply(BSplineBasis, Xs(g)), Apply(BSplineBasis, Ys(g)), 1.0 / steps as real, count)
         == Samples(BSplineBasis, g, steps, count)
  {
    var cx, cy := Apply(BSplineBasis, Xs(g)), Apply(BSplineBasis, Ys(g));
    var d := 1.0 / steps as real;
    var a := CubicSamples(cx, cy, d, count);
    var b := Samples(BSplineBasis, g, steps, count);
    forall k | 0 <= k < count
      ensures a[k] == b[k]
    {
      assert a[k] == CubicPoint(cx, cy, d, k);
      assert b[k] == Sample(BSplineBasis, g, k as real / steps as real);
      SampleAtStep(g, steps, k);
    }
    assert a == b;
  }

  lemma CubicSamplesAppend(cx: Vec4, cy: Vec4, d: real, k: nat)
    ensures CubicSamples(cx, cy, d, k + 1)
         == CubicSamples(cx, cy, d, k) + [CubicPoint(cx, cy, d, k)]
  {
  }

  /** The running sums of `generate_spline_coords_fwd` for coefficient
      vectors cx and cy: the initial conditions E(d) * c, then `steps`
      rounds of additions, each appending a point. */
  method RunningSums(cx: Vec4, cy: Vec4, delta: real, steps: nat) returns (pts: seq<Vec3>)
    ensures pts == CubicSamples(cx, cy, delta, steps + 1)
  {
    var ix := Apply(DifferenceMatrix(delta), cx);
    var iy := Apply(DifferenceMatrix(delta), cy);
    var x, dx, d2x, d3x := ix.x, ix.y, ix.z, ix.w;
    var y, dy, d2y, d3y := iy.x, iy.y, iy.z, iy.w;
    DifferencesStart(cx, delta);
    DifferencesStart(cy, delta);
    pts := [Vec3(x, y, 0.0)];
    for k := 0 to steps
      invariant Differences(cx, delta, k, x, dx, d2x, d3x)
      invariant Differences(cy, delta, k, y, dy, d2y, d3y)
      invariant pts == CubicSamples(cx, cy, delta, k + 1)
    {
      DifferencesStep(cx, delta, k, x, dx, d2x, d3x);
      DifferencesStep(cy, delta, k, y, dy, d2y, d3y);
      x := x + dx;
      y := y + dy;
      dx := dx + d2x;
      dy := dy + d2y;
      d2x := d2x + d3x;
      d2y := d2y + d3y;
      CubicSamplesAppend(cx, cy, delta, k + 1);
      assert x == Cubic(cx, (k + 1) as real * delta) && y == Cubic(cy, (k + 1) as real * delta);
      assert CubicPoint(cx, cy, delta, k + 1) == Vec3(x, y, 0.0);
      pts := pts + [Vec3(x, y, 0.0)];
      assert pts == CubicSamples(cx, cy, delta, k + 2);
    }
  }

  /** The inner loop of `generate_spline_coords_fwd` for one window:
      coefficients M * G, then the running sums with delta = 1 / steps. */
  method ForwardSegment(g: Control, steps: nat) returns (pts: seq<Vec3>)
    requires steps > 0
    ensures pts == Samples(BSplineBasis, g, steps, steps + 1)
  {
    var delta := 1.0 / steps as real;
    var cx := Apply(BSplineBasis, Xs(g));
    var cy := Apply(BSplineBasis, Ys(g));
    pts := RunningSums(cx, cy, delta, steps);
    CubicSamplesAreSamples(g, steps, steps + 1);
  }

  /** `generate_spline_coords_fwd`: the same windows as the direct version,
      `steps + 1` points each by forward differences. */
  method SplineCoordsForward(points: seq<Vec3>, steps: nat, closed: bool) returns (coords: seq<Vec3>)
    requires steps > 0
    ensures coords == SplineSpec(points, steps, steps + 1, SplineSegments(|points|, closed))
  {
    coords := [];
    var i := 0;
    while i < |points|
      invariant i <= SplineSegments(|points|, closed)
      invariant coords == SplineSpec(points, steps, steps + 1, i)
    {
      var g: Control;
      if i + 3 < |points| {
        g := Control(points[i], points[i + 1], points[i + 2], points[i + 3]);
        InnerWindow(points, i);
      } else if closed {
        var n := |points|;
        g := Control(points[i % n], points[(i + 1) % n], points[(i + 2) % n], points[(i + 3) % n]);
      } else {
        break;
      }
      var segment := ForwardSegment(g, steps);
      coords := coords + segment;
      i := i + 1;
    }
  }

  /** A spline: sampled directly or by forward differences, joined by the
      spline edges. */
  function SplineCurve(points: seq<Vec3>, fill: bool, closed: bool, steps: nat, forwardDiff: bool): Shape
    requires forwardDiff ==> steps > 0
  {
    var segments := SplineSegments(|points|, closed);
    var cs := if forwardDiff then SplineSpec(points, steps, steps + 1, segments)
              else SplineSpec(points, steps, steps, segments);
    Shape(cs, SplineLines(|cs|, closed), SplineKind, fill, closed)
  }

  lemma MulStep(j: nat, m: nat, per: nat, k: nat)
    requires j < m && k < per
    ensures j * per + k < m * per
  {
    assert j * per + k < j * per + per == (j + 1) * per;
    assert (j + 1) * per <= m * per;
  }

  /** Sample k of segment j sits at position j * count + k. */
  lemma {:induction false} SplineSpecAt(points: seq<Vec3>, steps: nat, count: nat, m: nat, j: nat, k: nat)
    requires |points| > 0 && steps > 0 && j < m && k < count
    ensures j * count + k < |SplineSpec(points, steps, count, m)|
    ensures SplineSpec(points, steps, count, m)[j * count + k]
         == Sample(BSplineBasis, SplineControl(points, j), k as real / steps as real)
  {
    MulStep(j, m, count, k);
    var prev := SplineSpec(points, steps, count, m - 1);
    if j < m - 1 {
      SplineSpecAt(points, steps, count, m - 1, j, k);
    } else {
      assert j * count + k == |prev| + k;
    }
  }

  /** Each forward-difference segment holds the direct samples, in the same
      order, followed by one more point, its t = 1 end. */
  lemma ForwardExtendsDirect(points: seq<Vec3>, steps: nat, m: nat, j: nat, k: nat)
    requires |points| > 0 && steps > 0 && j < m && k < steps
    ensures j * (steps + 1) + k < |SplineSpec(points, steps, steps + 1, m)|
    ensures j * steps + k < |SplineSpec(points, steps, steps, m)|
    ensures SplineSpec(points, steps, steps + 1, m)[j * (steps + 1) + k]
         == SplineSpec(points, steps, steps, m)[j * steps + k]
  {
    SplineSpecAt(points, steps, steps + 1, m, j, k);
    SplineSpecAt(points, steps, steps, m, j, k);
  }

  lemma ForwardSegmentEnd(points: seq<Vec3>, steps: nat, m: nat, j: nat)
    requires |points| > 0 && steps > 0 && j < m
    ensures j * (steps + 1) + steps < |SplineSpec(points, steps, steps + 1, m)|
    ensures SplineSpec(points, steps, steps + 1, m)[j * (steps + 1) + steps]
         == Sample(BSplineBasis, SplineControl(points, j), 1.0)
  {
    var r := steps as real;
    assert r > 0.0;
    assert r / r == 1.0;
    SplineSpecAt(points, steps, steps + 1, m, j, steps);
  }

  /** The extra point of a forward-difference segment repeats the first
      point of the next segment. */
  lemma ForwardEndRepeats(points: seq<Vec3>, j: nat)
    requires |points| > 0
    ensures Sample(BSplineBasis, SplineControl(points, j), 1.0)
         == Sample(BSplineBasis, SplineControl(points, j + 1), 0.0)
  {
    var n := |points|;
    var a := SplineControl(points, j);
    var b := SplineControl(points, j + 1);
    assert (j + 1) % n == (j + 1) % n && (j + 2) % n == (j + 1 + 1) % n;
    assert b.p0 == a.p1 && b.p1 == a.p2 && b.p2 == a.p3;
    BSplineJoins(a.p0, a.p1, a.p2, a.p3, b.p3);
  }
}
