/** The renderable object of backend/objects/object.py: world coordinates,
    their projected and normalized images, an index edge list and the
    segments resolved from it, all moved by one `Transform`. */
module Objects {
  import opened Vectors
  import opened Matrices
  import opened Outcomes
  import Transforms

  /** An index edge (a, b) into a coordinate list. */
  datatype Edge = Edge(a: nat, b: nat)

  /** A resolved line: its two end points. */
  datatype Segment = Segment(start: Vec3, end: Vec3)

  datatype ObjectKind =
    | NullKind | PointKind | LineKind | TriangleKind | RectangleKind | PolygonKind
    | Polygon3DKind | BezierKind | SplineKind | ParallelepipedKind | SurfaceKind

  /** The sum of a coordinate list, accumulated left to right. */
  function Sum(cs: seq<Vec3>): Vec3
  {
    if cs == [] then Zero else Sum(cs[..|cs| - 1]).Add(cs[|cs| - 1])
  }

  /** The arithmetic mean. */
  function Mean(cs: seq<Vec3>): Vec3
    requires |cs| > 0
  {
    Sum(cs).Div(|cs| as real)
  }

  function Translated(cs: seq<Vec3>, d: Vec3): (r: seq<Vec3>)
    ensures |r| == |cs|
  {
    seq(|cs|, i requires 0 <= i < |cs| => cs[i].Add(d))
  }

  /** The accumulator loop of `calculate_center`. */
  method Centre(cs: seq<Vec3>) returns (c: Vec3)
    requires |cs| > 0
    ensures c == Mean(cs)
  {
    var sum := Zero;
    var i := 0;
    while i < |cs|
      invariant 0 <= i <= |cs|
      invariant sum == Sum(cs[..i])
    {
      assert cs[..i + 1][..i] == cs[..i];
      sum := sum.Add(cs[i]);
      i := i + 1;
    }
    assert cs[..|cs|] == cs;
    c := sum.Div(|cs| as real);
  }

  /** Moving every coordinate by d adds n d to the sum. */
  lemma {:induction false} SumTranslated(cs: seq<Vec3>, d: Vec3)
    ensures Sum(Translated(cs, d)) == Sum(cs).Add(d.Scale(|cs| as real))
  {
    if cs == [] {
      assert d.Scale(0.0) == Zero;
    } else {
      var n := |cs|;
      var init := cs[..n - 1];
      var t := Translated(cs, d);
      assert t[..n - 1] == Translated(init, d);
      assert t[n - 1] == cs[n - 1].Add(d);
      SumTranslated(init, d);
      var k := (n - 1) as real;
      ScaleStep(d, k);
      assert Sum(t) == Sum(Translated(init, d)).Add(cs[n - 1].Add(d));
      assert Sum(cs) == Sum(init).Add(cs[n - 1]);
    }
  }

  lemma ScaleStep(d: Vec3, k: real)
    ensures d.Scale(k).Add(d) == d.Scale(k + 1.0)
  {
  }

  /** The centre follows a translation: mean(cs + d) = mean(cs) + d. */
  lemma MeanTranslated(cs: seq<Vec3>, d: Vec3)
    requires |cs| > 0
    ensures Mean(Translated(cs, d)) == Mean(cs).Add(d)
  {
    SumTranslated(cs, d);
    var n := |cs| as real;
    var s := Sum(cs);
    assert d.Scale(n).Div(n) == d;
    assert s.Add(d.Scale(n)).Div(n) == s.Div(n).Add(d.Scale(n).Div(n));
  }

  /** The centre of one point is that point. */
  lemma MeanSingle(p: Vec3)
    ensures Mean([p]) == p
  {
    assert [p][..0] == [];
    assert Sum([p]) == Zero.Add(p);
  }

  /** The per-axis reciprocals of a scale. */
  function Reciprocal(s: Vec3): (r: Vec3)
    requires s.x != 0.0 && s.y != 0.0 && s.z != 0.0
    ensures r.x * s.x == 1.0 && r.y * s.y == 1.0 && r.z * s.z == 1.0
  {
    Vec3(1.0 / s.x, 1.0 / s.y, 1.0 / s.z)
  }

  predicate InRange(e: Edge, n: nat) { e.a < n && e.b < n }

  /** What `generate_vector_lines` builds: in order, the segment of each edge
      whose two indices are in range; any other edge is skipped whole. */
  function ResolveEdges(nc: seq<Vec3>, ls: seq<Edge>): (r: seq<Segment>)
    ensures |r| <= |ls|
  {
    if ls == [] then []
    else
      var e := ls[|ls| - 1];
      ResolveEdges(nc, ls[..|ls| - 1]) + (if InRange(e, |nc|) then [Segment(nc[e.a], nc[e.b])] else [])
  }

  /** With every index in range, one segment per edge, in edge order. */
  lemma {:induction false} ResolveAllInRange(nc: seq<Vec3>, ls: seq<Edge>)
    requires forall i :: 0 <= i < |ls| ==> ls[i].a < |nc| && ls[i].b < |nc|
    ensures |ResolveEdges(nc, ls)| == |ls|
    ensures forall i :: 0 <= i < |ls| ==> ResolveEdges(nc, ls)[i] == Segment(nc[ls[i].a], nc[ls[i].b])
  {
    if ls != [] {
      var init := ls[..|ls| - 1];
      ResolveAllInRange(nc, init);
      var e := ls[|ls| - 1];
      assert InRange(e, |nc|);
      var r := ResolveEdges(nc, ls);
      assert r == ResolveEdges(nc, init) + [Segment(nc[e.a], nc[e.b])];
      forall i | 0 <= i < |ls|
        ensures r[i] == Segment(nc[ls[i].a], nc[ls[i].b])
      {
        if i < |ls| - 1 {
          assert ls[i] == init[i];
        }
      }
    }
  }

  /** Every resolved end point is one of the coordinates. */
  lemma {:induction false} ResolveEndpoints(nc: seq<Vec3>, ls: seq<Edge>)
    ensures forall s :: s in ResolveEdges(nc, ls) ==> s.start in nc && s.end in nc
  {
    if ls != [] {
      ResolveEndpoints(nc, ls[..|ls| - 1]);
    }
  }

  /** An edge list with an out-of-range index resolves to fewer segments. */
  lemma {:induction false} ResolveDropsOutOfRange(nc: seq<Vec3>, ls: seq<Edge>, j: nat)
    requires j < |ls| && !InRange(ls[j], |nc|)
    ensures |ResolveEdges(nc, ls)| < |ls|
  {
    var n := |ls|;
    if j < n - 1 {
      ResolveDropsOutOfRange(nc, ls[..n - 1], j);
    }
  }

  class Object {
    var fill: bool
    var closed: bool
    var kind: ObjectKind
    var coords: seq<Vec3>
    var normalizedCoords: seq<Vec3>
    var projectedCoords: seq<Vec3>
    var lines: seq<Edge>
    var vectorLines: seq<Segment>
    const transform: Transforms.Transform

    predicate Valid()
      reads this, transform
    {
      transform.Valid()
    }

    /** Coordinates copied, projected and normalized images equal to them,
        the transform anchored at their centre, segments resolved at once. */
    constructor (cs: seq<Vec3>, ls: seq<Edge>, kind: ObjectKind, fill: bool, closed: bool)
      requires |cs| > 0
      ensures Valid() && fresh(transform)
      ensures coords == cs && normalizedCoords == cs && projectedCoords == cs && lines == ls
      ensures this.kind == kind && this.fill == fill && this.closed == closed
      ensures transform.Position() == Mean(cs)
      ensures vectorLines == ResolveEdges(cs, ls)
    {
      this.fill := fill;
      this.closed := closed;
      this.kind := kind;
      coords := cs;
      normalizedCoords := cs;
      projectedCoords := cs;
      lines := ls;
      vectorLines := [];
      var centre := Centre(cs);
      transform := new Transforms.Transform(centre);
      new;
      GenerateVectorLines();
    }

    /** `calculate_center`. */
    method CalculateCenter() returns (c: Vec3)
      requires |coords| > 0
      ensures c == Mean(coords)
    {
      c := Centre(coords);
    }

    /** Clears `vectorLines` and rebuilds them from the normalized coordinates. */
    method GenerateVectorLines()
      modifies this
      ensures vectorLines == ResolveEdges(normalizedCoords, lines)
      ensures coords == old(coords) && normalizedCoords == old(normalizedCoords)
      ensures projectedCoords == old(projectedCoords) && lines == old(lines)
      ensures fill == old(fill) && closed == old(closed) && kind == old(kind)
    {
      vectorLines := [];
      var i := 0;
      while i < |lines|
        invariant 0 <= i <= |lines|
        invariant vectorLines == ResolveEdges(normalizedCoords, lines[..i])
        invariant coords == old(coords) && normalizedCoords == old(normalizedCoords)
        invariant projectedCoords == old(projectedCoords) && lines == old(lines)
        invariant fill == old(fill) && closed == old(closed) && kind == old(kind)
      {
        var e := lines[i];
        if e.a < |normalizedCoords| && e.b < |normalizedCoords| {
          vectorLines := vectorLines + [Segment(normalizedCoords[e.a], normalizedCoords[e.b])];
        }
        assert lines[..i + 1][..i] == lines[..i];
        i := i + 1;
      }
      assert lines[..|lines|] == lines;
    }

    method Translate(d: Vec3)
      requires Valid()
      modifies this, transform
      ensures Valid()
      ensures coords == Translated(old(coords), d)
      ensures transform.Position() == old(transform.Position()).Add(d)
      ensures transform.matrix == Mul(Translation(d), old(transform.matrix))
      ensures normalizedCoords == old(normalizedCoords) && projectedCoords == old(projectedCoords)
      ensures lines == old(lines) && vectorLines == old(vectorLines)
      ensures fill == old(fill) && closed == old(closed) && kind == old(kind)
    {
      coords := transform.Translate(d, coords);
    }

    method Rotate(turn: Angles, origin: Option<Vec3>)
      requires Valid()
      modifies this, transform
      ensures Valid()
      ensures var o := if origin.Some? then origin.value else old(transform.Position());
        var m := Transforms.RelativeRotation(o, turn);
        coords == MultiplyVectors(m, old(coords)) &&
        transform.matrix == Mul(m, old(transform.matrix)) &&
        transform.Position() == Drop3(Apply(m, Homogeneous(old(transform.Position()))))
      ensures origin.None? ==> transform.Position() == old(transform.Position())
      ensures normalizedCoords == old(normalizedCoords) && projectedCoords == old(projectedCoords)
      ensures lines == old(lines) && vectorLines == old(vectorLines)
      ensures fill == old(fill) && closed == old(closed) && kind == old(kind)
    {
      coords := transform.Rotate(turn, coords, origin);
    }

    /** `rescale`; `current` is the transform's rotation readback as
        (cos, sin) pairs. */
    method Rescale(s: Vec3, current: Angles)
      requires Valid()
      modifies this, transform
      ensures Valid()
      ensures var m := Transforms.RelativeScaling(old(transform.Position()), current, s);
        coords == MultiplyVectors(m, old(coords)) && transform.matrix == Mul(m, old(transform.matrix))
      ensures transform.Position() == old(transform.Position())
      ensures normalizedCoords == old(normalizedCoords) && projectedCoords == old(projectedCoords)
      ensures lines == old(lines) && vectorLines == old(vectorLines)
      ensures fill == old(fill) && closed == old(closed) && kind == old(kind)
    {
      coords := transform.Rescale(s, current, coords);
    }

    /** `normalize`: the projected coordinates through the window's
        normalization, with the reciprocals of the window scale. */
    method Normalize(windowCenter: Vec3, windowScale: Vec3, zTurn: CosSin)
      requires windowScale.x != 0.0 && windowScale.y != 0.0 && windowScale.z != 0.0
      modifies this
      ensures normalizedCoords == Transforms.Normalize(windowCenter, zTurn, Reciprocal(windowScale), projectedCoords)
      ensures coords == old(coords) && projectedCoords == old(projectedCoords)
      ensures lines == old(lines) && vectorLines == old(vectorLines)
      ensures fill == old(fill) && closed == old(closed) && kind == old(kind)
    {
      normalizedCoords := Transforms.Normalize(windowCenter, zTurn, Reciprocal(windowScale), projectedCoords);
    }

    /** `project`: writes only the projected coordinates. */
    method Project(cop: Vec3, xTurn: CosSin, yTurn: CosSin, copDistance: real)
      requires copDistance != 0.0
      modifies this
      ensures projectedCoords == Transforms.Projected(cop, xTurn, yTurn, copDistance, coords, false)
      ensures coords == old(coords) && normalizedCoords == old(normalizedCoords)
      ensures lines == old(lines) && vectorLines == old(vectorLines)
      ensures fill == old(fill) && closed == old(closed) && kind == old(kind)
    {
      projectedCoords := Transforms.Project(cop, xTurn, yTurn, copDistance, coords, false);
    }
  }
}
