/** The earlier objects of internals/wireframes.py. Unlike the later
    objects, which keep index edges and resolve them on demand, these
    rebuild their `lines` as pairs of normalized points each time they are
    normalized, and the rule for doing so belongs to each shape. */
module LegacyShapes {
  import opened Vectors
  import opened Matrices
  import opened Outcomes
  import opened Objects
  import Wireframes2D
  import LegacyTransforms

  /** Consecutive points joined, and the last back to the first. */
  function CycleSegments(nc: seq<Vec3>): (r: seq<Segment>)
    ensures |r| == |nc|
  {
    seq(|nc|, i requires 0 <= i < |nc| => Segment(nc[i], nc[if i < |nc| - 1 then i + 1 else 0]))
  }

  /** Consecutive points joined, with no closing segment. */
  function ChainSegments(nc: seq<Vec3>): (r: seq<Segment>)
    ensures |r| == if nc == [] then 0 else |nc| - 1
  {
    var m := if nc == [] then 0 else |nc| - 1;
    seq(m, i requires 0 <= i < m => Segment(nc[i], nc[i + 1]))
  }

  /** What each shape's `generate_lines` leaves in `lines`: a point or a line
      whose normalized coordinates have the wrong count keeps the previous
      lines; the polygons close their outline; a Bezier curve is open; a
      spline closes only when `closed`; 3D shapes resolve their index pairs,
      skipping any pair with an index out of range. */
  function LegacyLines(kind: ObjectKind, closed: bool, indexes: seq<Edge>, nc: seq<Vec3>,
                       previous: seq<Segment>): seq<Segment>
  {
    match kind
    case PointKind =>
      if |nc| > 0 then [Segment(nc[0], Vec3(nc[0].x + 1.0, nc[0].y, 0.0))] else previous
    case LineKind => if |nc| == 2 then [Segment(nc[0], nc[1])] else previous
    case TriangleKind | RectangleKind | PolygonKind => CycleSegments(nc)
    case BezierKind => ChainSegments(nc)
    case SplineKind => if closed then CycleSegments(nc) else ChainSegments(nc)
    case Polygon3DKind | ParallelepipedKind | SurfaceKind => ResolveEdges(nc, indexes)
    case NullKind => previous
  }

  /** The closed outline is the later index cycle resolved against the same
      points, so both generations draw a polygon alike. */
  lemma CycleAgrees(nc: seq<Vec3>)
    ensures CycleSegments(nc) == ResolveEdges(nc, Wireframes2D.Cycle(|nc|))
  {
    ResolveAllInRange(nc, Wireframes2D.Cycle(|nc|));
  }

  /** The open outline is the later index chain resolved. */
  lemma ChainAgrees(nc: seq<Vec3>)
    ensures ChainSegments(nc) == ResolveEdges(nc, Wireframes2D.Chain(|nc|))
  {
    ResolveAllInRange(nc, Wireframes2D.Chain(|nc|));
  }

  /** The closed outline is a closed chain: each segment starts where the
      previous one ended, and the last ends where the first starts. */
  lemma CycleCloses(nc: seq<Vec3>)
    requires |nc| > 0
    ensures forall i :: 0 < i < |nc| ==> CycleSegments(nc)[i].start == CycleSegments(nc)[i - 1].end
    ensures CycleSegments(nc)[|nc| - 1].end == CycleSegments(nc)[0].start
  {
  }

  /** The loop of `Wireframe2D.generate_lines` and of a closed spline. */
  method CycleLoop(nc: seq<Vec3>) returns (lines: seq<Segment>)
    ensures lines == CycleSegments(nc)
  {
    lines := [];
    for i := 0 to |nc|
      invariant |lines| == i
      invariant forall j :: 0 <= j < i ==> lines[j] == CycleSegments(nc)[j]
    {
      if i < |nc| - 1 {
        lines := lines + [Segment(nc[i], nc[i + 1])];
      } else {
        lines := lines + [Segment(nc[|nc| - 1], nc[0])];
      }
    }
  }

  /** The loop of `BezierCurve.generate_lines` and of an open spline. */
  method ChainLoop(nc: seq<Vec3>) returns (lines: seq<Segment>)
    ensures lines == ChainSegments(nc)
  {
    lines := [];
    var m := if nc == [] then 0 else |nc| - 1;
    for i := 0 to m
      invariant |lines| == i
      invariant forall j :: 0 <= j < i ==> lines[j] == ChainSegments(nc)[j]
    {
      lines := lines + [Segment(nc[i], nc[i + 1])];
    }
  }

  /** The loop of `Wireframe3D.generate_lines`. */
  method IndexLoop(nc: seq<Vec3>, indexes: seq<Edge>) returns (lines: seq<Segment>)
    ensures lines == ResolveEdges(nc, indexes)
  {
    lines := [];
    for i := 0 to |indexes|
      invariant lines == ResolveEdges(nc, indexes[..i])
    {
      var e := indexes[i];
      if e.a < |nc| && e.b < |nc| {
        lines := lines + [Segment(nc[e.a], nc[e.b])];
      }
      assert indexes[..i + 1][..i] == indexes[..i];
    }
    assert indexes[..|indexes|] == indexes;
  }

  class Object {
    var coords: seq<Vec3>
    var normalizedCoords: seq<Vec3>
    var projectedCoords: seq<Vec3>
    var lines: seq<Segment>
    const kind: ObjectKind
    const fill: bool
    const closed: bool
    /** `_lines_indexes` of the 3D shapes; empty for the others. */
    const indexes: seq<Edge>
    const transform: LegacyTransforms.Transform

    /** The three coordinate lists start as the same list; the transform
        sits at the centre with no rotation and unit scale; lines are built
        at once. */
    constructor (cs: seq<Vec3>, kind: ObjectKind, fill: bool, closed: bool, indexes: seq<Edge>)
      requires |cs| > 0
      ensures coords == cs && normalizedCoords == cs && projectedCoords == cs
      ensures this.kind == kind && this.fill == fill && this.closed == closed && this.indexes == indexes
      ensures fresh(transform)
      ensures transform.position == Mean(cs) && transform.rotation == Zero && transform.scale == Vec3(1.0, 1.0, 1.0)
      ensures lines == LegacyLines(kind, closed, indexes, cs, [])
    {
      coords := cs;
      normalizedCoords := cs;
      projectedCoords := cs;
      lines := [];
      this.kind := kind;
      this.fill := fill;
      this.closed := closed;
      this.indexes := indexes;
      var centre := Centre(cs);
      transform := new LegacyTransforms.Transform(centre, Zero, Vec3(1.0, 1.0, 1.0));
      new;
      GenerateLines();
    }

    /** `generate_lines`, dispatched on the shape. */
    method GenerateLines()
      modifies this
      ensures lines == LegacyLines(kind, closed, indexes, normalizedCoords, old(lines))
      ensures coords == old(coords) && normalizedCoords == old(normalizedCoords)
      ensures projectedCoords == old(projectedCoords)
    {
      var nc := normalizedCoords;
      match kind {
        case PointKind =>
          if |nc| > 0 {
            lines := [Segment(nc[0], Vec3(nc[0].x + 1.0, nc[0].y, 0.0))];
          }
        case LineKind =>
          if |nc| == 2 {
            lines := [Segment(nc[0], nc[1])];
          }
        case TriangleKind =>
          lines := CycleLoop(nc);
        case RectangleKind =>
          lines := CycleLoop(nc);
        case PolygonKind =>
          lines := CycleLoop(nc);
        case BezierKind =>
          lines := ChainLoop(nc);
        case SplineKind =>
          if closed {
            lines := CycleLoop(nc);
          } else {
            lines := ChainLoop(nc);
          }
        case Polygon3DKind =>
          lines := IndexLoop(nc, indexes);
        case ParallelepipedKind =>
          lines := IndexLoop(nc, indexes);
        case SurfaceKind =>
          lines := IndexLoop(nc, indexes);
        case NullKind =>
      }
    }

    /** `translate`; with `normalized` the direction is first turned by the
        object's own rotation (`turn` is its (cos, sin) pairs). */
    method Translate(direction: Vec3, normalized: bool, turn: Angles)
      modifies this, transform
      ensures var d := if normalized then Drop3(Apply(Rotation(turn, true), Homogeneous(direction))) else direction;
        coords == Translated(old(coords), d) && transform.position == old(transform.position).Add(d)
      ensures transform.rotation == old(transform.rotation) && transform.scale == old(transform.scale)
      ensures normalizedCoords == old(normalizedCoords) && projectedCoords == old(projectedCoords)
      ensures lines == old(lines)
    {
      var d := direction;
      if normalized {
        var p := transform.position;
        var turned := transform.Rotate(transform.rotation, turn, [direction.Add(p)], None, false);
        LegacyTransforms.NormalizedDirection(turn, p, direction);
        d := turned[0].Sub(p);
      }
      coords := transform.Translate(d, coords, true);
    }

    /** `rescale`: about the position, which stays. */
    method Rescale(s: Vec3)
      modifies this, transform
      ensures coords == LegacyTransforms.AllAboutAnchor(Scaling(s), old(transform.position), old(coords))
      ensures transform.scale == Vec3(old(transform.scale).x * s.x, old(transform.scale).y * s.y, old(transform.scale).z * s.z)
      ensures transform.position == old(transform.position) && transform.rotation == old(transform.rotation)
      ensures normalizedCoords == old(normalizedCoords) && projectedCoords == old(projectedCoords)
      ensures lines == old(lines)
    {
      coords := transform.Rescale(s, coords, None, true);
    }

    /** `rotate`: about `anchor`, by default the position, which then stays. */
    method Rotate(r: Vec3, turn: Angles, anchor: Option<Vec3>)
      modifies this, transform
      ensures var a := if anchor.Some? then anchor.value else old(transform.position);
        var m := Rotation(turn, true);
        coords == LegacyTransforms.AllAboutAnchor(m, a, old(coords))
        && transform.position == LegacyTransforms.AboutAnchor(m, a, old(transform.position))
      ensures transform.rotation == LegacyTransforms.Accumulated(old(transform.rotation), r)
      ensures anchor.None? ==> transform.position == old(transform.position)
      ensures transform.scale == old(transform.scale)
      ensures normalizedCoords == old(normalizedCoords) && projectedCoords == old(projectedCoords)
      ensures lines == old(lines)
    {
      coords := transform.Rotate(r, turn, coords, anchor, true);
    }

    /** `normalize`: the projected coordinates through the normalization
        with the reciprocal window scale, then the lines rebuilt. `turn` is
        the (cos, sin) pair of the negated window rotation. */
    method Normalize(windowCenter: Vec3, windowScale: Vec3, turn: CosSin)
      requires windowScale.x != 0.0 && windowScale.y != 0.0 && windowScale.z != 0.0
      modifies this
      ensures normalizedCoords
        == MultiplyVectors(LegacyTransforms.LegacyNormalization(windowCenter, turn, Reciprocal(windowScale)), projectedCoords)
      ensures lines == LegacyLines(kind, closed, indexes, normalizedCoords, old(lines))
      ensures coords == old(coords) && projectedCoords == old(projectedCoords)
    {
      normalizedCoords := transform.Normalize(windowCenter, turn, Reciprocal(windowScale), projectedCoords);
      GenerateLines();
    }

    /** `project`: only the projected coordinates change. */
    method Project(cop: Vec3, xTurn: CosSin, yTurn: CosSin, copDistance: real)
      requires copDistance != 0.0
      modifies this
      ensures projectedCoords == Transforms.Projected(cop, xTurn, yTurn, copDistance, coords, false)
      ensures coords == old(coords) && normalizedCoords == old(normalizedCoords) && lines == old(lines)
    {
      projectedCoords := transform.Project(cop, xTurn, yTurn, copDistance, coords, false);
    }
  }

  /** After normalization a polygon's lines are its closed outline, one
      segment per point. */
  lemma NormalizedPolygonCloses(kind: ObjectKind, closed: bool, indexes: seq<Edge>, nc: seq<Vec3>, previous: seq<Segment>)
    requires kind == TriangleKind || kind == RectangleKind || kind == PolygonKind || (kind == SplineKind && closed)
    ensures LegacyLines(kind, closed, indexes, nc, previous) == ResolveEdges(nc, Wireframes2D.Cycle(|nc|))
    ensures |LegacyLines(kind, closed, indexes, nc, previous)| == |nc|
  {
    CycleAgrees(nc);
  }

  /** A 3D shape's lines are exactly what the later `generate_vector_lines`
      builds from the same index pairs, so never more than the pairs. */
  lemma Normalized3DAgrees(kind: ObjectKind, closed: bool, indexes: seq<Edge>, nc: seq<Vec3>, previous: seq<Segment>)
    requires kind == Polygon3DKind || kind == ParallelepipedKind || kind == SurfaceKind
    ensures LegacyLines(kind, closed, indexes, nc, previous) == ResolveEdges(nc, indexes)
    ensures |LegacyLines(kind, closed, indexes, nc, previous)| <= |indexes|
  {
  }

  /** A point or a line whose normalized coordinates do not fit keeps the
      lines it had; one that fits gets exactly one segment. */
  lemma StaleLines(kind: ObjectKind, closed: bool, indexes: seq<Edge>, nc: seq<Vec3>, previous: seq<Segment>)
    requires kind == PointKind || kind == LineKind
    ensures var fits := if kind == PointKind then |nc| > 0 else |nc| == 2;
      (fits ==> |LegacyLines(kind, closed, indexes, nc, previous)| == 1)
      && (!fits ==> LegacyLines(kind, closed, indexes, nc, previous) == previous)
  {
  }

  /** The window: a rectangle that carries the centre of projection. */
  class Window {
    const body: Object
    var cop: Vec3
    var projectedCop: Vec3
    var projectedPosition: Vec3

    predicate Valid()
      reads this, body
    {
      |body.coords| == 4 && |body.normalizedCoords| == 4 && |body.projectedCoords| == 4
      && body.kind == RectangleKind
    }

    constructor (origin: Vec3, extension: Vec3, cop: Vec3)
      ensures Valid() && fresh(body) && fresh(body.transform)
      ensures body.coords == Wireframes2D.Rectangle(origin, extension, false).coords
      ensures body.normalizedCoords == body.coords && body.projectedCoords == body.coords
      ensures !body.fill && body.closed
      ensures body.transform.position == Mean(body.coords)
      ensures body.transform.rotation == Zero && body.transform.scale == Vec3(1.0, 1.0, 1.0)
      ensures this.cop == cop && projectedCop == cop && projectedPosition == body.transform.position
    {
      var cs := Wireframes2D.Rectangle(origin, extension, false).coords;
      var b := new Object(cs, RectangleKind, false, true, []);
      body := b;
      this.cop := cop;
      projectedCop := cop;
      projectedPosition := b.transform.position;
    }

    function NormalizedOrigin(): Vec3
      requires Valid()
      reads this, body
    {
      body.normalizedCoords[0]
    }

    function NormalizedExtension(): Vec3
      requires Valid()
      reads this, body
    {
      body.normalizedCoords[2]
    }

    function Origin(): Vec3
      requires Valid()
      reads this, body
    {
      body.coords[0]
    }

    function Extension(): Vec3
      requires Valid()
      reads this, body
    {
      body.coords[2]
    }

    /** `translate`: corners and cop through one call, split back. */
    method Translate(direction: Vec3, normalized: bool, turn: Angles)
      requires Valid()
      modifies this, body, body.transform
      ensures Valid()
      ensures var d := if normalized then Drop3(Apply(Rotation(turn, true), Homogeneous(direction))) else direction;
        body.coords == Translated(old(body.coords), d) && cop == old(cop).Add(d)
        && body.transform.position == old(body.transform.position).Add(d)
      ensures body.transform.rotation == old(body.transform.rotation) && body.transform.scale == old(body.transform.scale)
      ensures body.normalizedCoords == old(body.normalizedCoords) && body.projectedCoords == old(body.projectedCoords)
      ensures body.lines == old(body.lines)
      ensures projectedCop == old(projectedCop) && projectedPosition == old(projectedPosition)
    {
      var d := direction;
      if normalized {
        var p := body.transform.position;
        var turned := body.transform.Rotate(body.transform.rotation, turn, [direction.Add(p)], None, false);
        LegacyTransforms.NormalizedDirection(turn, p, direction);
        d := turned[0].Sub(p);
      }
      var all := body.transform.Translate(d, body.coords + [cop], true);
      body.coords := all[..|all| - 1];
      cop := all[|all| - 1];
    }

    /** `rescale`: corners and cop about the position. */
    method Rescale(s: Vec3)
      requires Valid()
      modifies this, body, body.transform
      ensures Valid()
      ensures var p := old(body.transform.position);
        body.coords == LegacyTransforms.AllAboutAnchor(Scaling(s), p, old(body.coords))
        && cop == LegacyTransforms.AboutAnchor(Scaling(s), p, old(cop))
      ensures var sc := old(body.transform.scale);
        body.transform.scale == Vec3(sc.x * s.x, sc.y * s.y, sc.z * s.z)
      ensures body.transform.position == old(body.transform.position)
      ensures body.transform.rotation == old(body.transform.rotation)
      ensures body.normalizedCoords == old(body.normalizedCoords) && body.projectedCoords == old(body.projectedCoords)
      ensures body.lines == old(body.lines)
      ensures projectedCop == old(projectedCop) && projectedPosition == old(projectedPosition)
    {
      var all := body.transform.Rescale(s, body.coords + [cop], None, true);
      body.coords := all[..|all| - 1];
      cop := all[|all| - 1];
    }

    /** `rotate`: corners and cop about `anchor`, by default the position. */
    method Rotate(r: Vec3, turn: Angles, anchor: Option<Vec3>)
      requires Valid()
      modifies this, body, body.transform
      ensures Valid()
      ensures var a := if anchor.Some? then anchor.value else old(body.transform.position);
        var m := Rotation(turn, true);
        body.coords == LegacyTransforms.AllAboutAnchor(m, a, old(body.coords))
        && cop == LegacyTransforms.AboutAnchor(m, a, old(cop))
        && body.transform.position == LegacyTransforms.AboutAnchor(m, a, old(body.transform.position))
      ensures body.transform.rotation == LegacyTransforms.Accumulated(old(body.transform.rotation), r)
      ensures anchor.None? ==> body.transform.position == old(body.transform.position)
      ensures body.transform.scale == old(body.transform.scale)
      ensures body.normalizedCoords == old(body.normalizedCoords) && body.projectedCoords == old(body.projectedCoords)
      ensures body.lines == old(body.lines)
      ensures projectedCop == old(projectedCop) && projectedPosition == old(projectedPosition)
    {
      var all := body.transform.Rotate(r, turn, body.coords + [cop], anchor, true);
      body.coords := all[..|all| - 1];
      cop := all[|all| - 1];
    }

    /** `project`: corners, the given cop and the position projected as a
        window (nothing dropped) and split three ways. */
    method Project(givenCop: Vec3, xTurn: CosSin, yTurn: CosSin, copDistance: real)
      requires Valid() && copDistance != 0.0
      modifies this, body
      ensures Valid()
      ensures var m := Projection(givenCop, xTurn, yTurn);
        body.projectedCoords == MultiplyVectors(m, body.coords)
        && projectedCop == Drop3(Apply(m, Homogeneous(givenCop)))
        && projectedPosition == Drop3(Apply(m, Homogeneous(body.transform.position)))
      ensures projectedCop == Zero
      ensures body.coords == old(body.coords) && body.normalizedCoords == old(body.normalizedCoords)
      ensures body.lines == old(body.lines) && cop == old(cop)
    {
      var m := Projection(givenCop, xTurn, yTurn);
      var position := body.transform.position;
      ProjectionCentresCop(givenCop, xTurn, yTurn);
      var all := body.transform.Project(givenCop, xTurn, yTurn, copDistance, body.coords + [givenCop, position], true);
      assert all[|all| - 2] == Drop3(Apply(m, Homogeneous(givenCop)));
      assert all[..|all| - 2] == MultiplyVectors(m, body.coords);
      body.projectedCoords := all[..|all| - 2];
      projectedCop := all[|all| - 2];
      projectedPosition := all[|all| - 1];
    }
  }
}
