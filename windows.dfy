/** The window of backend/objects/window.py: a rectangle object that also
    carries the centre of projection (cop). Its transforms move the four
    corners and the cop as one list, and its projection keeps every point. */
module Windows {
  import opened Vectors
  import opened Matrices
  import opened Outcomes
  import opened Objects
  import Transforms
  import Wireframes2D

  /** `calculate_x_axis`: corner 2 minus corner 1. */
  function XAxisOf(cs: seq<Vec3>): Vec3
    requires |cs| >= 3
  {
    cs[2].Sub(cs[1])
  }

  /** `calculate_y_vector`: corner 1 minus corner 0. */
  function YVectorOf(cs: seq<Vec3>): Vec3
    requires |cs| >= 3
  {
    cs[1].Sub(cs[0])
  }

  /** `calculate_z_vector`: the cross product of the two half axes. */
  function NormalOf(cs: seq<Vec3>): Vec3
    requires |cs| >= 3
  {
    XAxisOf(cs).Div(2.0).Cross(YVectorOf(cs).Div(2.0))
  }

  lemma DotHalf(u: Vec3, v: Vec3)
    ensures u.Dot(v.Div(2.0)) * 2.0 == u.Dot(v)
  {
  }

  /** The normal is orthogonal to both window axes. */
  lemma NormalOrthogonal(cs: seq<Vec3>)
    requires |cs| >= 3
    ensures NormalOf(cs).Dot(XAxisOf(cs)) == 0.0 && NormalOf(cs).Dot(YVectorOf(cs)) == 0.0
  {
    var hx := XAxisOf(cs).Div(2.0);
    var hy := YVectorOf(cs).Div(2.0);
    CrossOrthogonal(hx, hy);
    DotHalf(NormalOf(cs), XAxisOf(cs));
    DotHalf(NormalOf(cs), YVectorOf(cs));
  }

  /** For an axis-aligned window at one depth the normal points along z,
      with a quarter of the signed area as its length. */
  lemma RectangleNormal(o: Vec3, e: Vec3)
    requires o.z == e.z
    ensures var cs := Wireframes2D.Rectangle(o, e, false).coords;
      XAxisOf(cs) == Vec3(e.x - o.x, 0.0, 0.0) && YVectorOf(cs) == Vec3(0.0, e.y - o.y, 0.0)
      && NormalOf(cs) == Vec3(0.0, 0.0, (e.x - o.x) * (e.y - o.y) / 4.0)
  {
  }

  /** The image of one point under `multiply_vectors`. */
  function Image(m: Mat4, v: Vec3): Vec3 { Drop3(Apply(m, Homogeneous(v))) }

  /** Mapping a list with one more point appended maps that point last. */
  lemma MultiplyVectorsAppend(m: Mat4, cs: seq<Vec3>, extra: seq<Vec3>)
    ensures MultiplyVectors(m, cs + extra) == MultiplyVectors(m, cs) + MultiplyVectors(m, extra)
  {
  }

  class Window {
    const body: Object
    var cop: Vec3
    var projectedCop: Vec3
    var projectedPosition: Vec3

    /** Four corners in each coordinate list, the body's transform valid. */
    predicate Valid()
      reads this, body, body.transform
    {
      body.Valid() && |body.coords| == 4 && |body.normalizedCoords| == 4 && |body.projectedCoords| == 4
    }

    /** A rectangle, not filled, whose projected cop starts at the cop and
        whose projected position starts at the centre of the corners. */
    constructor (origin: Vec3, extension: Vec3, cop: Vec3)
      ensures Valid() && fresh(body) && fresh(body.transform)
      ensures body.coords == Wireframes2D.Rectangle(origin, extension, false).coords
      ensures body.coords == body.normalizedCoords == body.projectedCoords
      ensures body.kind == RectangleKind && !body.fill
      ensures this.cop == cop && projectedCop == cop && projectedPosition == Mean(body.coords)
    {
      var r := Wireframes2D.Rectangle(origin, extension, false);
      var b := new Object(r.coords, r.lines, r.kind, r.fill, r.closed);
      body := b;
      this.cop := cop;
      projectedCop := cop;
      projectedPosition := b.transform.Position();
    }

    function Origin(): Vec3
      requires Valid()
      reads this, body, body.transform
    {
      body.coords[0]
    }

    function Extension(): Vec3
      requires Valid()
      reads this, body, body.transform
    {
      body.coords[2]
    }

    function NormalizedOrigin(): Vec3
      requires Valid()
      reads this, body, body.transform
    {
      body.normalizedCoords[0]
    }

    function NormalizedExtension(): Vec3
      requires Valid()
      reads this, body, body.transform
    {
      body.normalizedCoords[2]
    }

    function Normal(): Vec3
      requires Valid()
      reads this, body, body.transform
    {
      NormalOf(body.coords)
    }

    function ProjectedUp(): Vec3
      requires Valid()
      reads this, body, body.transform
    {
      YVectorOf(body.projectedCoords)
    }

    function ProjectedNormal(): Vec3
      requires Valid()
      reads this, body, body.transform
    {
      NormalOf(body.projectedCoords)
    }

    /** Corners and cop move by `direction` together. */
    method Translate(direction: Vec3)
      requires Valid()
      modifies this, body, body.transform
      ensures Valid()
      ensures body.coords == Translated(old(body.coords), direction)
      ensures cop == old(cop).Add(direction)
      ensures body.transform.Position() == old(body.transform.Position()).Add(direction)
      ensures body.transform.matrix == Mul(Translation(direction), old(body.transform.matrix))
      ensures body.normalizedCoords == old(body.normalizedCoords) && body.projectedCoords == old(body.projectedCoords)
      ensures body.lines == old(body.lines) && body.vectorLines == old(body.vectorLines)
      ensures body.fill == old(body.fill) && body.closed == old(body.closed) && body.kind == old(body.kind)
      ensures projectedCop == old(projectedCop) && projectedPosition == old(projectedPosition)
    {
      var all := body.transform.Translate(direction, body.coords + [cop]);
      body.coords := all[..|all| - 1];
      cop := all[|all| - 1];
    }

    /** Corners and cop scaled about the position, along the window's own
        axes, in one list. */
    method Rescale(s: Vec3, current: Angles)
      requires Valid()
      modifies this, body, body.transform
      ensures Valid()
      ensures var m := Transforms.RelativeScaling(old(body.transform.Position()), current, s);
        body.coords == MultiplyVectors(m, old(body.coords)) && cop == Image(m, old(cop)) &&
        body.transform.matrix == Mul(m, old(body.transform.matrix))
      ensures body.transform.Position() == old(body.transform.Position())
      ensures body.normalizedCoords == old(body.normalizedCoords) && body.projectedCoords == old(body.projectedCoords)
      ensures body.lines == old(body.lines) && body.vectorLines == old(body.vectorLines)
      ensures body.fill == old(body.fill) && body.closed == old(body.closed) && body.kind == old(body.kind)
      ensures projectedCop == old(projectedCop) && projectedPosition == old(projectedPosition)
    {
      var m := Transforms.RelativeScaling(body.transform.Position(), current, s);
      MultiplyVectorsAppend(m, body.coords, [cop]);
      var all := body.transform.Rescale(s, current, body.coords + [cop]);
      body.coords := all[..|all| - 1];
      cop := all[|all| - 1];
    }

    /** Corners and cop rotated about `origin`, or about the position. */
    method Rotate(turn: Angles, origin: Option<Vec3>)
      requires Valid()
      modifies this, body, body.transform
      ensures Valid()
      ensures var o := if origin.Some? then origin.value else old(body.transform.Position());
        var m := Transforms.RelativeRotation(o, turn);
        body.coords == MultiplyVectors(m, old(body.coords)) && cop == Image(m, old(cop)) &&
        body.transform.matrix == Mul(m, old(body.transform.matrix)) &&
        body.transform.Position() == Image(m, old(body.transform.Position()))
      ensures origin.None? ==> body.transform.Position() == old(body.transform.Position())
      ensures body.normalizedCoords == old(body.normalizedCoords) && body.projectedCoords == old(body.projectedCoords)
      ensures body.lines == old(body.lines) && body.vectorLines == old(body.vectorLines)
      ensures body.fill == old(body.fill) && body.closed == old(body.closed) && body.kind == old(body.kind)
      ensures projectedCop == old(projectedCop) && projectedPosition == old(projectedPosition)
    {
      var o := if origin.Some? then origin.value else body.transform.Position();
      MultiplyVectorsAppend(Transforms.RelativeRotation(o, turn), body.coords, [cop]);
      var all := body.transform.Rotate(turn, body.coords + [cop], origin);
      body.coords := all[..|all| - 1];
      cop := all[|all| - 1];
    }

    /** `project`: corners, the given cop and the position go through the
        projection as one list with nothing dropped, and are split back. The
        normal enters as the two (cos, sin) pairs it determines. */
    method Project(givenCop: Vec3, xTurn: CosSin, yTurn: CosSin, copDistance: real)
      requires Valid() && copDistance != 0.0
      modifies this, body
      ensures Valid()
      ensures var m := Projection(givenCop, xTurn, yTurn);
        body.projectedCoords == MultiplyVectors(m, body.coords)
        && projectedPosition == Image(m, body.transform.Position())
      ensures projectedCop == Zero
      ensures body.coords == old(body.coords) && body.normalizedCoords == old(body.normalizedCoords)
      ensures body.lines == old(body.lines) && body.vectorLines == old(body.vectorLines)
      ensures body.fill == old(body.fill) && body.closed == old(body.closed) && body.kind == old(body.kind)
      ensures cop == old(cop)
    {
      var m := Projection(givenCop, xTurn, yTurn);
      var position := body.transform.Position();
      MultiplyVectorsAppend(m, body.coords, [givenCop, position]);
      ProjectionCentresCop(givenCop, xTurn, yTurn);
      var all := Transforms.Project(givenCop, xTurn, yTurn, copDistance, body.coords + [givenCop, position], true);
      body.projectedCoords := all[..|all| - 2];
      projectedCop := all[|all| - 2];
      projectedPosition := all[|all| - 1];
    }
  }
}
