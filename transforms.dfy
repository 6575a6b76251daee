/** The transform of backend/math/transform.py: one 4x4 matrix that
    accumulates every translation, rotation and scaling of an object, and
    the normalization and projection that map coordinates for drawing. */
module Transforms {
  import opened Vectors
  import opened Matrices
  import opened Outcomes
  import Arith

  /** T(o) @ R @ T(-o): a rotation about the pivot `o`. */
  function RelativeRotation(o: Vec3, turn: Angles): Mat4
  {
    Mul(Mul(Translation(o), Rotation(turn, false)), Translation(o.Neg()))
  }

  /** T(p) @ R @ S @ R' @ T(-p), with R the current rotation and R' the
      rotation by the negated angles in inverse order: a scaling along the
      object's own axes about its position `p`. */
  function RelativeScaling(p: Vec3, current: Angles, s: Vec3): Mat4
  {
    Mul(Mul(Mul(Mul(Translation(p), Rotation(current, false)), Scaling(s)), Rotation(Negated(current), true)),
        Translation(p.Neg()))
  }

  class Transform {
    var matrix: Mat4

    /** The bottom row stays (0, 0, 0, 1). */
    predicate Valid()
      reads this
    {
      IsAffine(matrix)
    }

    /** The `position` getter: column 3, rows 0..2. */
    function Position(): Vec3
      reads this
    {
      Translation3(matrix)
    }

    constructor (position: Vec3)
      ensures matrix == Translation(position)
      ensures Valid() && Position() == position
    {
      matrix := Translation(position);
    }

    method Translate(direction: Vec3, coords: seq<Vec3>) returns (newCoords: seq<Vec3>)
      requires Valid()
      modifies this
      ensures Valid()
      ensures matrix == Mul(Translation(direction), old(matrix))
      ensures Position() == old(Position()).Add(direction)
      ensures |newCoords| == |coords|
      ensures forall i :: 0 <= i < |coords| ==> newCoords[i] == coords[i].Add(direction)
    {
      var translation := Translation(direction);
      newCoords := MultiplyVectors(translation, coords);
      MultiplyVectorsTranslation(direction, coords);
      Translation3OfMul(translation, matrix);
      TranslationMoves(direction, Position());
      MulAffine(translation, matrix);
      matrix := Mul(translation, matrix);
    }

    method Rotate(turn: Angles, coords: seq<Vec3>, origin: Option<Vec3>) returns (newCoords: seq<Vec3>)
      requires Valid()
      modifies this
      ensures Valid()
      ensures var o := if origin.Some? then origin.value else old(Position());
        matrix == Mul(RelativeRotation(o, turn), old(matrix)) &&
        newCoords == MultiplyVectors(RelativeRotation(o, turn), coords) &&
        Position() == Drop3(Apply(RelativeRotation(o, turn), Homogeneous(old(Position()))))
      ensures origin.None? ==> Position() == old(Position())
    {
      var o := if origin.Some? then origin.value else Position();
      var relative := RelativeRotation(o, turn);
      RotationIsLinearBlock(turn, false);
      PivotIsAffine(o, Rotation(turn, false));
      newCoords := MultiplyVectors(relative, coords);
      Translation3OfMul(relative, matrix);
      if origin.None? {
        PivotFixed(o, Rotation(turn, false));
      }
      MulAffine(relative, matrix);
      matrix := Mul(relative, matrix);
    }

    method Rescale(s: Vec3, current: Angles, coords: seq<Vec3>) returns (newCoords: seq<Vec3>)
      requires Valid()
      modifies this
      ensures Valid()
      ensures matrix == Mul(RelativeScaling(old(Position()), current, s), old(matrix))
      ensures newCoords == MultiplyVectors(RelativeScaling(old(Position()), current, s), coords)
      ensures Position() == old(Position())
    {
      var p := Position();
      var relative := RelativeScaling(p, current, s);
      RelativeScalingFixesPosition(p, current, s);
      newCoords := MultiplyVectors(relative, coords);
      Translation3OfMul(relative, matrix);
      MulAffine(relative, matrix);
      matrix := Mul(relative, matrix);
    }
  }

  /** A linear block sends the origin (0, 0, 0, 1) to itself. */
  lemma LinearBlockFixesOrigin(m: Mat4)
    requires IsLinearBlock(m)
    ensures Apply(m, Vec4(0.0, 0.0, 0.0, 1.0)) == Vec4(0.0, 0.0, 0.0, 1.0)
  {
  }

  /** Applying the five-factor chain of `RelativeScaling` is applying its
      factors right to left. */
  lemma ApplyChain(a: Mat4, b: Mat4, c: Mat4, d: Mat4, e: Mat4, v: Vec4)
    ensures Apply(Mul(Mul(Mul(Mul(a, b), c), d), e), v) == Apply(a, Apply(b, Apply(c, Apply(d, Apply(e, v)))))
  {
    ApplyMul(Mul(Mul(Mul(a, b), c), d), e, v);
    ApplyMul(Mul(Mul(a, b), c), d, Apply(e, v));
    ApplyMul(Mul(a, b), c, Apply(d, Apply(e, v)));
    ApplyMul(a, b, Apply(c, Apply(d, Apply(e, v))));
  }

  /** T(p) @ A @ B @ C @ T(-p) is affine and fixes `p` when A, B, C fix the origin. */
  lemma ConjugateFixesPivot(p: Vec3, a: Mat4, b: Mat4, c: Mat4)
    requires IsLinearBlock(a) && IsLinearBlock(b) && IsLinearBlock(c)
    ensures var m := Mul(Mul(Mul(Mul(Translation(p), a), b), c), Translation(p.Neg()));
      IsAffine(m) && Apply(m, Homogeneous(p)) == Homogeneous(p)
  {
    MulAffine(Translation(p), a);
    MulAffine(Mul(Translation(p), a), b);
    MulAffine(Mul(Mul(Translation(p), a), b), c);
    MulAffine(Mul(Mul(Mul(Translation(p), a), b), c), Translation(p.Neg()));
    ApplyChain(Translation(p), a, b, c, Translation(p.Neg()), Homogeneous(p));
    TranslationMoves(p.Neg(), p);
    var origin := Vec4(0.0, 0.0, 0.0, 1.0);
    assert Apply(Translation(p.Neg()), Homogeneous(p)) == origin;
    LinearBlockFixesOrigin(c);
    LinearBlockFixesOrigin(b);
    LinearBlockFixesOrigin(a);
  }

  lemma RelativeScalingFixesPosition(p: Vec3, current: Angles, s: Vec3)
    ensures IsAffine(RelativeScaling(p, current, s))
    ensures Apply(RelativeScaling(p, current, s), Homogeneous(p)) == Homogeneous(p)
  {
    RotationIsLinearBlock(current, false);
    RotationIsLinearBlock(Negated(current), true);
    ScalingMoves(s, Zero);
    ConjugateFixesPivot(p, Rotation(current, false), Scaling(s), Rotation(Negated(current), true));
  }

  lemma PivotIsAffine(o: Vec3, r: Mat4)
    requires IsLinearBlock(r)
    ensures IsAffine(Mul(Mul(Translation(o), r), Translation(o.Neg())))
  {
    MulAffine(Translation(o), r);
    MulAffine(Mul(Translation(o), r), Translation(o.Neg()));
  }

  /** Scaling about the position acts along the object's own rotated axes:
      the point p + R u goes to p + R (S u). */
  lemma RescaleAlongOwnAxes(p: Vec3, current: Angles, s: Vec3, u: Vec3)
    requires AnglesAreUnit(current)
    ensures var placed := Mul(Translation(p), Rotation(current, false));
      Apply(RelativeScaling(p, current, s), Apply(placed, Homogeneous(u))) ==
      Apply(placed, Homogeneous(Vec3(s.x * u.x, s.y * u.y, s.z * u.z)))
  {
    var r := Rotation(current, false);
    var su := Vec3(s.x * u.x, s.y * u.y, s.z * u.z);
    RotationIsLinearBlock(current, false);
    var ru := Apply(r, Homogeneous(u));
    AffineKeepsW(r, u);
    ApplyMul(Translation(p), r, Homogeneous(u));
    TranslationMoves(p, Drop3(ru));
    var x := Homogeneous(Drop3(ru).Add(p));
    assert Apply(Mul(Translation(p), r), Homogeneous(u)) == x;
    ApplyChain(Translation(p), r, Scaling(s), Rotation(Negated(current), true), Translation(p.Neg()), x);
    TranslationMoves(p.Neg(), Drop3(ru).Add(p));
    assert Drop3(ru).Add(p).Add(p.Neg()) == Drop3(ru);
    assert Apply(Translation(p.Neg()), x) == ru;
    RotationInverse(current, Homogeneous(u));
    ScalingMoves(s, u);
    ApplyMul(Translation(p), r, Homogeneous(su));
  }

  /** `normalize`: every coordinate through S @ Rz @ T(-window position). */
  function Normalize(windowPosition: Vec3, zTurn: CosSin, diffScale: Vec3, coords: seq<Vec3>): (r: seq<Vec3>)
    ensures |r| == |coords|
  {
    MultiplyVectors(Normalization(windowPosition, zTurn, diffScale), coords)
  }

  /** The window centre lands on the origin of the normalized coordinates. */
  lemma NormalizeCentresWindow(windowPosition: Vec3, zTurn: CosSin, diffScale: Vec3, coords: seq<Vec3>)
    ensures forall i :: 0 <= i < |coords| && coords[i] == windowPosition ==>
      Normalize(windowPosition, zTurn, diffScale, coords)[i] == Zero
  {
    NormalizationCentresWindow(windowPosition, zTurn, diffScale);
  }

  /** A transformed point that survives the perspective step, divided by w. */
  function Divided(v: Vec4): Vec3
    requires v.w != 0.0
  {
    Vec3(v.x / v.w, v.y / v.w, v.z / v.w)
  }

  predicate InFront(v: Vec4) { v.z >= 0.0 && v.w > 0.0 }

  /** The drop rule, in order: points with z >= 0 and w > 0 survive, divided by w. */
  function Visible(vs: seq<Vec4>): (r: seq<Vec3>)
    ensures |r| <= |vs|
  {
    if vs == [] then []
    else
      var last := vs[|vs| - 1];
      Visible(vs[..|vs| - 1]) + (if InFront(last) then [Divided(last)] else [])
  }

  /** Every coordinate in homogeneous form through `m`, w kept. */
  function Transformed(m: Mat4, coords: seq<Vec3>): (r: seq<Vec4>)
    ensures |r| == |coords|
    ensures forall i :: 0 <= i < |coords| ==> r[i] == Apply(m, Homogeneous(coords[i]))
  {
    seq(|coords|, i requires 0 <= i < |coords| => Apply(m, Homogeneous(coords[i])))
  }

  function ProjectionTransform(cop: Vec3, xTurn: CosSin, yTurn: CosSin, copDistance: real): Mat4
    requires copDistance != 0.0
  {
    Mul(Perspective(copDistance), Projection(cop, xTurn, yTurn))
  }

  /** What `project` returns. */
  function Projected(cop: Vec3, xTurn: CosSin, yTurn: CosSin, copDistance: real, coords: seq<Vec3>,
                     isWindow: bool): seq<Vec3>
    requires copDistance != 0.0
  {
    if |coords| == 0 then []
    else if isWindow then MultiplyVectors(Projection(cop, xTurn, yTurn), coords)
    else Visible(Transformed(ProjectionTransform(cop, xTurn, yTurn, copDistance), coords))
  }

  /** The filtering loop of `project`: keeps, in order, the transformed
      points in front of the centre of projection, divided by w. */
  method KeepVisible(transformed: seq<Vec4>) returns (kept: seq<Vec3>)
    ensures kept == Visible(transformed)
  {
    kept := [];
    var i := 0;
    while i < |transformed|
      invariant 0 <= i <= |transformed|
      invariant kept == Visible(transformed[..i])
    {
      var v := transformed[i];
      if v.z >= 0.0 && v.w > 0.0 {
        kept := kept + [Vec3(v.x / v.w, v.y / v.w, v.z / v.w)];
      }
      assert transformed[..i + 1][..i] == transformed[..i];
      i := i + 1;
    }
    assert transformed[..|transformed|] == transformed;
  }

  /** `project`. The cop distance is the length of the window's
      cop-to-position vector; the two projection angles come from the
      window normal and are given as (cos, sin) pairs. */
  method Project(cop: Vec3, xTurn: CosSin, yTurn: CosSin, copDistance: real, coords: seq<Vec3>, isWindow: bool)
    returns (newCoords: seq<Vec3>)
    requires copDistance != 0.0
    ensures newCoords == Projected(cop, xTurn, yTurn, copDistance, coords, isWindow)
  {
    if |coords| == 0 {
      return [];
    }
    if isWindow {
      return MultiplyVectors(Projection(cop, xTurn, yTurn), coords);
    }
    var transformed := Transformed(ProjectionTransform(cop, xTurn, yTurn, copDistance), coords);
    newCoords := KeepVisible(transformed);
  }

  /** Every point that `Visible` keeps from a perspective image, where
      w = z / d, lands on the plane z = d. */
  lemma {:induction false} VisibleOnPlane(vs: seq<Vec4>, d: real)
    requires d != 0.0
    requires forall j :: 0 <= j < |vs| ==> vs[j].w == vs[j].z / d
    ensures forall p :: p in Visible(vs) ==> p.z == d
  {
    if vs != [] {
      var last := vs[|vs| - 1];
      VisibleOnPlane(vs[..|vs| - 1], d);
      if InFront(last) {
        Arith.DivMul(last.z, d);
        assert last.w * d == last.z;
        assert last.z / last.w == d;
      }
    }
  }

  /** With a negative cop distance no point is in front: w = z / d > 0 forces z < 0. */
  lemma {:induction false} VisibleBehind(vs: seq<Vec4>, d: real)
    requires d < 0.0
    requires forall j :: 0 <= j < |vs| ==> vs[j].w == vs[j].z / d
    ensures Visible(vs) == []
  {
    if vs != [] {
      VisibleBehind(vs[..|vs| - 1], d);
      var last := vs[|vs| - 1];
      if last.z >= 0.0 && last.w > 0.0 {
        Arith.DivMul(last.z, d);
        Arith.MulPos(last.w, -d, last.w * -d);
        assert false;
      }
    }
  }

  lemma ProjectionIsAffine(cop: Vec3, xTurn: CosSin, yTurn: CosSin)
    ensures IsAffine(Projection(cop, xTurn, yTurn))
  {
    var rx := RotationX(xTurn);
    var ry := RotationY(yTurn);
    RotationIsLinearBlock(Angles(xTurn, yTurn, NoTurn), false);
    MulAffine(rx, ry);
    MulAffine(Mul(rx, ry), Translation(cop.Neg()));
  }

  /** Perspective after an affine map leaves w = z / d. */
  lemma PerspectiveImage(m: Mat4, d: real, c: Vec3)
    requires d != 0.0 && IsAffine(m)
    ensures var v := Apply(Mul(Perspective(d), m), Homogeneous(c)); v.w == v.z / d
  {
    ApplyMul(Perspective(d), m, Homogeneous(c));
    AffineKeepsW(m, c);
    PerspectiveDivides(d, Drop3(Apply(m, Homogeneous(c))));
  }

  /** Outside the window case every projected point lies on the plane
      z = cop distance, and a negative cop distance drops every point. */
  lemma ProjectedOnPlane(cop: Vec3, xTurn: CosSin, yTurn: CosSin, d: real, coords: seq<Vec3>)
    requires d != 0.0
    ensures forall p :: p in Projected(cop, xTurn, yTurn, d, coords, false) ==> p.z == d
    ensures d < 0.0 ==> Projected(cop, xTurn, yTurn, d, coords, false) == []
  {
    if |coords| > 0 {
      var m := Projection(cop, xTurn, yTurn);
      ProjectionIsAffine(cop, xTurn, yTurn);
      var vs := Transformed(Mul(Perspective(d), m), coords);
      forall j | 0 <= j < |vs| ensures vs[j].w == vs[j].z / d {
        PerspectiveImage(m, d, coords[j]);
      }
      VisibleOnPlane(vs, d);
      if d < 0.0 {
        VisibleBehind(vs, d);
      }
    }
  }

  /** For the window nothing is dropped: one point out per point in. */
  lemma ProjectedWindowKeepsAll(cop: Vec3, xTurn: CosSin, yTurn: CosSin, d: real, coords: seq<Vec3>)
    requires d != 0.0
    ensures |Projected(cop, xTurn, yTurn, d, coords, true)| == |coords|
  {
  }
}
