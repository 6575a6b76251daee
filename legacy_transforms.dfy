/** The earlier transform of internals/transform.py. Instead of one
    accumulated matrix it keeps the position, the rotation angles (degrees)
    and the scale as separate vectors. Every operation fills a matrix from
    the given arguments and maps each coordinate through it one by one. */
module LegacyTransforms {
  import opened Vectors
  import opened Matrices
  import opened Outcomes
  import opened Objects
  import Transforms

  /** Python's `% 360` on a float: the floored remainder. */
  function Mod360(a: real): (r: real)
    ensures 0.0 <= r < 360.0
  {
    a - 360.0 * (a / 360.0).Floor as real
  }

  /** Adding whole turns does not change the remainder, and an angle already
      in [0, 360) is its own remainder. */
  lemma Mod360Periodic(a: real, k: int)
    ensures Mod360(a + 360.0 * k as real) == Mod360(a)
    ensures 0.0 <= a < 360.0 ==> Mod360(a) == a
  {
    var q := (a / 360.0).Floor;
    var b := a + 360.0 * k as real;
    assert b / 360.0 == a / 360.0 + k as real;
    assert (b / 360.0).Floor == q + k;
    if 0.0 <= a < 360.0 {
      assert 0.0 <= a / 360.0 < 1.0;
      assert q == 0;
    }
  }

  /** The update of `_rotation`: each component advanced and taken mod 360. */
  function Accumulated(r: Vec3, d: Vec3): Vec3
  {
    Vec3(Mod360(r.x + d.x), Mod360(r.y + d.y), Mod360(r.z + d.z))
  }

  /** Rotating back by the current angles brings the accumulated rotation to
      zero; rotating by whole turns changes nothing. */
  lemma AccumulatedUndo(r: Vec3)
    ensures Accumulated(r, r.Scale(-1.0)) == Zero
  {
    Mod360Periodic(0.0, 0);
    assert r.x + r.x * -1.0 == 0.0 && r.y + r.y * -1.0 == 0.0 && r.z + r.z * -1.0 == 0.0;
  }

  /** `world_to_local`, the matrix, then `local_to_world`: `m` acting about
      `anchor`. */
  function AboutAnchor(m: Mat4, anchor: Vec3, c: Vec3): Vec3
  {
    Drop3(Apply(m, Homogeneous(c.Sub(anchor)))).Add(anchor)
  }

  function AllAboutAnchor(m: Mat4, anchor: Vec3, cs: seq<Vec3>): (r: seq<Vec3>)
    ensures |r| == |cs|
  {
    seq(|cs|, i requires 0 <= i < |cs| => AboutAnchor(m, anchor, cs[i]))
  }

  /** A block that fixes the origin leaves the anchor where it is. */
  lemma AnchorFixed(m: Mat4, anchor: Vec3)
    requires IsLinearBlock(m)
    ensures AboutAnchor(m, anchor, anchor) == anchor
  {
    assert anchor.Sub(anchor) == Zero;
    Transforms.LinearBlockFixesOrigin(m);
  }

  /** Acting about an anchor is the conjugate T(a) @ m @ T(-a) of the later
      transform, so the two generations agree on where every point goes. */
  lemma AboutAnchorIsConjugate(m: Mat4, anchor: Vec3, c: Vec3)
    requires IsAffine(m)
    ensures AboutAnchor(m, anchor, c)
      == Drop3(Apply(Mul(Mul(Translation(anchor), m), Translation(anchor.Neg())), Homogeneous(c)))
  {
    var local := c.Sub(anchor);
    ApplyMul(Mul(Translation(anchor), m), Translation(anchor.Neg()), Homogeneous(c));
    TranslationMoves(anchor.Neg(), c);
    assert c.Add(anchor.Neg()) == local;
    ApplyMul(Translation(anchor), m, Homogeneous(local));
    AffineKeepsW(m, local);
    TranslationMoves(anchor, Drop3(Apply(m, Homogeneous(local))));
  }

  /** The rotation of `rotate` about an anchor maps the list exactly as the
      later `multiply_vectors` with the pivoted matrix does. */
  lemma RotationAgreesWithPivot(turn: Angles, anchor: Vec3, cs: seq<Vec3>)
    ensures AllAboutAnchor(Rotation(turn, true), anchor, cs)
      == MultiplyVectors(Mul(Mul(Translation(anchor), Rotation(turn, true)), Translation(anchor.Neg())), cs)
  {
    RotationIsLinearBlock(turn, true);
    forall i | 0 <= i < |cs|
      ensures AllAboutAnchor(Rotation(turn, true), anchor, cs)[i]
        == MultiplyVectors(Mul(Mul(Translation(anchor), Rotation(turn, true)), Translation(anchor.Neg())), cs)[i]
    {
      AboutAnchorIsConjugate(Rotation(turn, true), anchor, cs[i]);
    }
  }

  /** Scaling about an anchor: anchor + s * (c - anchor), per axis. */
  lemma ScaleAboutAnchor(s: Vec3, anchor: Vec3, c: Vec3)
    ensures AboutAnchor(Scaling(s), anchor, c)
      == Vec3(anchor.x + s.x * (c.x - anchor.x), anchor.y + s.y * (c.y - anchor.y), anchor.z + s.z * (c.z - anchor.z))
  {
    var q := c.Sub(anchor);
    ScalingMoves(s, q);
    assert Drop3(Apply(Scaling(s), Homogeneous(q))) == Vec3(s.x * q.x, s.y * q.y, s.z * q.z);
  }

  /** The matrix that `normalize` fills in: rotation and scale in the upper
      block (the z scale multiplied by the cosine as well), and minus the
      window centre in the last column. `turn` is the (cos, sin) pair of the
      negated window rotation. */
  function LegacyNormalization(center: Vec3, turn: CosSin, s: Vec3): Mat4
  {
    Mat4(Vec4(turn.c * s.x, -turn.s * s.y, 0.0, -center.x),
         Vec4(turn.s * s.x, turn.c * s.y, 0.0, -center.y),
         Vec4(0.0, 0.0, turn.c * s.z, -center.z),
         Vec4(0.0, 0.0, 0.0, 1.0))
  }

  /** Unlike the later S @ Rz @ T(-p), this matrix rotates and scales first
      and subtracts the centre afterwards: T(-c) @ Rz @ S', with S' scaling
      z by cos * s.z. */
  lemma LegacyNormalizationOrder(center: Vec3, turn: CosSin, s: Vec3)
    ensures LegacyNormalization(center, turn, s)
      == Mul(Translation(center.Neg()), Mul(RotationZ(turn), Scaling(Vec3(s.x, s.y, turn.c * s.z))))
  {
  }

  /** So the window centre itself lands at origin only when the rotation and
      scale fix it; for no turn and unit scale every point just moves by
      minus the centre. */
  lemma LegacyNormalizationUnit(center: Vec3, p: Vec3)
    ensures Drop3(Apply(LegacyNormalization(center, NoTurn, Vec3(1.0, 1.0, 1.0)), Homogeneous(p))) == p.Sub(center)
  {
  }

  /** The per-coordinate loop shared by `rescale` and `rotate`. */
  method MapAboutAnchor(m: Mat4, anchor: Vec3, cs: seq<Vec3>) returns (out: seq<Vec3>)
    ensures out == AllAboutAnchor(m, anchor, cs)
  {
    out := [];
    for i := 0 to |cs|
      invariant |out| == i
      invariant forall j :: 0 <= j < i ==> out[j] == AboutAnchor(m, anchor, cs[j])
    {
      out := out + [AboutAnchor(m, anchor, cs[i])];
    }
  }

  class Transform {
    var position: Vec3
    var rotation: Vec3
    var scale: Vec3

    constructor (position: Vec3, rotation: Vec3, scale: Vec3)
      ensures this.position == position && this.rotation == rotation && this.scale == scale
    {
      this.position := position;
      this.rotation := rotation;
      this.scale := scale;
    }

    /** `translate`: the position moves when `update` is set; every
        coordinate goes through the translation matrix. */
    method Translate(direction: Vec3, coords: seq<Vec3>, update: bool) returns (newCoords: seq<Vec3>)
      modifies this
      ensures newCoords == Translated(coords, direction)
      ensures position == (if update then old(position).Add(direction) else old(position))
      ensures rotation == old(rotation) && scale == old(scale)
    {
      if update {
        position := position.Add(direction);
      }
      var m := Translation(direction);
      newCoords := [];
      for i := 0 to |coords|
        invariant |newCoords| == i
        invariant forall j :: 0 <= j < i ==> newCoords[j] == coords[j].Add(direction)
        invariant position == (if update then old(position).Add(direction) else old(position))
        invariant rotation == old(rotation) && scale == old(scale)
      {
        TranslationMoves(direction, coords[i]);
        newCoords := newCoords + [Drop3(Apply(m, Homogeneous(coords[i])))];
      }
    }

    /** `rescale`: the scale multiplied per axis when `update` is set; every
        coordinate scaled about the anchor, by default the position. */
    method Rescale(s: Vec3, coords: seq<Vec3>, anchor: Option<Vec3>, update: bool) returns (newCoords: seq<Vec3>)
      modifies this
      ensures scale == (if update then Vec3(old(scale).x * s.x, old(scale).y * s.y, old(scale).z * s.z) else old(scale))
      ensures var a := if anchor.Some? then anchor.value else old(position);
        newCoords == AllAboutAnchor(Scaling(s), a, coords)
      ensures position == old(position) && rotation == old(rotation)
    {
      if update {
        scale := Vec3(scale.x * s.x, scale.y * s.y, scale.z * s.z);
      }
      var a := if anchor.Some? then anchor.value else position;
      newCoords := MapAboutAnchor(Scaling(s), a, coords);
    }

    /** `rotate`: the angles accumulated mod 360 when `update` is set; every
        coordinate, and then the position as one extra point, rotated by
        Rx @ Ry @ Rz about the anchor (by default the position). The
        position is stored back and stripped from the result. `turn` holds
        the (cos, sin) pairs of the angles in `r`. */
    method Rotate(r: Vec3, turn: Angles, coords: seq<Vec3>, anchor: Option<Vec3>, update: bool)
      returns (newCoords: seq<Vec3>)
      modifies this
      ensures rotation == (if update then Accumulated(old(rotation), r) else old(rotation))
      ensures var a := if anchor.Some? then anchor.value else old(position);
        var m := Rotation(turn, true);
        newCoords == AllAboutAnchor(m, a, coords)
        && position == (if update then AboutAnchor(m, a, old(position)) else old(position))
      ensures anchor.None? ==> position == old(position)
      ensures scale == old(scale)
    {
      if update {
        rotation := Accumulated(rotation, r);
      }
      var m := Rotation(turn, true);
      var corrected := if update then coords + [position] else coords;
      var a := if anchor.Some? then anchor.value else position;
      var all := MapAboutAnchor(m, a, corrected);
      if anchor.None? {
        RotationIsLinearBlock(turn, true);
        AnchorFixed(m, a);
      }
      if update {
        position := all[|all| - 1];
        newCoords := all[..|all| - 1];
      } else {
        newCoords := all;
      }
    }

    /** `normalize`: every coordinate through the filled-in matrix. */
    method Normalize(windowCenter: Vec3, turn: CosSin, s: Vec3, coords: seq<Vec3>) returns (newCoords: seq<Vec3>)
      ensures newCoords == MultiplyVectors(LegacyNormalization(windowCenter, turn, s), coords)
    {
      var m := LegacyNormalization(windowCenter, turn, s);
      newCoords := [];
      for i := 0 to |coords|
        invariant |newCoords| == i
        invariant forall j :: 0 <= j < i ==> newCoords[j] == Drop3(Apply(m, Homogeneous(coords[j])))
      {
        newCoords := newCoords + [Drop3(Apply(m, Homogeneous(coords[i])))];
      }
    }

    /** `project`: the same drop rule as the later transform (Rx @ Ry @
        T(-cop), then the perspective divide for points in front). */
    method Project(cop: Vec3, xTurn: CosSin, yTurn: CosSin, copDistance: real, coords: seq<Vec3>, isWindow: bool)
      returns (newCoords: seq<Vec3>)
      requires copDistance != 0.0
      ensures newCoords == Transforms.Projected(cop, xTurn, yTurn, copDistance, coords, isWindow)
      ensures isWindow ==> newCoords == MultiplyVectors(Projection(cop, xTurn, yTurn), coords)
      ensures !isWindow ==> forall i :: 0 <= i < |newCoords| ==> newCoords[i].z == copDistance
    {
      newCoords := Transforms.Project(cop, xTurn, yTurn, copDistance, coords, isWindow);
      if isWindow {
        Transforms.ProjectedWindowKeepsAll(cop, xTurn, yTurn, copDistance, coords);
      } else {
        Transforms.ProjectedOnPlane(cop, xTurn, yTurn, copDistance, coords);
      }
    }
  }

  /** The direction of a translation in the object's own frame: rotated
      about the position with `update` off, minus the position. That is the
      direction turned about the origin. */
  lemma NormalizedDirection(turn: Angles, position: Vec3, direction: Vec3)
    ensures AboutAnchor(Rotation(turn, true), position, direction.Add(position)).Sub(position)
      == Drop3(Apply(Rotation(turn, true), Homogeneous(direction)))
  {
    assert direction.Add(position).Sub(position) == direction;
  }
}
