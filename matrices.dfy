/** The 4x4 homogeneous matrices of backend/math/matrix.py and their
    builders. Angles are not converted to sines and cosines here: every
    rotation is built from the (cos, sin) pair of each of its angles, which
    the caller supplies. */
module Matrices {
  import opened Vectors

  /** A matrix as its four rows. */
  datatype Mat4 = Mat4(r0: Vec4, r1: Vec4, r2: Vec4, r3: Vec4)

  /** cos and sin of one angle. */
  datatype CosSin = CosSin(c: real, s: real)

  /** The (cos, sin) pairs of a rotation vector's x, y and z angles. */
  datatype Angles = Angles(x: CosSin, y: CosSin, z: CosSin)

  /** cos 0 and sin 0. */
  const NoTurn := CosSin(1.0, 0.0)

  predicate IsUnit(a: CosSin) { a.c * a.c + a.s * a.s == 1.0 }

  predicate AnglesAreUnit(a: Angles) { IsUnit(a.x) && IsUnit(a.y) && IsUnit(a.z) }

  /** The pairs of the negated angles: cos(-t) = cos t, sin(-t) = -sin t. */
  function Negated(a: Angles): Angles
  {
    Angles(CosSin(a.x.c, -a.x.s), CosSin(a.y.c, -a.y.s), CosSin(a.z.c, -a.z.s))
  }

  function Dot4(a: Vec4, b: Vec4): real { a.x * b.x + a.y * b.y + a.z * b.z + a.w * b.w }

  /** `m @ v` for a column vector `v`. */
  function Apply(m: Mat4, v: Vec4): Vec4
  {
    Vec4(Dot4(m.r0, v), Dot4(m.r1, v), Dot4(m.r2, v), Dot4(m.r3, v))
  }

  /** The row vector `r @ b`: the combination of `b`'s rows weighted by `r`. */
  function RowMul(r: Vec4, b: Mat4): Vec4
  {
    Vec4(r.x * b.r0.x + r.y * b.r1.x + r.z * b.r2.x + r.w * b.r3.x,
         r.x * b.r0.y + r.y * b.r1.y + r.z * b.r2.y + r.w * b.r3.y,
         r.x * b.r0.z + r.y * b.r1.z + r.z * b.r2.z + r.w * b.r3.z,
         r.x * b.r0.w + r.y * b.r1.w + r.z * b.r2.w + r.w * b.r3.w)
  }

  /** The matrix product `a @ b`. */
  function Mul(a: Mat4, b: Mat4): Mat4
  {
    Mat4(RowMul(a.r0, b), RowMul(a.r1, b), RowMul(a.r2, b), RowMul(a.r3, b))
  }

  const Identity := Mat4(Vec4(1.0, 0.0, 0.0, 0.0), Vec4(0.0, 1.0, 0.0, 0.0),
                         Vec4(0.0, 0.0, 1.0, 0.0), Vec4(0.0, 0.0, 0.0, 1.0))

  /** An affine transform: the bottom row is (0, 0, 0, 1). */
  predicate IsAffine(m: Mat4) { m.r3 == Vec4(0.0, 0.0, 0.0, 1.0) }

  /** An affine transform that also fixes the origin (last column (0, 0, 0, 1)). */
  predicate IsLinearBlock(m: Mat4) { IsAffine(m) && m.r0.w == 0.0 && m.r1.w == 0.0 && m.r2.w == 0.0 }

  /** Column 3, rows 0..2: where the matrix sends the origin. */
  function Translation3(m: Mat4): Vec3 { Vec3(m.r0.w, m.r1.w, m.r2.w) }

  function Translation(d: Vec3): Mat4
  {
    Mat4(Vec4(1.0, 0.0, 0.0, d.x), Vec4(0.0, 1.0, 0.0, d.y),
         Vec4(0.0, 0.0, 1.0, d.z), Vec4(0.0, 0.0, 0.0, 1.0))
  }

  function Scaling(s: Vec3): Mat4
  {
    Mat4(Vec4(s.x, 0.0, 0.0, 0.0), Vec4(0.0, s.y, 0.0, 0.0),
         Vec4(0.0, 0.0, s.z, 0.0), Vec4(0.0, 0.0, 0.0, 1.0))
  }

  function RotationX(a: CosSin): Mat4
  {
    Mat4(Vec4(1.0, 0.0, 0.0, 0.0), Vec4(0.0, a.c, -a.s, 0.0),
         Vec4(0.0, a.s, a.c, 0.0), Vec4(0.0, 0.0, 0.0, 1.0))
  }

  function RotationY(a: CosSin): Mat4
  {
    Mat4(Vec4(a.c, 0.0, a.s, 0.0), Vec4(0.0, 1.0, 0.0, 0.0),
         Vec4(-a.s, 0.0, a.c, 0.0), Vec4(0.0, 0.0, 0.0, 1.0))
  }

  function RotationZ(a: CosSin): Mat4
  {
    Mat4(Vec4(a.c, -a.s, 0.0, 0.0), Vec4(a.s, a.c, 0.0, 0.0),
         Vec4(0.0, 0.0, 1.0, 0.0), Vec4(0.0, 0.0, 0.0, 1.0))
  }

  /** `build_rotation_matrix`: Rz @ Ry @ Rx, or Rx @ Ry @ Rz when `inverse`. */
  function Rotation(a: Angles, inverse: bool): Mat4
  {
    if inverse then Mul(Mul(RotationX(a.x), RotationY(a.y)), RotationZ(a.z))
    else Mul(Mul(RotationZ(a.z), RotationY(a.y)), RotationX(a.x))
  }

  /** `build_normalization_matrix`: S @ Rz @ T(-p). The program builds Rz as
      the rotation of the vector (0, 0, angle); its x and y factors are
      identities, so the elementary z rotation is used directly. */
  function Normalization(p: Vec3, zTurn: CosSin, s: Vec3): Mat4
  {
    Mul(Mul(Scaling(s), RotationZ(zTurn)), Translation(p.Neg()))
  }

  /** `build_projection_matrix`: Rx @ Ry @ T(-cop), each rotation built from a
      vector with a single non-zero angle. The two angles come from the
      window normal through acos, so their (cos, sin) pairs are given. */
  function Projection(cop: Vec3, xTurn: CosSin, yTurn: CosSin): Mat4
  {
    Mul(Mul(RotationX(xTurn), RotationY(yTurn)), Translation(cop.Neg()))
  }

  function Perspective(d: real): Mat4
    requires d != 0.0
  {
    Mat4(Vec4(1.0, 0.0, 0.0, 0.0), Vec4(0.0, 1.0, 0.0, 0.0),
         Vec4(0.0, 0.0, 1.0, 0.0), Vec4(0.0, 0.0, 1.0 / d, 0.0))
  }

  /** `multiply_vectors`: each vector in homogeneous form through `m`,
      keeping the first three components (no division by w). */
  function MultiplyVectors(m: Mat4, vs: seq<Vec3>): (r: seq<Vec3>)
    ensures |r| == |vs|
    ensures forall i :: 0 <= i < |vs| ==> r[i] == Drop3(Apply(m, Homogeneous(vs[i])))
  {
    seq(|vs|, i requires 0 <= i < |vs| => Drop3(Apply(m, Homogeneous(vs[i]))))
  }

  // ---------------------------------------------------------------- lemmas

  /** Applying a product is applying its factors right to left. */
  lemma ApplyMul(a: Mat4, b: Mat4, v: Vec4)
    ensures Apply(Mul(a, b), v) == Apply(a, Apply(b, v))
  {
    RowMulDot(a.r0, b, v);
    RowMulDot(a.r1, b, v);
    RowMulDot(a.r2, b, v);
    RowMulDot(a.r3, b, v);
  }

  lemma RowMulDot(r: Vec4, b: Mat4, v: Vec4)
    ensures Dot4(RowMul(r, b), v) == Dot4(r, Apply(b, v))
  {
    DotByColumns(r, b, v);
    DotByRows(r, b, v);
    Regroup(r.x * b.r0.x * v.x, r.x * b.r0.y * v.y, r.x * b.r0.z * v.z, r.x * b.r0.w * v.w, r.y * b.r1.x * v.x, r.y * b.r1.y * v.y, r.y * b.r1.z * v.z, r.y * b.r1.w * v.w, r.z * b.r2.x * v.x, r.z * b.r2.y * v.y, r.z * b.r2.z * v.z, r.z * b.r2.w * v.w, r.w * b.r3.x * v.x, r.w * b.r3.y * v.y, r.w * b.r3.z * v.z, r.w * b.r3.w * v.w);
  }

  /** `(r @ b) . v` expanded column by column. */
  lemma DotByColumns(r: Vec4, b: Mat4, v: Vec4)
    ensures Dot4(RowMul(r, b), v)
         == (r.x * b.r0.x * v.x + r.y * b.r1.x * v.x + r.z * b.r2.x * v.x + r.w * b.r3.x * v.x) + (r.x * b.r0.y * v.y + r.y * b.r1.y * v.y + r.z * b.r2.y * v.y + r.w * b.r3.y * v.y) + (r.x * b.r0.z * v.z + r.y * b.r1.z * v.z + r.z * b.r2.z * v.z + r.w * b.r3.z * v.z) + (r.x * b.r0.w * v.w + r.y * b.r1.w * v.w + r.z * b.r2.w * v.w + r.w * b.r3.w * v.w)
  {
    Distribute(r.x * b.r0.x, r.y * b.r1.x, r.z * b.r2.x, r.w * b.r3.x, v.x);
    Distribute(r.x * b.r0.y, r.y * b.r1.y, r.z * b.r2.y, r.w * b.r3.y, v.y);
    Distribute(r.x * b.r0.z, r.y * b.r1.z, r.z * b.r2.z, r.w * b.r3.z, v.z);
    Distribute(r.x * b.r0.w, r.y * b.r1.w, r.z * b.r2.w, r.w * b.r3.w, v.w);
  }

  /** `r . (b @ v)` expanded row by row. */
  lemma DotByRows(r: Vec4, b: Mat4, v: Vec4)
    ensures Dot4(r, Apply(b, v))
         == (r.x * b.r0.x * v.x + r.x * b.r0.y * v.y + r.x * b.r0.z * v.z + r.x * b.r0.w * v.w) + (r.y * b.r1.x * v.x + r.y * b.r1.y * v.y + r.y * b.r1.z * v.z + r.y * b.r1.w * v.w) + (r.z * b.r2.x * v.x + r.z * b.r2.y * v.y + r.z * b.r2.z * v.z + r.z * b.r2.w * v.w) + (r.w * b.r3.x * v.x + r.w * b.r3.y * v.y + r.w * b.r3.z * v.z + r.w * b.r3.w * v.w)
  {
    ScaleDot4(r.x, b.r0, v);
    ScaleDot4(r.y, b.r1, v);
    ScaleDot4(r.z, b.r2, v);
    ScaleDot4(r.w, b.r3, v);
  }

  /** A four-by-four sum read by columns is the same sum read by rows. */
  lemma Regroup(p00: real, p01: real, p02: real, p03: real, p10: real, p11: real, p12: real, p13: real,
                p20: real, p21: real, p22: real, p23: real, p30: real, p31: real, p32: real, p33: real)
    ensures (p00 + p10 + p20 + p30) + (p01 + p11 + p21 + p31) + (p02 + p12 + p22 + p32) + (p03 + p13 + p23 + p33)
         == (p00 + p01 + p02 + p03) + (p10 + p11 + p12 + p13) + (p20 + p21 + p22 + p23) + (p30 + p31 + p32 + p33)
  {
  }

  lemma Distribute(a: real, b: real, c: real, d: real, k: real)
    ensures (a + b + c + d) * k == a * k + b * k + c * k + d * k
  {
  }

  lemma ScaleDot4(k: real, a: Vec4, v: Vec4)
    ensures k * Dot4(a, v) == k * a.x * v.x + k * a.y * v.y + k * a.z * v.z + k * a.w * v.w
  {
  }

  lemma MulAffine(a: Mat4, b: Mat4)
    requires IsAffine(a) && IsAffine(b)
    ensures IsAffine(Mul(a, b))
  {
  }

  lemma MulLinearBlock(a: Mat4, b: Mat4)
    requires IsLinearBlock(a) && IsLinearBlock(b)
    ensures IsLinearBlock(Mul(a, b))
  {
  }

  /** An affine matrix keeps w = 1, so its action on points is `Drop3` of it. */
  lemma AffineKeepsW(m: Mat4, p: Vec3)
    requires IsAffine(m)
    ensures Apply(m, Homogeneous(p)) == Homogeneous(Drop3(Apply(m, Homogeneous(p))))
  {
  }

  /** Column 3 of a product with an affine right factor is the left factor
      applied to the right factor's column 3. */
  lemma Translation3OfMul(a: Mat4, b: Mat4)
    requires IsAffine(b)
    ensures Translation3(Mul(a, b)) == Drop3(Apply(a, Homogeneous(Translation3(b))))
  {
    assert Homogeneous(Translation3(b)) == Vec4(b.r0.w, b.r1.w, b.r2.w, b.r3.w);
  }

  /** translation(d) maps (p, 1) to (p + d, 1). */
  lemma TranslationMoves(d: Vec3, p: Vec3)
    ensures Apply(Translation(d), Homogeneous(p)) == Homogeneous(p.Add(d))
  {
  }

  /** T(a) @ T(b) = T(a + b). */
  lemma TranslationCompose(a: Vec3, b: Vec3)
    ensures Mul(Translation(a), Translation(b)) == Translation(a.Add(b))
  {
  }

  /** T(d) @ T(-d) = I. */
  lemma TranslationInverse(d: Vec3)
    ensures Mul(Translation(d), Translation(d.Neg())) == Identity
  {
    TranslationCompose(d, d.Neg());
  }

  lemma IdentityNeutral(m: Mat4, v: Vec4)
    ensures Mul(Identity, m) == m && Mul(m, Identity) == m && Apply(Identity, v) == v
  {
  }

  /** scaling(s) multiplies each coordinate by its factor and fixes the origin. */
  lemma ScalingMoves(s: Vec3, p: Vec3)
    ensures Apply(Scaling(s), Homogeneous(p)) == Homogeneous(Vec3(s.x * p.x, s.y * p.y, s.z * p.z))
    ensures IsLinearBlock(Scaling(s))
  {
  }

  /** The perspective matrix maps (x, y, z, 1) to (x, y, z, z / d). */
  lemma PerspectiveDivides(d: real, p: Vec3)
    requires d != 0.0
    ensures Apply(Perspective(d), Homogeneous(p)) == Vec4(p.x, p.y, p.z, p.z / d)
  {
  }

  /** Each elementary rotation, and so each composed rotation, has last row
      and last column (0, 0, 0, 1). */
  lemma RotationIsLinearBlock(a: Angles, inverse: bool)
    ensures IsLinearBlock(RotationX(a.x)) && IsLinearBlock(RotationY(a.y)) && IsLinearBlock(RotationZ(a.z))
    ensures IsLinearBlock(Rotation(a, inverse))
  {
    MulLinearBlock(RotationX(a.x), RotationY(a.y));
    MulLinearBlock(Mul(RotationX(a.x), RotationY(a.y)), RotationZ(a.z));
    MulLinearBlock(RotationZ(a.z), RotationY(a.y));
    MulLinearBlock(Mul(RotationZ(a.z), RotationY(a.y)), RotationX(a.x));
  }

  /** Turning by -t undoes turning by t about each axis. */
  lemma ElementaryInverse(a: CosSin, v: Vec4)
    requires IsUnit(a)
    ensures Apply(RotationX(CosSin(a.c, -a.s)), Apply(RotationX(a), v)) == v
    ensures Apply(RotationY(CosSin(a.c, -a.s)), Apply(RotationY(a), v)) == v
    ensures Apply(RotationZ(CosSin(a.c, -a.s)), Apply(RotationZ(a), v)) == v
  {
    var cc, ss := a.c * a.c, a.s * a.s;
    assert cc + ss == 1.0;
    assert a.c * (a.c * v.y - a.s * v.z) + a.s * (a.s * v.y + a.c * v.z) == (cc + ss) * v.y;
    assert -a.s * (a.c * v.y - a.s * v.z) + a.c * (a.s * v.y + a.c * v.z) == (cc + ss) * v.z;
    assert a.c * (a.c * v.x + a.s * v.z) - a.s * (-a.s * v.x + a.c * v.z) == (cc + ss) * v.x;
    assert a.s * (a.c * v.x + a.s * v.z) + a.c * (-a.s * v.x + a.c * v.z) == (cc + ss) * v.z;
    assert a.c * (a.c * v.x - a.s * v.y) + a.s * (a.s * v.x + a.c * v.y) == (cc + ss) * v.x;
    assert -a.s * (a.c * v.x - a.s * v.y) + a.c * (a.s * v.x + a.c * v.y) == (cc + ss) * v.y;
  }

  /** build_rotation_matrix(-r, True) undoes build_rotation_matrix(r): the
      inverse order Rx @ Ry @ Rz with negated angles reverses Rz @ Ry @ Rx. */
  lemma RotationInverse(a: Angles, v: Vec4)
    requires AnglesAreUnit(a)
    ensures Apply(Rotation(Negated(a), true), Apply(Rotation(a, false), v)) == v
  {
    var n := Negated(a);
    var v1 := Apply(RotationX(a.x), v);
    var v2 := Apply(RotationY(a.y), v1);
    var v3 := Apply(RotationZ(a.z), v2);
    ApplyMul(Mul(RotationZ(a.z), RotationY(a.y)), RotationX(a.x), v);
    ApplyMul(RotationZ(a.z), RotationY(a.y), v1);
    assert Apply(Rotation(a, false), v) == v3;
    ApplyMul(Mul(RotationX(n.x), RotationY(n.y)), RotationZ(n.z), v3);
    ApplyMul(RotationX(n.x), RotationY(n.y), Apply(RotationZ(n.z), v3));
    ElementaryInverse(a.z, v2);
    ElementaryInverse(a.y, v1);
    ElementaryInverse(a.x, v);
  }

  /** The other way round: Rz @ Ry @ Rx with negated angles undoes
      Rx @ Ry @ Rz. */
  lemma InverseRotationInverse(a: Angles, v: Vec4)
    requires AnglesAreUnit(a)
    ensures Apply(Rotation(Negated(a), false), Apply(Rotation(a, true), v)) == v
  {
    var n := Negated(a);
    var v1 := Apply(RotationZ(a.z), v);
    var v2 := Apply(RotationY(a.y), v1);
    var v3 := Apply(RotationX(a.x), v2);
    ApplyMul(Mul(RotationX(a.x), RotationY(a.y)), RotationZ(a.z), v);
    ApplyMul(RotationX(a.x), RotationY(a.y), v1);
    assert Apply(Rotation(a, true), v) == v3;
    ApplyMul(Mul(RotationZ(n.z), RotationY(n.y)), RotationX(n.x), v3);
    ApplyMul(RotationZ(n.z), RotationY(n.y), Apply(RotationX(n.x), v3));
    ElementaryInverse(a.x, v2);
    ElementaryInverse(a.y, v1);
    ElementaryInverse(a.z, v);
  }

  /** T(o) @ R @ T(-o) leaves the pivot `o` where it is, for any block R that
      fixes the origin. */
  lemma PivotFixed(o: Vec3, r: Mat4)
    requires IsLinearBlock(r)
    ensures Apply(Mul(Mul(Translation(o), r), Translation(o.Neg())), Homogeneous(o)) == Homogeneous(o)
  {
    ApplyMul(Mul(Translation(o), r), Translation(o.Neg()), Homogeneous(o));
    TranslationMoves(o.Neg(), o);
    assert Apply(Translation(o.Neg()), Homogeneous(o)) == Vec4(0.0, 0.0, 0.0, 1.0);
    ApplyMul(Translation(o), r, Vec4(0.0, 0.0, 0.0, 1.0));
  }

  /** The projection matrix takes the centre of projection to the origin. */
  lemma ProjectionCentresCop(cop: Vec3, xTurn: CosSin, yTurn: CosSin)
    ensures Apply(Projection(cop, xTurn, yTurn), Homogeneous(cop)) == Vec4(0.0, 0.0, 0.0, 1.0)
  {
    var rx := RotationX(xTurn);
    var ry := RotationY(yTurn);
    RotationIsLinearBlock(Angles(xTurn, yTurn, NoTurn), false);
    MulLinearBlock(rx, ry);
    ApplyMul(Mul(rx, ry), Translation(cop.Neg()), Homogeneous(cop));
    TranslationMoves(cop.Neg(), cop);
    assert Apply(Translation(cop.Neg()), Homogeneous(cop)) == Vec4(0.0, 0.0, 0.0, 1.0);
  }

  /** The normalization matrix takes the window centre to the origin. */
  lemma NormalizationCentresWindow(p: Vec3, zTurn: CosSin, s: Vec3)
    ensures Apply(Normalization(p, zTurn, s), Homogeneous(p)) == Vec4(0.0, 0.0, 0.0, 1.0)
  {
    var rz := RotationZ(zTurn);
    RotationIsLinearBlock(Angles(NoTurn, NoTurn, zTurn), false);
    MulLinearBlock(Scaling(s), rz);
    ApplyMul(Mul(Scaling(s), rz), Translation(p.Neg()), Homogeneous(p));
    TranslationMoves(p.Neg(), p);
    assert Apply(Translation(p.Neg()), Homogeneous(p)) == Vec4(0.0, 0.0, 0.0, 1.0);
  }

  /** Mapping through a product equals mapping through each factor in turn
      when the right factor is affine (it keeps w = 1 in between). */
  lemma MultiplyVectorsCompose(a: Mat4, b: Mat4, vs: seq<Vec3>)
    requires IsAffine(b)
    ensures MultiplyVectors(Mul(a, b), vs) == MultiplyVectors(a, MultiplyVectors(b, vs))
  {
    forall i | 0 <= i < |vs|
      ensures MultiplyVectors(Mul(a, b), vs)[i] == MultiplyVectors(a, MultiplyVectors(b, vs))[i]
    {
      ApplyMul(a, b, Homogeneous(vs[i]));
      AffineKeepsW(b, vs[i]);
    }
  }

  /** `multiply_vectors` with a translation moves every vector by `d`. */
  lemma MultiplyVectorsTranslation(d: Vec3, vs: seq<Vec3>)
    ensures MultiplyVectors(Translation(d), vs) == seq(|vs|, i requires 0 <= i < |vs| => vs[i].Add(d))
  {
    forall i | 0 <= i < |vs|
      ensures MultiplyVectors(Translation(d), vs)[i] == vs[i].Add(d)
    {
      TranslationMoves(d, vs[i]);
    }
  }
}
