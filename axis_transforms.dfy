/** The older object transform of backend/transform.py, and the older
    renderable object of backend/wireframes.py built on it.

    The transform does not keep a matrix. It tracks a position and three
    axis points, which start at position + e_x, position + e_y and
    position + e_z. Every tracked point is an older four-component vector
    (`LegacyVectors`). The axis points start as sums of two fresh vectors,
    so their stored w is 2, and `translate` adds the direction's w to every
    tracked point. The pivot matrices act on all four stored components, so
    a point whose w is not 1 is moved by w times their translation parts.

    `AxisTransform` is the transform as written. `PointFrame` is the same
    transform with every tracked point kept as a plain point (w = 1), which
    is what the scale readback and the fixed default pivot need; the object
    uses `PointFrame`. The rotation and scaling matrix builders are those of
    `Matrices` (the module the transform imports them from is not part of
    this model). */
module AxisTransforms {
  import opened Vectors
  import opened Matrices
  import opened Outcomes
  import opened LegacyVectors
  import Objects
  import Transforms
  import LegacyTransforms
  import LegacyShapes

  /** The unit offsets of the three axis points. */
  const UnitX := Vec3(1.0, 0.0, 0.0)
  const UnitY := Vec3(0.0, 1.0, 0.0)
  const UnitZ := Vec3(0.0, 0.0, 1.0)

  /** T(o) @ m @ T(-o): `m` acting about the pivot `o`. */
  function Pivot(m: Mat4, o: Vec3): Mat4 { Mul(Mul(Translation(o), m), Translation(o.Neg())) }

  /** A stored vector through `m`, read back as a fresh vector built from the
      first three components of the image. */
  function Through(m: Mat4, v: Vec4): Vec4 { Homogeneous(Drop3(Apply(m, v))) }

  function AllThrough(m: Mat4, vs: seq<Vec4>): (r: seq<Vec4>)
    ensures |r| == |vs|
  {
    seq(|vs|, i requires 0 <= i < |vs| => Through(m, vs[i]))
  }

  /** The x, y, z parts of a list of stored vectors. */
  function Points(vs: seq<Vec4>): (r: seq<Vec3>)
    ensures |r| == |vs|
  {
    seq(|vs|, i requires 0 <= i < |vs| => Drop3(vs[i]))
  }

  /** The upper 3x3 block of `m` applied to a direction. */
  function Linear(m: Mat4, d: Vec3): Vec3 { Drop3(Apply(m, Vec4(d.x, d.y, d.z, 0.0))) }

  /** The pivot, or the position when none is given. */
  function PivotOrPosition(origin: Option<Vec3>, position: Vec3): Vec3
  {
    if origin.Some? then origin.value else position
  }

  /** The loop shared by `get_translated`, `get_rotated`, `get_scaled` and
      `normalize` (backend/transform.py:106-113, 141-147, 177-184, 211-217):
      each stored vector through `m`, appended in order as a fresh vector. */
  method MapThrough(m: Mat4, vs: seq<Vec4>) returns (out: seq<Vec4>)
    ensures out == AllThrough(m, vs)
    ensures forall i :: 0 <= i < |out| ==> out[i].w == 1.0
  {
    out := [];
    for i := 0 to |vs|
      invariant |out| == i
      invariant forall j :: 0 <= j < i ==> out[j] == Through(m, vs[j])
    {
      var image := Apply(m, vs[i]);
      out := out + [Vec4(image.x, image.y, image.z, 1.0)];
    }
  }

  /** A translation moves a stored vector by w times its offset. */
  lemma WeightedTranslation(d: Vec3, v: Vec4)
    ensures Drop3(Apply(Translation(d), v)) == Drop3(v).Add(d.Scale(v.w)) && Apply(Translation(d), v).w == v.w
  {
  }

  /** A linear block acts on x, y, z alone and keeps w. */
  lemma LinearBlockWeighted(m: Mat4, v: Vec4)
    requires IsLinearBlock(m)
    ensures Drop3(Apply(m, v)) == Linear(m, Drop3(v)) && Apply(m, v).w == v.w
  {
  }

  lemma LinearScales(m: Mat4, d: Vec3, k: real)
    ensures Linear(m, d.Scale(k)) == Linear(m, d).Scale(k)
  {
    assert Linear(m, d.Scale(k)).x == (m.r0.x * d.x + m.r0.y * d.y + m.r0.z * d.z) * k;
    assert Linear(m, d.Scale(k)).y == (m.r1.x * d.x + m.r1.y * d.y + m.r1.z * d.z) * k;
    assert Linear(m, d.Scale(k)).z == (m.r2.x * d.x + m.r2.y * d.y + m.r2.z * d.z) * k;
  }

  lemma NegatedScale(o: Vec3, w: real)
    ensures o.Neg().Scale(w) == o.Scale(w).Neg()
  {
  }

  /** A stored vector of weight w through T(o) @ m @ T(-o), for a linear
      block m: the pivot is subtracted and added back w times. */
  lemma PivotWeighted(m: Mat4, o: Vec3, v: Vec4)
    requires IsLinearBlock(m)
    ensures Drop3(Apply(Pivot(m, o), v)) == Linear(m, Drop3(v).Sub(o.Scale(v.w))).Add(o.Scale(v.w))
  {
    var t, back := Translation(o), Translation(o.Neg());
    ApplyMul(Mul(t, m), back, v);
    var u := Apply(back, v);
    WeightedTranslation(o.Neg(), v);
    NegatedScale(o, v.w);
    assert Drop3(u) == Drop3(v).Sub(o.Scale(v.w));
    ApplyMul(t, m, u);
    var mu := Apply(m, u);
    LinearBlockWeighted(m, u);
    WeightedTranslation(o, mu);
  }

  /** For fresh vectors (w = 1) the pivot matrix moves a point exactly as the
      anchored transform of the internals generation does. */
  lemma FreshPointThroughPivot(m: Mat4, o: Vec3, p: Vec3)
    requires IsLinearBlock(m)
    ensures Drop3(Through(Pivot(m, o), Homogeneous(p))) == LegacyTransforms.AboutAnchor(m, o, p)
  {
    LegacyTransforms.AboutAnchorIsConjugate(m, o, p);
  }

  /** A non-zero factor cancels from a zero product. */
  lemma FactorZero(k: real, a: real)
    requires k != 0.0 && k * a == 0.0
    ensures a == 0.0
  {
    Arith.Cancel(a, 0.0, k);
  }

  /** (1 - w) l + w p is p exactly when w = 1 or l = p. */
  lemma MixFixes(l: Vec3, p: Vec3, w: real)
    ensures l.Scale(1.0 - w).Add(p.Scale(w)) == p <==> w == 1.0 || l == p
  {
    var r := l.Scale(1.0 - w).Add(p.Scale(w));
    assert r.x - p.x == (1.0 - w) * (l.x - p.x);
    assert r.y - p.y == (1.0 - w) * (l.y - p.y);
    assert r.z - p.z == (1.0 - w) * (l.z - p.z);
    if r == p && w != 1.0 {
      FactorZero(1.0 - w, l.x - p.x);
      FactorZero(1.0 - w, l.y - p.y);
      FactorZero(1.0 - w, l.z - p.z);
    }
  }

  /** A stored vector pivoted about its own x, y, z stays in place exactly
      when its weight is 1 or the block already fixes it: otherwise the
      point lands at (1 - w) m p + w p. */
  lemma OwnPivotFixes(m: Mat4, v: Vec4)
    requires IsLinearBlock(m)
    ensures Drop3(Apply(Pivot(m, Drop3(v)), v)) == Drop3(v) <==> v.w == 1.0 || Linear(m, Drop3(v)) == Drop3(v)
  {
    var p, w := Drop3(v), v.w;
    PivotWeighted(m, p, v);
    assert p.Sub(p.Scale(w)) == p.Scale(1.0 - w);
    LinearScales(m, p, 1.0 - w);
    MixFixes(Linear(m, p), p, w);
  }

  /** Per-axis scaling of a direction. */
  function ScaledBy(s: Vec3, d: Vec3): Vec3 { Vec3(s.x * d.x, s.y * d.y, s.z * d.z) }

  /** An axis point as written, the sum of the fresh vectors p and e
      (stored weight 2), pivoted about p: the pivot is subtracted and added
      back twice, so the point lands at m (e - p) + 2 p rather than at
      p + m e. */
  lemma DoubledAxisThroughPivot(m: Mat4, p: Vec3, e: Vec3)
    requires IsLinearBlock(m)
    ensures Drop3(Through(Pivot(m, p), Plus(Homogeneous(p), Homogeneous(e)))) == Linear(m, e.Sub(p)).Add(p.Scale(2.0))
  {
    var axis := Plus(Homogeneous(p), Homogeneous(e));
    PivotWeighted(m, p, axis);
    assert Drop3(axis).Sub(p.Scale(axis.w)) == e.Sub(p);
  }

  /** Rescaling as written, from the rest pose at p: the local x axis
      becomes S (e_x - p) + p instead of S e_x. */
  lemma RescaledDoubledAxis(s: Vec3, p: Vec3)
    ensures Drop3(Through(Pivot(Scaling(s), p), Plus(Homogeneous(p), Homogeneous(UnitX)))).Sub(p)
      == ScaledBy(s, UnitX.Sub(p)).Add(p)
  {
    DoubledAxisThroughPivot(Scaling(s), p, UnitX);
    assert Linear(Scaling(s), UnitX.Sub(p)) == ScaledBy(s, UnitX.Sub(p));
  }

  /** With the position at (1, 0, 0), rescaling by any s leaves the local x
      axis at (1, 0, 0): the squared readback stays 1, where s = (2, 1, 1)
      should give 4. */
  lemma RescaleMisreadsScale(s: Vec3, p: Vec3)
    requires p == UnitX
    ensures Drop3(Through(Pivot(Scaling(s), p), Plus(Homogeneous(p), Homogeneous(UnitX)))).Sub(p) == UnitX
  {
    RescaledDoubledAxis(s, p);
    UnitOffsetScaled(s);
  }

  lemma UnitOffsetScaled(s: Vec3)
    ensures ScaledBy(s, UnitX.Sub(UnitX)).Add(UnitX) == UnitX
  {
  }

  /** The second coordinate of backend/wireframes.py's `Point` is
      `position + Vector(1.0, 0.0)`, which stores w = 2. The first
      translation by d therefore moves it by 2 d, while the position itself
      moves by d, so the unit marker is stretched whenever d is non-zero. */
  lemma PointMarkerMovesTwice(p: Vec3, d: Vec3)
    ensures Drop3(Through(Translation(d), Plus(Homogeneous(p), Homogeneous(UnitX)))) == p.Add(UnitX).Add(d.Scale(2.0))
    ensures d != Zero ==>
      Drop3(Through(Translation(d), Plus(Homogeneous(p), Homogeneous(UnitX)))) != p.Add(UnitX).Add(d)
  {
    var v := Plus(Homogeneous(p), Homogeneous(UnitX));
    WeightedTranslation(d, v);
    assert Drop3(v) == p.Add(UnitX) && v.w == 2.0;
    if d != Zero {
      var twice := p.Add(UnitX).Add(d.Scale(2.0));
      var once := p.Add(UnitX).Add(d);
      assert twice.x - once.x == d.x && twice.y - once.y == d.y && twice.z - once.z == d.z;
    }
  }

  /** The direction part of a matrix distributes over a difference. */
  lemma LinearSub(m: Mat4, a: Vec3, b: Vec3)
    ensures Linear(m, a.Sub(b)) == Linear(m, a).Sub(Linear(m, b))
  {
  }

  /** A coordinate built as the sum `a + e` of two fresh vectors (the
      `Point` marker and two corners of `Parallelepiped` in
      backend/wireframes.py) stores w = 2. Rotated or rescaled about a
      pivot o by the as-written `get_rotated` or `get_scaled`, it lands at
      m (a + e - 2 o) + 2 o. That is where a plain point lands, m (a + e - o) + o,
      exactly when m already fixes o. */
  lemma SummedCoordThroughPivot(m: Mat4, o: Vec3, a: Vec3, e: Vec3)
    requires IsLinearBlock(m)
    ensures Drop3(Through(Pivot(m, o), Plus(Homogeneous(a), Homogeneous(e))))
         == Linear(m, a.Add(e).Sub(o.Scale(2.0))).Add(o.Scale(2.0))
    ensures (Drop3(Through(Pivot(m, o), Plus(Homogeneous(a), Homogeneous(e))))
             == LegacyTransforms.AboutAnchor(m, o, a.Add(e)))
        <==> Linear(m, o) == o
  {
    var v := Plus(Homogeneous(a), Homogeneous(e));
    var c := a.Add(e);
    PivotWeighted(m, o, v);
    assert Drop3(v) == c && v.w == 2.0;
    var written := Linear(m, c.Sub(o.Scale(2.0))).Add(o.Scale(2.0));
    var intended := LegacyTransforms.AboutAnchor(m, o, c);
    LinearBlockWeighted(m, Homogeneous(c.Sub(o)));
    assert intended == Linear(m, c.Sub(o)).Add(o);
    LinearSub(m, c, o.Scale(2.0));
    LinearSub(m, c, o);
    LinearScales(m, o, 2.0);
    var lc, lo := Linear(m, c), Linear(m, o);
    assert written == lc.Sub(lo.Scale(2.0)).Add(o.Scale(2.0));
    assert intended == lc.Sub(lo).Add(o);
    assert written.x - intended.x == o.x - lo.x;
    assert written.y - intended.y == o.y - lo.y;
    assert written.z - intended.z == o.z - lo.z;
  }

  /** backend/transform.py as written: position and axis points as stored
      four-component vectors. */
  class AxisTransform {
    var position: Vec4
    var xAxis: Vec4
    var yAxis: Vec4
    var zAxis: Vec4

    /** The constructor (backend/transform.py:25-30): each axis point is the
        position plus a fresh unit vector, all four components added. */
    constructor (position: Vec4)
      ensures this.position == position
      ensures xAxis == Plus(position, Homogeneous(Vec3(1.0, 0.0, 0.0)))
      ensures yAxis == Plus(position, Homogeneous(Vec3(0.0, 1.0, 0.0)))
      ensures zAxis == Plus(position, Homogeneous(Vec3(0.0, 0.0, 1.0)))
    {
      this.position := position;
      xAxis := Plus(position, Homogeneous(Vec3(1.0, 0.0, 0.0)));
      yAxis := Plus(position, Homogeneous(Vec3(0.0, 1.0, 0.0)));
      zAxis := Plus(position, Homogeneous(Vec3(0.0, 0.0, 1.0)));
    }

    /** An axis point relative to the position, x, y, z only. */
    function Local(axis: Vec4): Vec3
      reads this
    {
      Drop3(Minus(axis, position))
    }

    /** The scale readback (backend/transform.py:85-97), squared: the
        squared lengths of the three local axes. */
    function SqScale(): Vec3
      reads this
    {
      Vec3(Local(xAxis).SqNorm(), Local(yAxis).SqNorm(), Local(zAxis).SqNorm())
    }

    /** `translate` (backend/transform.py:99-125): `+=` on the position and
        the axis points, all four components, and the coordinates through
        the translation matrix. A coordinate of weight w moves by w d. */
    method Translate(direction: Vec4, coords: seq<Vec4>) returns (newCoords: seq<Vec4>)
      modifies this
      ensures position == Plus(old(position), direction)
      ensures xAxis == Plus(old(xAxis), direction)
      ensures yAxis == Plus(old(yAxis), direction)
      ensures zAxis == Plus(old(zAxis), direction)
      ensures newCoords == AllThrough(Translation(Drop3(direction)), coords)
      ensures forall i :: 0 <= i < |coords| ==>
        Drop3(newCoords[i]) == Drop3(coords[i]).Add(Drop3(direction).Scale(coords[i].w))
      ensures SqScale() == old(SqScale())
    {
      position := Plus(position, direction);
      xAxis := Plus(xAxis, direction);
      yAxis := Plus(yAxis, direction);
      zAxis := Plus(zAxis, direction);
      newCoords := MapThrough(Translation(Drop3(direction)), coords);
      forall i | 0 <= i < |coords|
        ensures Drop3(newCoords[i]) == Drop3(coords[i]).Add(Drop3(direction).Scale(coords[i].w))
      {
        WeightedTranslation(Drop3(direction), coords[i]);
      }
    }

    /** `rotate` (backend/transform.py:127-164): the position, the axis
        points and the coordinates through T(o) @ R @ T(-o), the pivot `o`
        defaulting to the position. With the default pivot the position
        stays put when its stored weight is 1. */
    method Rotate(turn: Angles, coords: seq<Vec4>, origin: Option<Vec3>) returns (newCoords: seq<Vec4>)
      modifies this
      ensures var m := Pivot(Rotation(turn, false), PivotOrPosition(origin, Drop3(old(position))));
        position == Through(m, old(position)) && xAxis == Through(m, old(xAxis))
        && yAxis == Through(m, old(yAxis)) && zAxis == Through(m, old(zAxis))
        && newCoords == AllThrough(m, coords)
      ensures origin.None? && old(position).w == 1.0 ==> Drop3(position) == Drop3(old(position))
    {
      var o := PivotOrPosition(origin, Drop3(position));
      var m := Pivot(Rotation(turn, false), o);
      RotationIsLinearBlock(turn, false);
      OwnPivotFixes(Rotation(turn, false), position);
      var internal := MapThrough(m, [position, xAxis, yAxis, zAxis]);
      newCoords := MapThrough(m, coords);
      position := internal[0];
      xAxis := internal[1];
      yAxis := internal[2];
      zAxis := internal[3];
    }

    /** `rescale` (backend/transform.py:166-198): the axis points and the
        coordinates through T(p) @ S @ T(-p) about the position p, which
        itself does not move. */
    method Rescale(s: Vec3, coords: seq<Vec4>) returns (newCoords: seq<Vec4>)
      modifies this
      ensures position == old(position)
      ensures var m := Pivot(Scaling(s), Drop3(old(position)));
        xAxis == Through(m, old(xAxis)) && yAxis == Through(m, old(yAxis)) && zAxis == Through(m, old(zAxis))
        && newCoords == AllThrough(m, coords)
    {
      var m := Pivot(Scaling(s), Drop3(position));
      var internal := MapThrough(m, [xAxis, yAxis, zAxis]);
      newCoords := MapThrough(m, coords);
      xAxis := internal[0];
      yAxis := internal[1];
      zAxis := internal[2];
    }
  }

  /** `normalize` (backend/transform.py:200-217): every stored vector
      through the normalization matrix; a fresh copy of the window centre
      lands on the origin. */
  method NormalizeStored(windowPosition: Vec3, zTurn: CosSin, diffScale: Vec3, coords: seq<Vec4>)
    returns (newCoords: seq<Vec4>)
    ensures newCoords == AllThrough(Normalization(windowPosition, zTurn, diffScale), coords)
    ensures forall i :: 0 <= i < |coords| && coords[i] == Homogeneous(windowPosition) ==> Drop3(newCoords[i]) == Zero
  {
    NormalizationCentresWindow(windowPosition, zTurn, diffScale);
    newCoords := MapThrough(Normalization(windowPosition, zTurn, diffScale), coords);
  }

  /** `project` (backend/transform.py:219-249) reads each coordinate as
      [x, y, z, 1], so the stored weights do not enter it; the drop rule is
      that of the later transform. */
  method ProjectStored(cop: Vec3, xTurn: CosSin, yTurn: CosSin, copDistance: real, coords: seq<Vec4>, isWindow: bool)
    returns (newCoords: seq<Vec3>)
    requires copDistance != 0.0
    ensures newCoords == Transforms.Projected(cop, xTurn, yTurn, copDistance, Points(coords), isWindow)
    ensures isWindow ==> |newCoords| == |coords|
    ensures |newCoords| <= |coords|
  {
    Transforms.ProjectedWindowKeepsAll(cop, xTurn, yTurn, copDistance, Points(coords));
    newCoords := Transforms.Project(cop, xTurn, yTurn, copDistance, Points(coords), isWindow);
  }

  /** `calculate_center` (backend/wireframes.py:104-114): the running sum
      starts from a fresh zero vector and adds every stored weight, but the
      division rebuilds a fresh vector, so the centre is the plain mean. */
  method Centre4(cs: seq<Vec4>) returns (c: Vec4)
    requires |cs| > 0
    ensures c == Homogeneous(Objects.Mean(Points(cs)))
  {
    var sum := Homogeneous(Zero);
    var i := 0;
    while i < |cs|
      invariant 0 <= i <= |cs|
      invariant Drop3(sum) == Objects.Sum(Points(cs[..i]))
    {
      assert Points(cs[..i + 1])[..i] == Points(cs[..i]);
      sum := Plus(sum, cs[i]);
      i := i + 1;
    }
    assert cs[..|cs|] == cs;
    var r := Over(sum, Scalar(|cs| as real));
    c := r.value;
    ScaleDivRoundTrip(Drop3(sum), |cs| as real);
  }

  /** Scaling about p moves an axis point so that its offset from p is
      scaled per axis. */
  lemma RescaledOffset(s: Vec3, p: Vec3, a: Vec3)
    ensures LegacyTransforms.AboutAnchor(Scaling(s), p, a).Sub(p) == ScaledBy(s, a.Sub(p))
  {
    LegacyTransforms.ScaleAboutAnchor(s, p, a);
  }

  lemma RestAxisReadback(s: Vec3, p: Vec3, e: Vec3)
    ensures LegacyTransforms.AboutAnchor(Scaling(s), p, p.Add(e)).Sub(p) == ScaledBy(s, e)
  {
    RescaledOffset(s, p, p.Add(e));
    assert p.Add(e).Sub(p) == e;
  }

  lemma UnitReadbacks(s: Vec3)
    ensures ScaledBy(s, UnitX).SqNorm() == s.x * s.x
    ensures ScaledBy(s, UnitY).SqNorm() == s.y * s.y
    ensures ScaledBy(s, UnitZ).SqNorm() == s.z * s.z
  {
  }

  /** From the rest pose, scaling by s makes the squared scale readback
      (s.x^2, s.y^2, s.z^2). */
  lemma RestScaleReadback(s: Vec3, p: Vec3)
    ensures LegacyTransforms.AboutAnchor(Scaling(s), p, p.Add(UnitX)).Sub(p).SqNorm() == s.x * s.x
    ensures LegacyTransforms.AboutAnchor(Scaling(s), p, p.Add(UnitY)).Sub(p).SqNorm() == s.y * s.y
    ensures LegacyTransforms.AboutAnchor(Scaling(s), p, p.Add(UnitZ)).Sub(p).SqNorm() == s.z * s.z
  {
    RestAxisReadback(s, p, UnitX);
    RestAxisReadback(s, p, UnitY);
    RestAxisReadback(s, p, UnitZ);
    UnitReadbacks(s);
  }

  /** The transform of backend/transform.py with every tracked point kept
      as a plain point (w = 1). */
  class PointFrame {
    var position: Vec3
    var xAxis: Vec3
    var yAxis: Vec3
    var zAxis: Vec3

    /** The axis points one unit from the position along each axis. */
    predicate AtRest()
      reads this
    {
      xAxis == position.Add(UnitX) && yAxis == position.Add(UnitY) && zAxis == position.Add(UnitZ)
    }

    constructor (position: Vec3)
      ensures this.position == position && AtRest()
    {
      this.position := position;
      xAxis := position.Add(UnitX);
      yAxis := position.Add(UnitY);
      zAxis := position.Add(UnitZ);
    }

    /** The squared scale readback. */
    function SqScale(): Vec3
      reads this
    {
      Vec3(xAxis.Sub(position).SqNorm(), yAxis.Sub(position).SqNorm(), zAxis.Sub(position).SqNorm())
    }

    method Translate(direction: Vec3, coords: seq<Vec3>) returns (newCoords: seq<Vec3>)
      modifies this
      ensures position == old(position).Add(direction)
      ensures xAxis == old(xAxis).Add(direction) && yAxis == old(yAxis).Add(direction)
      ensures zAxis == old(zAxis).Add(direction)
      ensures newCoords == Objects.Translated(coords, direction)
      ensures SqScale() == old(SqScale())
      ensures old(AtRest()) ==> AtRest()
    {
      position := position.Add(direction);
      xAxis := xAxis.Add(direction);
      yAxis := yAxis.Add(direction);
      zAxis := zAxis.Add(direction);
      newCoords := Objects.Translated(coords, direction);
      assert xAxis.Sub(position) == old(xAxis).Sub(old(position));
      assert yAxis.Sub(position) == old(yAxis).Sub(old(position));
      assert zAxis.Sub(position) == old(zAxis).Sub(old(position));
    }

    /** With the default pivot the position never moves. */
    method Rotate(turn: Angles, coords: seq<Vec3>, origin: Option<Vec3>) returns (newCoords: seq<Vec3>)
      modifies this
      ensures var m, o := Rotation(turn, false), PivotOrPosition(origin, old(position));
        position == LegacyTransforms.AboutAnchor(m, o, old(position))
        && xAxis == LegacyTransforms.AboutAnchor(m, o, old(xAxis))
        && yAxis == LegacyTransforms.AboutAnchor(m, o, old(yAxis))
        && zAxis == LegacyTransforms.AboutAnchor(m, o, old(zAxis))
        && newCoords == LegacyTransforms.AllAboutAnchor(m, o, coords)
      ensures origin.None? ==> position == old(position)
    {
      var m, o := Rotation(turn, false), PivotOrPosition(origin, position);
      RotationIsLinearBlock(turn, false);
      LegacyTransforms.AnchorFixed(m, o);
      var internal := LegacyTransforms.MapAboutAnchor(m, o, [position, xAxis, yAxis, zAxis]);
      newCoords := LegacyTransforms.MapAboutAnchor(m, o, coords);
      position := internal[0];
      xAxis := internal[1];
      yAxis := internal[2];
      zAxis := internal[3];
    }

    /** The local axes are scaled per axis; from the rest pose the squared
        readback is the squared scale. */
    method Rescale(s: Vec3, coords: seq<Vec3>) returns (newCoords: seq<Vec3>)
      modifies this
      ensures position == old(position)
      ensures xAxis == LegacyTransforms.AboutAnchor(Scaling(s), position, old(xAxis))
      ensures yAxis == LegacyTransforms.AboutAnchor(Scaling(s), position, old(yAxis))
      ensures zAxis == LegacyTransforms.AboutAnchor(Scaling(s), position, old(zAxis))
      ensures newCoords == LegacyTransforms.AllAboutAnchor(Scaling(s), position, coords)
      ensures xAxis.Sub(position) == ScaledBy(s, old(xAxis).Sub(position))
      ensures yAxis.Sub(position) == ScaledBy(s, old(yAxis).Sub(position))
      ensures zAxis.Sub(position) == ScaledBy(s, old(zAxis).Sub(position))
      ensures old(AtRest()) ==> SqScale() == Vec3(s.x * s.x, s.y * s.y, s.z * s.z)
    {
      var m := Scaling(s);
      RescaledOffset(s, position, xAxis);
      RescaledOffset(s, position, yAxis);
      RescaledOffset(s, position, zAxis);
      RestScaleReadback(s, position);
      var internal := LegacyTransforms.MapAboutAnchor(m, position, [xAxis, yAxis, zAxis]);
      newCoords := LegacyTransforms.MapAboutAnchor(m, position, coords);
      xAxis := internal[0];
      yAxis := internal[1];
      zAxis := internal[2];
    }
  }

  /** The renderable object of backend/wireframes.py (lines 35-170), on
      plain points and the corrected transform. */
  class AxisObject {
    var coords: seq<Vec3>
    var normalizedCoords: seq<Vec3>
    var projectedCoords: seq<Vec3>
    var vectorLines: seq<Objects.Segment>
    const lines: seq<Objects.Edge>
    const kind: Objects.ObjectKind
    const fill: bool
    const closed: bool
    const transform: PointFrame

    /** The constructor (backend/wireframes.py:54-78): the three coordinate
        lists start equal, the transform sits at rest on the centre, and the
        vector lines are resolved. */
    constructor (cs: seq<Vec3>, ls: seq<Objects.Edge>, kind: Objects.ObjectKind, fill: bool, closed: bool)
      requires |cs| > 0
      ensures coords == cs && normalizedCoords == cs && projectedCoords == cs
      ensures lines == ls && this.kind == kind && this.fill == fill && this.closed == closed
      ensures fresh(transform) && transform.position == Objects.Mean(cs) && transform.AtRest()
      ensures vectorLines == Objects.ResolveEdges(cs, ls)
    {
      coords := cs;
      normalizedCoords := cs;
      projectedCoords := cs;
      lines := ls;
      this.kind := kind;
      this.fill := fill;
      this.closed := closed;
      var stored := seq(|cs|, i requires 0 <= i < |cs| => Homogeneous(cs[i]));
      assert Points(stored) == cs;
      var centre := Centre4(stored);
      transform := new PointFrame(Drop3(centre));
      var resolved := LegacyShapes.IndexLoop(cs, ls);
      vectorLines := resolved;
    }

    /** `generate_vector_lines` (backend/wireframes.py:159-170): rebuilt
        from scratch, skipping index pairs out of range. */
    method GenerateVectorLines()
      modifies this
      ensures vectorLines == Objects.ResolveEdges(normalizedCoords, lines)
      ensures coords == old(coords) && normalizedCoords == old(normalizedCoords)
      ensures projectedCoords == old(projectedCoords)
    {
      vectorLines := LegacyShapes.IndexLoop(normalizedCoords, lines);
    }

    method Translate(direction: Vec3)
      modifies this, transform
      ensures coords == Objects.Translated(old(coords), direction)
      ensures transform.position == old(transform.position).Add(direction)
      ensures transform.SqScale() == old(transform.SqScale())
      ensures normalizedCoords == old(normalizedCoords) && projectedCoords == old(projectedCoords)
      ensures vectorLines == old(vectorLines)
    {
      coords := transform.Translate(direction, coords);
    }

    method Rotate(turn: Angles, origin: Option<Vec3>)
      modifies this, transform
      ensures var m, o := Rotation(turn, false), PivotOrPosition(origin, old(transform.position));
        coords == LegacyTransforms.AllAboutAnchor(m, o, old(coords))
        && transform.position == LegacyTransforms.AboutAnchor(m, o, old(transform.position))
        && transform.xAxis == LegacyTransforms.AboutAnchor(m, o, old(transform.xAxis))
        && transform.yAxis == LegacyTransforms.AboutAnchor(m, o, old(transform.yAxis))
        && transform.zAxis == LegacyTransforms.AboutAnchor(m, o, old(transform.zAxis))
      ensures origin.None? ==> transform.position == old(transform.position)
      ensures normalizedCoords == old(normalizedCoords) && projectedCoords == old(projectedCoords)
      ensures vectorLines == old(vectorLines)
    {
      coords := transform.Rotate(turn, coords, origin);
    }

    method Rescale(s: Vec3)
      modifies this, transform
      ensures coords == LegacyTransforms.AllAboutAnchor(Scaling(s), transform.position, old(coords))
      ensures transform.position == old(transform.position)
      ensures transform.xAxis == LegacyTransforms.AboutAnchor(Scaling(s), transform.position, old(transform.xAxis))
      ensures transform.yAxis == LegacyTransforms.AboutAnchor(Scaling(s), transform.position, old(transform.yAxis))
      ensures transform.zAxis == LegacyTransforms.AboutAnchor(Scaling(s), transform.position, old(transform.zAxis))
      ensures old(transform.AtRest()) ==> transform.SqScale() == Vec3(s.x * s.x, s.y * s.y, s.z * s.z)
      ensures normalizedCoords == old(normalizedCoords) && projectedCoords == old(projectedCoords)
      ensures vectorLines == old(vectorLines)
    {
      coords := transform.Rescale(s, coords);
    }

    /** `normalize` (backend/wireframes.py:138-150): the projected
        coordinates through the normalization with the reciprocal window
        scale. */
    method Normalize(windowCenter: Vec3, windowScale: Vec3, zTurn: CosSin)
      requires windowScale.x != 0.0 && windowScale.y != 0.0 && windowScale.z != 0.0
      modifies this
      ensures normalizedCoords
        == Transforms.Normalize(windowCenter, zTurn, Objects.Reciprocal(windowScale), old(projectedCoords))
      ensures coords == old(coords) && projectedCoords == old(projectedCoords)
    {
      normalizedCoords := Transforms.Normalize(windowCenter, zTurn, Objects.Reciprocal(windowScale), projectedCoords);
    }

    /** `project` (backend/wireframes.py:152-157). */
    method Project(cop: Vec3, xTurn: CosSin, yTurn: CosSin, copDistance: real)
      requires copDistance != 0.0
      modifies this
      ensures projectedCoords == Transforms.Projected(cop, xTurn, yTurn, copDistance, old(coords), false)
      ensures coords == old(coords) && normalizedCoords == old(normalizedCoords)
    {
      projectedCoords := Transforms.Project(cop, xTurn, yTurn, copDistance, coords, false);
    }
  }
}
