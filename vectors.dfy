/** The 3D vector of the current generation (backend/math/vector.py).
    Components are exact reals; square roots are not computed: where the
    program uses a magnitude, the model takes it as a parameter `m` with
    `IsMagnitude(m, v)`, i.e. `m >= 0 && m * m == |v|^2`. */
module Vectors {
  import opened Outcomes
  import Arith

  datatype Vec3 = Vec3(x: real, y: real, z: real)
  {
    function Add(o: Vec3): Vec3 { Vec3(x + o.x, y + o.y, z + o.z) }
    function Sub(o: Vec3): Vec3 { Vec3(x - o.x, y - o.y, z - o.z) }
    function Neg(): Vec3 { Vec3(-x, -y, -z) }
    function Scale(k: real): Vec3 { Vec3(x * k, y * k, z * k) }
    function Div(k: real): Vec3 requires k != 0.0 { Vec3(x / k, y / k, z / k) }
    function Dot(o: Vec3): real { x * o.x + y * o.y + z * o.z }
    function Cross(o: Vec3): Vec3 { Vec3(y * o.z - z * o.y, z * o.x - x * o.z, x * o.y - y * o.x) }
    function SqNorm(): real { Dot(this) }
  }

  const Zero := Vec3(0.0, 0.0, 0.0)

  /** The homogeneous form [x, y, z, 1] and its inverse (the first three components). */
  datatype Vec4 = Vec4(x: real, y: real, z: real, w: real)

  function Homogeneous(v: Vec3): Vec4 { Vec4(v.x, v.y, v.z, 1.0) }

  function Drop3(v: Vec4): Vec3 { Vec3(v.x, v.y, v.z) }

  predicate IsMagnitude(m: real, v: Vec3) { m >= 0.0 && m * m == v.SqNorm() }

  /** The right operand of `*` and `/`: a number, another vector, or anything else. */
  datatype Operand = Scalar(k: real) | VectorOperand(v: Vec3) | Unsupported

  /** acos is not evaluated: `ArcCos(c)` stands for the angle whose cosine is `c`. */
  datatype Angle = ZeroAngle | ArcCos(cosine: real)

  datatype Product = Scaled(v: Vec3) | AngleBetween(angle: Angle)

  datatype VectorError = NotImplemented | ZeroVector | ZeroDivision

  lemma SqNormNonNegative(v: Vec3)
    ensures v.SqNorm() >= 0.0
  {
    Arith.SquareSign(v.x, v.x * v.x);
    Arith.SquareSign(v.y, v.y * v.y);
    Arith.SquareSign(v.z, v.z * v.z);
  }

  lemma SqNormZero(v: Vec3)
    ensures v.SqNorm() == 0.0 <==> v == Zero
  {
    Arith.SquareSign(v.x, v.x * v.x);
    Arith.SquareSign(v.y, v.y * v.y);
    Arith.SquareSign(v.z, v.z * v.z);
  }

  lemma MagnitudeZero(m: real, v: Vec3)
    requires IsMagnitude(m, v)
    ensures m == 0.0 <==> v == Zero
  {
    SqNormZero(v);
    Arith.SquareSign(m, v.SqNorm());
  }

  /** `|u|^2 |v|^2 = (u . v)^2 + |u x v|^2` (Lagrange's identity). */
  lemma Lagrange(u: Vec3, v: Vec3)
    ensures u.SqNorm() * v.SqNorm() == u.Dot(v) * u.Dot(v) + u.Cross(v).SqNorm()
  {
  }

  /** `*` (vector.py:33-48): a scalar scales every component, another vector
      gives the angle between the two, 0 when either is the zero vector,
      and any other operand raises NotImplementedError. The magnitudes of
      both operands are given by the caller. */
  function Multiply(u: Vec3, other: Operand, mu: real, mo: real): (r: Result<Product, VectorError>)
    requires IsMagnitude(mu, u)
    requires other.VectorOperand? ==> IsMagnitude(mo, other.v)
    ensures r.Failure? <==> other.Unsupported?
    ensures r.Failure? ==> r.error == NotImplemented
    ensures other.Scalar? ==> r == Success(Scaled(u.Scale(other.k)))
    ensures other.VectorOperand? ==>
      r.Success? && r.value.AngleBetween? && (r.value.angle.ZeroAngle? <==> u == Zero || other.v == Zero)
    ensures other.VectorOperand? && mu * mo > 0.0 ==>
      r == Success(AngleBetween(ArcCos(u.Dot(other.v) / (mu * mo))))
    ensures r.Success? && r.value.AngleBetween? && r.value.angle.ArcCos? ==>
      r.value.angle.cosine * (mu * mo) == u.Dot(other.v)
  {
    match other
    case Scalar(k) => Success(Scaled(u.Scale(k)))
    case VectorOperand(v) =>
      var magnitude := mu * mo;
      MagnitudeProductZero(u, v, mu, mo, magnitude);
      if magnitude > 0.0 then Success(AngleBetween(ArcCos(u.Dot(v) / magnitude)))
      else Success(AngleBetween(ZeroAngle))
    case Unsupported => Failure(NotImplemented)
  }

  lemma MagnitudeProductZero(u: Vec3, v: Vec3, mu: real, mo: real, p: real)
    requires IsMagnitude(mu, u) && IsMagnitude(mo, v) && p == mu * mo
    ensures p >= 0.0
    ensures p > 0.0 <==> u != Zero && v != Zero
  {
    MagnitudeZero(mu, u);
    MagnitudeZero(mo, v);
    Arith.ProductSign(mu, mo, p);
  }

  /** The cosine handed to acos by `Multiply` never leaves [-1, 1], so the
      angle is always defined. */
  lemma AngleCosineInRange(u: Vec3, v: Vec3, mu: real, mo: real)
    requires IsMagnitude(mu, u) && IsMagnitude(mo, v)
    ensures var r := Multiply(u, VectorOperand(v), mu, mo);
      r.Success? && r.value.AngleBetween? && r.value.angle.ArcCos? ==> -1.0 <= r.value.angle.cosine <= 1.0
  {
    if mu * mo > 0.0 {
      CosineInRange(u, v, mu, mo);
    }
  }

  /** The cosine handed to acos never leaves [-1, 1] (Cauchy-Schwarz). */
  lemma CosineInRange(u: Vec3, v: Vec3, mu: real, mo: real)
    requires IsMagnitude(mu, u) && IsMagnitude(mo, v) && mu * mo > 0.0
    ensures -1.0 <= u.Dot(v) / (mu * mo) <= 1.0
  {
    Lagrange(u, v);
    SqNormNonNegative(u.Cross(v));
    var d, m := u.Dot(v), mu * mo;
    assert m * m == (mu * mu) * (mo * mo);
    Arith.SquareBound(d, m, d * d, m * m);
    Arith.DivUnitBounds(d, m);
  }

  /** `/` (vector.py:50-53): a number divides every component, anything else
      raises NotImplementedError. numpy's division by zero (an IEEE infinity)
      is outside the model, hence the requires. */
  function Divide(u: Vec3, other: Operand): (r: Result<Vec3, VectorError>)
    requires other.Scalar? ==> other.k != 0.0
    ensures r.Success? <==> other.Scalar?
    ensures r.Success? ==> r.value.Scale(other.k) == u
  {
    if other.Scalar? then Success(u.Div(other.k)) else Failure(NotImplemented)
  }

  /** `normalize` (vector.py:145-154): the zero vector raises ValueError;
      otherwise a new vector, `v` divided by its magnitude. */
  function Normalize(v: Vec3, m: real): (r: Result<Vec3, VectorError>)
    requires IsMagnitude(m, v)
    ensures r.Failure? <==> v == Zero
    ensures r.Failure? ==> r.error == ZeroVector
  {
    MagnitudeZero(m, v);
    if m == 0.0 then Failure(ZeroVector) else Success(v.Div(m))
  }

  /** A successful `Normalize` gives a unit vector pointing the same way. */
  lemma NormalizeUnit(v: Vec3, m: real)
    requires IsMagnitude(m, v)
    ensures Normalize(v, m).Success? ==>
      Normalize(v, m).value.SqNorm() == 1.0 && Normalize(v, m).value.Scale(m) == v
  {
    if m != 0.0 {
      UnitAfterDivide(v, m);
    }
  }

  lemma UnitAfterDivide(v: Vec3, m: real)
    requires IsMagnitude(m, v) && m != 0.0
    ensures v.Div(m).SqNorm() == 1.0 && v.Div(m).Scale(m) == v
  {
    var r := v.Div(m);
    var mm := m * m;
    Arith.SquareSign(m, mm);
    Arith.DivSquare(v.x, m);
    Arith.DivSquare(v.y, m);
    Arith.DivSquare(v.z, m);
    assert r.SqNorm() * mm == v.SqNorm();
    assert r.SqNorm() * mm == 1.0 * mm;
    Arith.DivMul(v.x, m);
    Arith.DivMul(v.y, m);
    Arith.DivMul(v.z, m);
  }

  lemma AddSubRoundTrip(u: Vec3, v: Vec3)
    ensures u.Add(v).Sub(v) == u && u.Sub(v).Add(v) == u
  {
  }

  lemma AddCommutes(u: Vec3, v: Vec3)
    ensures u.Add(v) == v.Add(u)
  {
  }

  lemma NegIsSubFromZero(v: Vec3)
    ensures v.Neg() == Zero.Sub(v) && v.Neg().Neg() == v
  {
  }

  lemma ScaleDivRoundTrip(v: Vec3, k: real)
    requires k != 0.0
    ensures v.Scale(k).Div(k) == v && v.Div(k).Scale(k) == v
  {
  }

  lemma DotSymmetric(u: Vec3, v: Vec3)
    ensures u.Dot(v) == v.Dot(u)
  {
  }

  /** The cross product is orthogonal to both operands (vector.py:129-136). */
  lemma CrossOrthogonal(u: Vec3, v: Vec3)
    ensures u.Cross(v).Dot(u) == 0.0 && u.Cross(v).Dot(v) == 0.0
  {
  }

  lemma HomogeneousRoundTrip(v: Vec3)
    ensures Drop3(Homogeneous(v)) == v && Homogeneous(v).w == 1.0
  {
  }

  /** The mutable vector: the x/y/z setters (vector.py:66-104) write one
      component in place. */
  class Vector {
    var value: Vec3

    constructor (x: real, y: real, z: real)
      ensures value == Vec3(x, y, z)
    {
      value := Vec3(x, y, z);
    }

    method SetX(v: real)
      modifies this
      ensures value == old(value).(x := v)
    {
      value := value.(x := v);
    }

    method SetY(v: real)
      modifies this
      ensures value == old(value).(y := v)
    {
      value := value.(y := v);
    }

    method SetZ(v: real)
      modifies this
      ensures value == old(value).(z := v)
    {
      value := value.(z := v);
    }
  }
}
