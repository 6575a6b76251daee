/** The two older vector classes.

    backend/vector.py keeps four stored components [x, y, z, w] in a numpy
    array. The constructor stores w = 1. `+`, `-`, scalar `*` and unary `-`
    act on all four components, so w drifts away from 1. `/` and the cross
    product rebuild a fresh vector with w = 1. dot, cross and magnitude read
    x, y, z only.

    internals/vector.py is a plain three-field vector. Its operators are
    those of `Vectors`, except that division by zero raises. */
module LegacyVectors {
  import opened Vectors
  import opened Outcomes

  function Plus(a: Vec4, b: Vec4): Vec4 { Vec4(a.x + b.x, a.y + b.y, a.z + b.z, a.w + b.w) }

  function Minus(a: Vec4, b: Vec4): Vec4 { Vec4(a.x - b.x, a.y - b.y, a.z - b.z, a.w - b.w) }

  function Times(a: Vec4, k: real): Vec4 { Vec4(a.x * k, a.y * k, a.z * k, a.w * k) }

  function Negate(a: Vec4): Vec4 { Vec4(-a.x, -a.y, -a.z, -a.w) }

  /** On x, y, z the four-component operators are the three-component ones. */
  lemma AgreeOnPoint(a: Vec4, b: Vec4, k: real)
    ensures Drop3(Plus(a, b)) == Drop3(a).Add(Drop3(b))
    ensures Drop3(Minus(a, b)) == Drop3(a).Sub(Drop3(b))
    ensures Drop3(Times(a, k)) == Drop3(a).Scale(k)
    ensures Drop3(Negate(a)) == Drop3(a).Neg()
  {
  }

  /** The stored w of results built from fresh vectors: 2 for a sum, 0 for a
      difference, k for a multiple and -1 for a negation. */
  lemma FreshWeights(p: Vec3, q: Vec3, k: real)
    ensures Plus(Homogeneous(p), Homogeneous(q)).w == 2.0
    ensures Minus(Homogeneous(p), Homogeneous(q)).w == 0.0
    ensures Times(Homogeneous(p), k).w == k
    ensures Negate(Homogeneous(p)).w == -1.0
  {
  }

  /** The result of `*` on the older vector: a scaled vector, or an angle. */
  datatype Product4 = Scaled4(v: Vec4) | Angle4(angle: Angle)

  /** `*` (backend/vector.py:35-50). A number scales all four stored
      components, w included. Another vector gives the angle between the x,
      y, z parts, 0 when either is zero. Anything else raises
      NotImplementedError. The caller passes the other vector's x, y, z and
      both magnitudes. */
  function Multiply4(a: Vec4, other: Operand, ma: real, mo: real): (r: Result<Product4, VectorError>)
    requires IsMagnitude(ma, Drop3(a))
    requires other.VectorOperand? ==> IsMagnitude(mo, other.v)
    ensures r.Failure? <==> other.Unsupported?
    ensures r.Failure? ==> r.error == NotImplemented
    ensures other.Scalar? ==>
      r.Success? && r.value.Scaled4? && r.value.v.w == a.w * other.k && Drop3(r.value.v) == Drop3(a).Scale(other.k)
    ensures other.VectorOperand? ==>
      r.Success? && r.value.Angle4? && (r.value.angle.ZeroAngle? <==> Drop3(a) == Zero || other.v == Zero)
    ensures other.VectorOperand? && ma * mo > 0.0 ==>
      r == Success(Angle4(ArcCos(Drop3(a).Dot(other.v) / (ma * mo))))
    ensures r.Success? && r.value.Angle4? && r.value.angle.ArcCos? ==>
      r.value.angle.cosine * (ma * mo) == Drop3(a).Dot(other.v)
  {
    match other
    case Scalar(k) => Success(Scaled4(Times(a, k)))
    case VectorOperand(_) => Success(Angle4(Multiply(Drop3(a), other, ma, mo).value.angle))
    case Unsupported => Failure(NotImplemented)
  }

  /** `/` (backend/vector.py:52-55). A number divides x, y, z and the result
      is rebuilt with w = 1; anything else raises NotImplementedError. numpy's
      division by zero (an IEEE infinity) is outside the model. */
  function Over(a: Vec4, other: Operand): (r: Result<Vec4, VectorError>)
    requires other.Scalar? ==> other.k != 0.0
    ensures r.Success? <==> other.Scalar?
    ensures r.Success? ==> r.value.w == 1.0 && Drop3(r.value).Scale(other.k) == Drop3(a)
  {
    if other.Scalar? then Success(Homogeneous(Drop3(a).Div(other.k))) else Failure(NotImplemented)
  }

  /** Multiplying and then dividing by the same number gives back x, y, z but
      not the stored weight: the result is a fresh vector. */
  lemma {:induction false} TimesOverResetsWeight(a: Vec4, k: real)
    requires k != 0.0
    ensures Over(Times(a, k), Scalar(k)) == Success(Homogeneous(Drop3(a)))
  {
    AgreeOnPoint(a, a, k);
    ScaleDivRoundTrip(Drop3(a), k);
  }

  /** `dot` (backend/vector.py:124-129): the x, y, z parts only. */
  function InnerProduct(a: Vec4, b: Vec4): real { Drop3(a).Dot(Drop3(b)) }

  /** The stored weights never enter the dot product. */
  lemma InnerProductIgnoresWeight(a: Vec4, b: Vec4, wa: real, wb: real)
    ensures InnerProduct(a.(w := wa), b.(w := wb)) == InnerProduct(a, b)
  {
  }

  /** `cross_product` (backend/vector.py:131-138): a fresh vector orthogonal
      to both operands. */
  function CrossProduct(a: Vec4, b: Vec4): (r: Vec4)
    ensures r.w == 1.0
    ensures InnerProduct(r, a) == 0.0 && InnerProduct(r, b) == 0.0
  {
    CrossOrthogonal(Drop3(a), Drop3(b));
    Homogeneous(Drop3(a).Cross(Drop3(b)))
  }

  /** The mutable older vector. */
  class BackendVector {
    var stored: Vec4

    /** The constructor (backend/vector.py:20-21) stores [x, y, z, 1]. */
    constructor (x: real, y: real, z: real)
      ensures stored == Vec4(x, y, z, 1.0)
    {
      stored := Vec4(x, y, z, 1.0);
    }

    method SetX(v: real)
      modifies this
      ensures stored == old(stored).(x := v)
    {
      stored := stored.(x := v);
    }

    method SetY(v: real)
      modifies this
      ensures stored == old(stored).(y := v)
    {
      stored := stored.(y := v);
    }

    method SetZ(v: real)
      modifies this
      ensures stored == old(stored).(z := v)
    {
      stored := stored.(z := v);
    }

    /** `normalize` (backend/vector.py:147-155) divides x, y, z by the
        magnitude `m` in place and keeps w. The zero vector raises ValueError,
        here the error result, and nothing changes. */
    method Normalize(m: real) returns (err: Option<VectorError>)
      requires IsMagnitude(m, Drop3(stored))
      modifies this
      ensures err.Some? <==> Drop3(old(stored)) == Zero
      ensures err.Some? ==> err.value == ZeroVector && stored == old(stored)
      ensures err.None? ==> stored.w == old(stored).w
      ensures err.None? ==> Drop3(stored).SqNorm() == 1.0 && Drop3(stored).Scale(m) == Drop3(old(stored))
    {
      var result := Vectors.Normalize(Drop3(stored), m);
      NormalizeUnit(Drop3(stored), m);
      if result.Failure? {
        err := Some(result.error);
      } else {
        var unit := result.value;
        stored := Vec4(unit.x, unit.y, unit.z, stored.w);
        err := None;
      }
    }
  }

  /** `/` of the plain vector (internals/vector.py:55-58): a number divides
      every component, dividing by zero raises ZeroDivisionError, and any
      other operand raises NotImplementedError. */
  function PlainDivide(u: Vec3, other: Operand): (r: Result<Vec3, VectorError>)
    ensures r.Success? <==> other.Scalar? && other.k != 0.0
    ensures other.Scalar? && other.k == 0.0 ==> r == Failure(ZeroDivision)
    ensures !other.Scalar? ==> r == Failure(NotImplemented)
    ensures r.Success? ==> r.value.Scale(other.k) == u
  {
    match other
    case Scalar(k) =>
      if k == 0.0 then Failure(ZeroDivision)
      else
        ScaleDivRoundTrip(u, k);
        Success(u.Div(k))
    case _ => Failure(NotImplemented)
  }

  /** Where the later `/` is defined, the plain one gives the same vector. */
  lemma PlainDivideAgrees(u: Vec3, other: Operand)
    requires other.Scalar? ==> other.k != 0.0
    ensures PlainDivide(u, other) == Divide(u, other)
  {
  }
}
