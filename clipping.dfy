/** The clipping algorithms of backend/rendering/clipper.py, against the
    window's normalized origin and extension: the boundary intersection,
    Cohen–Sutherland and Liang–Barsky line clipping, and the four-pass
    Sutherland–Hodgman polygon clipping with its patch step that re-closes
    the clipped outline. The same algorithms are repeated in
    managers/viewport_manager.py (module Viewport reuses these). */
module Clipping {
  import opened Vectors
  import opened Outcomes
  import opened Objects
  import Arith

  /** The window's normalized origin and extension. */
  datatype Bounds = Bounds(origin: Vec3, extension: Vec3)

  /** The origin is below and left of the extension. */
  predicate WellFormed(b: Bounds)
  {
    b.origin.x <= b.extension.x && b.origin.y <= b.extension.y
  }

  /** Inside the closed window rectangle (x and y only). */
  predicate InsideClosed(b: Bounds, v: Vec3)
  {
    b.origin.x <= v.x <= b.extension.x && b.origin.y <= v.y <= b.extension.y
  }

  /** The `Intersection` enumeration; Python's `None` is `Option.None`. */
  datatype Side = Null | Left | Right | Top | Bottom

  datatype LineClippingMethod = CohenSutherland | LiangBarsky

  function Dx(l: Segment): real { l.end.x - l.start.x }

  function Dy(l: Segment): real { l.end.y - l.start.y }

  /** The angular coefficient. The program stores infinity for a vertical
      segment; that value is only used through `InverseSlope` (1 / inf = 0),
      and by the left/right branch, which the callers never reach with a
      vertical segment (`Admissible`). */
  function Slope(l: Segment): (k: real)
    requires Dx(l) != 0.0
    ensures k * Dx(l) == Dy(l)
  {
    Dy(l) / Dx(l)
  }

  function InverseSlope(l: Segment): real
    requires Dx(l) == 0.0 || Dy(l) != 0.0
  {
    if Dx(l) == 0.0 then 0.0 else 1.0 / Slope(l)
  }

  /** What the program needs to evaluate a side without an infinity or a
      division by zero: a finite slope for left/right, a non-zero slope or
      a vertical segment for top/bottom. */
  predicate Admissible(l: Segment, s: Option<Side>)
  {
    match s
    case Some(Left) => Dx(l) != 0.0
    case Some(Right) => Dx(l) != 0.0
    case Some(Top) => Dx(l) == 0.0 || Dy(l) != 0.0
    case Some(Bottom) => Dx(l) == 0.0 || Dy(l) != 0.0
    case _ => true
  }

  /** One end point of `intersection`: moved onto the boundary of side `s`
      along the segment, or copied for `NULL` and `None`; z is always 0. */
  function Cut(b: Bounds, l: Segment, v: Vec3, s: Option<Side>): Vec3
    requires Admissible(l, s)
  {
    match s
    case Some(Left) => Vec3(b.origin.x, Slope(l) * (b.origin.x - v.x) + v.y, 0.0)
    case Some(Right) => Vec3(b.extension.x, Slope(l) * (b.extension.x - v.x) + v.y, 0.0)
    case Some(Top) => Vec3(v.x + InverseSlope(l) * (b.extension.y - v.y), b.extension.y, 0.0)
    case Some(Bottom) => Vec3(v.x + InverseSlope(l) * (b.origin.y - v.y), b.origin.y, 0.0)
    case _ => Vec3(v.x, v.y, 0.0)
  }

  /** The cut point of side `s` falls outside the window's other axis. */
  predicate OffEdge(b: Bounds, s: Option<Side>, p: Vec3)
  {
    match s
    case Some(Left) => p.y < b.origin.y || p.y > b.extension.y
    case Some(Right) => p.y < b.origin.y || p.y > b.extension.y
    case Some(Top) => p.x < b.origin.x || p.x > b.extension.x
    case Some(Bottom) => p.x < b.origin.x || p.x > b.extension.x
    case _ => false
  }

  /** `intersection`: side `sa` applies to the start, `sb` to the end; with
      `drop` a cut point beyond the window's edge empties the result. */
  function Intersection(b: Bounds, l: Segment, sa: Option<Side>, sb: Option<Side>, drop: bool): (r: Option<Segment>)
    requires Admissible(l, sa) && Admissible(l, sb)
    ensures !drop ==> r.Some?
    ensures r.Some? ==> r.value.start.z == 0.0 && r.value.end.z == 0.0
  {
    var p := Cut(b, l, l.start, sa);
    if drop && OffEdge(b, sa, p) then None
    else
      var q := Cut(b, l, l.end, sb);
      if drop && OffEdge(b, sb, q) then None
      else Some(Segment(p, q))
  }

  /** `p` lies on the line through the segment. */
  predicate Collinear(l: Segment, p: Vec3)
  {
    (p.x - l.start.x) * Dy(l) == (p.y - l.start.y) * Dx(l)
  }

  /** `p` lies on the boundary line of side `s` (any point for `NULL`/`None`). */
  predicate OnBoundary(b: Bounds, s: Option<Side>, p: Vec3)
  {
    match s
    case Some(Left) => p.x == b.origin.x
    case Some(Right) => p.x == b.extension.x
    case Some(Top) => p.y == b.extension.y
    case Some(Bottom) => p.y == b.origin.y
    case _ => true
  }

  lemma InverseSlopeTimesDy(l: Segment)
    requires Dx(l) == 0.0 || Dy(l) != 0.0
    ensures InverseSlope(l) * Dy(l) == Dx(l)
  {
    if Dx(l) != 0.0 {
      var k := Slope(l);
      var j := 1.0 / k;
      assert j * k == 1.0;
      assert j * Dy(l) == j * (k * Dx(l));
      assert j * (k * Dx(l)) == (j * k) * Dx(l);
    }
  }

  /** A point reached from an end point by a step of slope `k` is on the line. */
  lemma StepAlongX(l: Segment, v: Vec3, p: Vec3, k: real)
    requires v == l.start || v == l.end
    requires k * Dx(l) == Dy(l)
    requires p.y == k * (p.x - v.x) + v.y
    ensures Collinear(l, p)
  {
    var a := p.x - v.x;
    assert (k * a) * Dx(l) == a * Dy(l);
  }

  lemma StepAlongY(l: Segment, v: Vec3, p: Vec3, j: real)
    requires v == l.start || v == l.end
    requires j * Dy(l) == Dx(l)
    requires p.x == v.x + j * (p.y - v.y)
    ensures Collinear(l, p)
  {
    var c := p.y - v.y;
    assert (j * c) * Dy(l) == c * Dx(l);
  }

  /** Every cut point lies on the line through the segment and on the
      boundary of its side. */
  lemma CutOnLine(b: Bounds, l: Segment, v: Vec3, s: Option<Side>)
    requires v == l.start || v == l.end
    requires Admissible(l, s)
    ensures Collinear(l, Cut(b, l, v, s)) && OnBoundary(b, s, Cut(b, l, v, s))
  {
    var p := Cut(b, l, v, s);
    if s == Some(Left) || s == Some(Right) {
      StepAlongX(l, v, p, Slope(l));
    } else if s == Some(Top) || s == Some(Bottom) {
      InverseSlopeTimesDy(l);
      StepAlongY(l, v, p, InverseSlope(l));
    } else {
      assert p.x - l.start.x == v.x - l.start.x && p.y - l.start.y == v.y - l.start.y;
      if v == l.end {
        assert Dx(l) * Dy(l) == Dy(l) * Dx(l);
      }
    }
  }

  /** A non-empty `intersection` meets the line of the segment at the
      boundaries of the chosen sides, within the window's edges when
      `drop` is set; an empty one had a cut point beyond an edge. */
  lemma IntersectionMeets(b: Bounds, l: Segment, sa: Option<Side>, sb: Option<Side>, drop: bool)
    requires Admissible(l, sa) && Admissible(l, sb)
    ensures var r := Intersection(b, l, sa, sb, drop);
      r.Some? ==>
        Collinear(l, r.value.start) && Collinear(l, r.value.end)
        && OnBoundary(b, sa, r.value.start) && OnBoundary(b, sb, r.value.end)
        && (drop ==> !OffEdge(b, sa, r.value.start) && !OffEdge(b, sb, r.value.end))
    ensures var r := Intersection(b, l, sa, sb, drop);
      r.None? ==> drop && (OffEdge(b, sa, Cut(b, l, l.start, sa)) || OffEdge(b, sb, Cut(b, l, l.end, sb)))
  {
    CutOnLine(b, l, l.start, sa);
    CutOnLine(b, l, l.end, sb);
  }

  // ---------------------------------------------------------------- Liang–Barsky

  /** The point at parameter `u` along the segment, with z = 0. */
  function At(l: Segment, u: real): Vec3
  {
    Vec3(l.start.x + Dx(l) * u, l.start.y + Dy(l) * u, 0.0)
  }

  /** p1..p4 of the algorithm (k = 0..3). */
  function P(l: Segment, k: nat): real
    requires k < 4
  {
    if k == 0 then -Dx(l) else if k == 1 then Dx(l) else if k == 2 then -Dy(l) else Dy(l)
  }

  /** q1..q4 of the algorithm (k = 0..3). */
  function Q(b: Bounds, l: Segment, k: nat): real
    requires k < 4
  {
    if k == 0 then l.start.x - b.origin.x
    else if k == 1 then b.extension.x - l.start.x
    else if k == 2 then l.start.y - b.origin.y
    else b.extension.y - l.start.y
  }

  /** Parallel to a boundary and outside it. */
  predicate ParallelOutside(b: Bounds, l: Segment)
  {
    (P(l, 0) == 0.0 && Q(b, l, 0) < 0.0) || (P(l, 1) == 0.0 && Q(b, l, 1) < 0.0)
    || (P(l, 2) == 0.0 && Q(b, l, 2) < 0.0) || (P(l, 3) == 0.0 && Q(b, l, 3) < 0.0)
  }

  /** The ratio a boundary pair (k, k + 1) adds to the entering list:
      q_k / p_k when p_k < 0, else q_{k+1} / p_{k+1}. */
  function EnteringRatio(b: Bounds, l: Segment, k: nat): real
    requires (k == 0 || k == 2) && P(l, k) != 0.0
  {
    if P(l, k) < 0.0 then Q(b, l, k) / P(l, k) else Q(b, l, k + 1) / P(l, k + 1)
  }

  /** The ratio the pair adds to the leaving list: the other one. */
  function LeavingRatio(b: Bounds, l: Segment, k: nat): real
    requires (k == 0 || k == 2) && P(l, k) != 0.0
  {
    if P(l, k) < 0.0 then Q(b, l, k + 1) / P(l, k + 1) else Q(b, l, k) / P(l, k)
  }

  /** What the pair adds to each list: nothing when p_k = 0. */
  function Entering(b: Bounds, l: Segment, k: nat): seq<real>
    requires k == 0 || k == 2
  {
    if P(l, k) != 0.0 then [EnteringRatio(b, l, k)] else []
  }

  function Leaving(b: Bounds, l: Segment, k: nat): seq<real>
    requires k == 0 || k == 2
  {
    if P(l, k) != 0.0 then [LeavingRatio(b, l, k)] else []
  }

  /** The entering ratios, seeded with 0. */
  function Negatives(b: Bounds, l: Segment): seq<real>
  {
    [0.0] + Entering(b, l, 0) + Entering(b, l, 2)
  }

  /** The leaving ratios, seeded with 1. */
  function Positives(b: Bounds, l: Segment): seq<real>
  {
    [1.0] + Leaving(b, l, 0) + Leaving(b, l, 2)
  }

  function MaxOf(s: seq<real>): (m: real)
    requires |s| > 0
    ensures m in s && forall x :: x in s ==> x <= m
  {
    if |s| == 1 then s[0]
    else
      var rest := MaxOf(s[1..]);
      assert forall x :: x in s ==> x == s[0] || x in s[1..];
      if s[0] >= rest then s[0] else rest
  }

  function MinOf(s: seq<real>): (m: real)
    requires |s| > 0
    ensures m in s && forall x :: x in s ==> m <= x
  {
    if |s| == 1 then s[0]
    else
      var rest := MinOf(s[1..]);
      assert forall x :: x in s ==> x == s[0] || x in s[1..];
      if s[0] <= rest then s[0] else rest
  }

  /** The parameter interval [max negatives, min positives] that survives,
      or none. */
  function LiangBarskyRange(b: Bounds, l: Segment): Option<(real, real)>
  {
    if ParallelOutside(b, l) then None
    else
      var u1 := MaxOf(Negatives(b, l));
      var u2 := MinOf(Positives(b, l));
      if u1 > u2 then None else Some((u1, u2))
  }

  /** `liang_barsky`. */
  function LiangBarskyClip(b: Bounds, l: Segment): Option<Segment>
  {
    match LiangBarskyRange(b, l)
    case None => None
    case Some((u1, u2)) => Some(Segment(At(l, u1), At(l, u2)))
  }

  /** The window test at parameter `u`, boundary by boundary: u * p_k <= q_k. */
  lemma InsideAsConstraints(b: Bounds, l: Segment, u: real)
    ensures InsideClosed(b, At(l, u)) <==> Meets(b, l, u)
  {
    assert u * P(l, 0) == -(Dx(l) * u) && u * P(l, 1) == Dx(l) * u;
    assert u * P(l, 2) == -(Dy(l) * u) && u * P(l, 3) == Dy(l) * u;
  }

  /** Both constraints u * p <= q of the boundary pair (k, k + 1). */
  predicate PairMeets(b: Bounds, l: Segment, k: nat, u: real)
    requires k == 0 || k == 2
  {
    u * P(l, k) <= Q(b, l, k) && u * P(l, k + 1) <= Q(b, l, k + 1)
  }

  /** The algorithm's test of the pair: for p_k = 0, not parallel and
      outside; otherwise between the entering and the leaving ratio. */
  predicate PairAdmits(b: Bounds, l: Segment, k: nat, u: real)
    requires k == 0 || k == 2
  {
    if P(l, k) == 0.0 then Q(b, l, k) >= 0.0 && Q(b, l, k + 1) >= 0.0
    else EnteringRatio(b, l, k) <= u <= LeavingRatio(b, l, k)
  }

  /** For one pair of boundaries (p_{k+1} = -p_k) the constraints and the
      algorithm's ratio test agree. */
  lemma PairConstraints(b: Bounds, l: Segment, k: nat, u: real)
    requires k == 0 || k == 2
    ensures PairMeets(b, l, k, u) <==> PairAdmits(b, l, k, u)
  {
    var pk, pl, qk, ql := P(l, k), P(l, k + 1), Q(b, l, k), Q(b, l, k + 1);
    assert pl == -pk;
    if pk != 0.0 {
      Arith.DivBound(pk, qk, u);
      Arith.DivBound(pl, ql, u);
    } else {
      assert u * pk == 0.0 && u * pl == 0.0;
    }
  }

  /** Each boundary constraint u * p_k <= q_k. */
  predicate Meets(b: Bounds, l: Segment, u: real)
  {
    PairMeets(b, l, 0, u) && PairMeets(b, l, 2, u)
  }

  /** The ratio test of both pairs, as the algorithm applies it. */
  predicate RatiosAdmit(b: Bounds, l: Segment, u: real)
  {
    PairAdmits(b, l, 0, u) && PairAdmits(b, l, 2, u)
  }

  lemma MeetsAsRatios(b: Bounds, l: Segment, u: real)
    ensures Meets(b, l, u) <==> RatiosAdmit(b, l, u)
  {
    PairConstraints(b, l, 0, u);
    PairConstraints(b, l, 2, u);
  }

  /** Inside the window implies inside the surviving interval. */
  lemma InsideInRange(b: Bounds, l: Segment, u: real)
    requires 0.0 <= u <= 1.0 && RatiosAdmit(b, l, u)
    ensures LiangBarskyRange(b, l).Some?
    ensures LiangBarskyRange(b, l).value.0 <= u <= LiangBarskyRange(b, l).value.1
  {
    assert !ParallelOutside(b, l);
    var neg, pos := Negatives(b, l), Positives(b, l);
    var u1, u2 := MaxOf(neg), MinOf(pos);
    assert u1 == 0.0 || u1 in Entering(b, l, 0) || u1 in Entering(b, l, 2);
    assert u2 == 1.0 || u2 in Leaving(b, l, 0) || u2 in Leaving(b, l, 2);
  }

  /** A parameter in the surviving interval is inside the window. */
  lemma InRangeInside(b: Bounds, l: Segment, u: real)
    requires LiangBarskyRange(b, l).Some?
    requires LiangBarskyRange(b, l).value.0 <= u <= LiangBarskyRange(b, l).value.1
    ensures RatiosAdmit(b, l, u)
  {
    var neg, pos := Negatives(b, l), Positives(b, l);
    var u1, u2 := MaxOf(neg), MinOf(pos);
    if P(l, 0) != 0.0 {
      assert EnteringRatio(b, l, 0) in neg && LeavingRatio(b, l, 0) in pos;
    }
    if P(l, 2) != 0.0 {
      assert EnteringRatio(b, l, 2) in neg && LeavingRatio(b, l, 2) in pos;
    }
  }

  /** Liang–Barsky is exact: a point of the segment (0 <= u <= 1) is inside
      the closed window if and only if the algorithm returns an interval
      and `u` lies in it. */
  lemma LiangBarskyExact(b: Bounds, l: Segment, u: real)
    requires 0.0 <= u <= 1.0
    ensures InsideClosed(b, At(l, u)) <==>
      LiangBarskyRange(b, l).Some? && LiangBarskyRange(b, l).value.0 <= u <= LiangBarskyRange(b, l).value.1
  {
    InsideAsConstraints(b, l, u);
    MeetsAsRatios(b, l, u);
    if InsideClosed(b, At(l, u)) {
      InsideInRange(b, l, u);
    }
    if LiangBarskyRange(b, l).Some? && LiangBarskyRange(b, l).value.0 <= u <= LiangBarskyRange(b, l).value.1 {
      InRangeInside(b, l, u);
    }
  }

  /** The surviving interval lies within [0, 1]. */
  lemma LiangBarskyRangeBounds(b: Bounds, l: Segment)
    ensures LiangBarskyRange(b, l).Some? ==>
      0.0 <= LiangBarskyRange(b, l).value.0 <= LiangBarskyRange(b, l).value.1 <= 1.0
  {
    assert 0.0 in Negatives(b, l) && 1.0 in Positives(b, l);
  }

  /** A non-empty result is a piece of the segment, from parameter u1 to
      u2 with 0 <= u1 <= u2 <= 1, whose two end points lie in the closed
      window; an empty result means no point of the segment does. */
  lemma LiangBarskyResult(b: Bounds, l: Segment)
    ensures match LiangBarskyClip(b, l)
      case Some(r) =>
        exists u1: real, u2: real :: 0.0 <= u1 <= u2 <= 1.0 && r == Segment(At(l, u1), At(l, u2))
          && InsideClosed(b, r.start) && InsideClosed(b, r.end)
      case None => forall u: real :: 0.0 <= u <= 1.0 ==> !InsideClosed(b, At(l, u))
  {
    LiangBarskyRangeBounds(b, l);
    match LiangBarskyRange(b, l)
    case Some((u1, u2)) =>
      LiangBarskyExact(b, l, u1);
      LiangBarskyExact(b, l, u2);
    case None =>
      forall u: real | 0.0 <= u <= 1.0
        ensures !InsideClosed(b, At(l, u))
      {
        LiangBarskyExact(b, l, u);
      }
  }

  /** A segment with both end points in the closed window comes back with
      its own x and y (z set to 0). */
  lemma LiangBarskyKeepsInside(b: Bounds, l: Segment)
    requires InsideClosed(b, l.start) && InsideClosed(b, l.end)
    ensures LiangBarskyClip(b, l) == Some(Segment(l.start.(z := 0.0), l.end.(z := 0.0)))
  {
    assert At(l, 0.0) == l.start.(z := 0.0);
    assert At(l, 1.0) == l.end.(z := 0.0);
    LiangBarskyExact(b, l, 0.0);
    LiangBarskyExact(b, l, 1.0);
    LiangBarskyRangeBounds(b, l);
  }

  /** Bounds [-500, 500] x [-500, 500]: (600, 0) -> (0, 0) is cut at the
      right edge to (500, 0) -> (0, 0). */
  lemma LiangBarskyExample()
    ensures LiangBarskyClip(Bounds(Vec3(-500.0, -500.0, 0.0), Vec3(500.0, 500.0, 0.0)),
                            Segment(Vec3(600.0, 0.0, 0.0), Zero))
         == Some(Segment(Vec3(500.0, 0.0, 0.0), Zero))
  {
    var b := Bounds(Vec3(-500.0, -500.0, 0.0), Vec3(500.0, 500.0, 0.0));
    var l := Segment(Vec3(600.0, 0.0, 0.0), Zero);
    assert Negatives(b, l) == [0.0, 1.0 / 6.0];
    assert Positives(b, l) == [1.0, 11.0 / 6.0];
    assert MaxOf([0.0, 1.0 / 6.0]) == 1.0 / 6.0;
    assert MinOf([1.0, 11.0 / 6.0]) == 1.0;
  }

  // ------------------------------------------------------------ Cohen–Sutherland

  /** The region code: bit 1 left of the window, 2 right of it, 4 below,
      8 above. */
  function RegionCode(b: Bounds, v: Vec3): bv4
  {
    (if v.x < b.origin.x then 1 else 0) | (if v.x > b.extension.x then 2 else 0)
    | (if v.y < b.origin.y then 4 else 0) | (if v.y > b.extension.y then 8 else 0)
  }

  /** Each bit of the code is one strict comparison with the window, and
      code 0 is the closed window. */
  lemma RegionCodeBits(b: Bounds, v: Vec3)
    ensures (RegionCode(b, v) & 1 != 0) == (v.x < b.origin.x)
    ensures (RegionCode(b, v) & 2 != 0) == (v.x > b.extension.x)
    ensures (RegionCode(b, v) & 4 != 0) == (v.y < b.origin.y)
    ensures (RegionCode(b, v) & 8 != 0) == (v.y > b.extension.y)
    ensures RegionCode(b, v) == 0 <==> InsideClosed(b, v)
  {
  }

  /** The side a code names: `NULL` for 0, one side for a single bit,
      `None` otherwise. */
  function SideOf(c: bv4): Option<Side>
  {
    if c == 0 then Some(Null)
    else if c == 1 then Some(Left)
    else if c == 2 then Some(Right)
    else if c == 8 then Some(Top)
    else if c == 4 then Some(Bottom)
    else None
  }

  predicate IsCorner(c: bv4) { c == 9 || c == 5 || c == 6 || c == 10 }

  /** `v` lies strictly between the bounds of an axis whose origin is
      beyond its extension, so its code holds both bits of that axis. */
  predicate Straddles(b: Bounds, v: Vec3)
  {
    b.extension.x < v.x < b.origin.x || b.extension.y < v.y < b.origin.y
  }

  lemma StraddlesAsBits(b: Bounds, v: Vec3)
    ensures Straddles(b, v) <==> RegionCode(b, v) & 3 == 3 || RegionCode(b, v) & 12 == 12
    ensures WellFormed(b) ==> !Straddles(b, v)
  {
    RegionCodeBits(b, v);
  }

  /** On an inverted axis every point sets at least one bit of that axis,
      so a segment with a straddling end point is always rejected
      trivially: the program never reaches its candidate pairs with one. */
  lemma StraddleRejected(b: Bounds, v: Vec3, w: Vec3)
    ensures Straddles(b, v) ==> RegionCode(b, v) & RegionCode(b, w) != 0
  {
    RegionCodeBits(b, v);
    RegionCodeBits(b, w);
    var cv, cw := RegionCode(b, v), RegionCode(b, w);
    if b.extension.x < v.x < b.origin.x {
      assert cv & 1 != 0 && cv & 2 != 0;
      assert cw & 1 != 0 || cw & 2 != 0;
    } else if b.extension.y < v.y < b.origin.y {
      assert cv & 4 != 0 && cv & 8 != 0;
      assert cw & 4 != 0 || cw & 8 != 0;
    }
  }

  /** Unless it straddles an axis, every code is a single side or a corner. */
  lemma RegionCodeShape(b: Bounds, v: Vec3)
    requires !Straddles(b, v)
    ensures SideOf(RegionCode(b, v)).Some? || IsCorner(RegionCode(b, v))
  {
  }

  /** The candidate pair of one end point: its own side and `None`, or the
      two sides of its corner. The program appends nothing for any other
      code; no such code arises (`RegionCodeShape`), and the model gives
      (None, None) there. */
  function Tries(c: bv4): (Option<Side>, Option<Side>)
  {
    if SideOf(c).Some? then (SideOf(c), None)
    else if c == 9 then (Some(Left), Some(Top))
    else if c == 5 then (Some(Left), Some(Bottom))
    else if c == 6 then (Some(Right), Some(Bottom))
    else if c == 10 then (Some(Right), Some(Top))
    else (None, None)
  }

  /** The code bit of a side (0 for `NULL` and `None`). */
  function SideBit(s: Option<Side>): bv4
  {
    match s
    case Some(Left) => 1
    case Some(Right) => 2
    case Some(Bottom) => 4
    case Some(Top) => 8
    case _ => 0
  }

  /** A side whose bit is in one end point's code, and not in the other's,
      can be evaluated. */
  lemma OwnSideAdmissible(b: Bounds, l: Segment, s: Option<Side>, own: Vec3, other: Vec3)
    requires (own == l.start && other == l.end) || (own == l.end && other == l.start)
    requires RegionCode(b, own) & SideBit(s) == SideBit(s)
    requires RegionCode(b, other) & SideBit(s) == 0
    ensures Admissible(l, s)
  {
    RegionCodeBits(b, own);
    RegionCodeBits(b, other);
  }

  lemma TriesAdmissible(b: Bounds, l: Segment)
    requires !Straddles(b, l.start) && !Straddles(b, l.end)
    requires RegionCode(b, l.start) & RegionCode(b, l.end) == 0
    ensures var c0, c1 := RegionCode(b, l.start), RegionCode(b, l.end);
      Admissible(l, Tries(c0).0) && Admissible(l, Tries(c0).1)
      && Admissible(l, Tries(c1).0) && Admissible(l, Tries(c1).1)
  {
    var c0, c1 := RegionCode(b, l.start), RegionCode(b, l.end);
    RegionCodeShape(b, l.start);
    RegionCodeShape(b, l.end);
    var t0, t1 := Tries(c0), Tries(c1);
    OwnSideAdmissible(b, l, t0.0, l.start, l.end);
    OwnSideAdmissible(b, l, t0.1, l.start, l.end);
    OwnSideAdmissible(b, l, t1.0, l.end, l.start);
    OwnSideAdmissible(b, l, t1.1, l.end, l.start);
  }

  /** The corner retries in the order (0, 0), (0, 1), (1, 0), (1, 1): the
      first non-empty intersection, else the last one (empty). */
  function RetryCorners(b: Bounds, l: Segment, t0: (Option<Side>, Option<Side>), t1: (Option<Side>, Option<Side>)): Option<Segment>
    requires Admissible(l, t0.0) && Admissible(l, t0.1) && Admissible(l, t1.0) && Admissible(l, t1.1)
  {
    var r00 := Intersection(b, l, t0.0, t1.0, true);
    if r00.Some? then r00
    else
      var r01 := Intersection(b, l, t0.0, t1.1, true);
      if r01.Some? then r01
      else
        var r10 := Intersection(b, l, t0.1, t1.0, true);
        if r10.Some? then r10
        else Intersection(b, l, t0.1, t1.1, true)
  }

  /** `cohen_sutherland`, for any window: past trivial rejection no end
      point straddles an axis (`StraddleRejected`), so both end points have
      a candidate pair. */
  function CohenSutherlandClip(b: Bounds, l: Segment): Option<Segment>
  {
    var c0, c1 := RegionCode(b, l.start), RegionCode(b, l.end);
    if c0 | c1 == 0 then Some(l)
    else if c0 & c1 != 0 then None
    else
      var s0, s1 := SideOf(c0), SideOf(c1);
      StraddleRejected(b, l.start, l.end);
      StraddleRejected(b, l.end, l.start);
      TriesAdmissible(b, l);
      if s0.Some? && s1.Some? then Intersection(b, l, s0, s1, true)
      else RetryCorners(b, l, Tries(c0), Tries(c1))
  }

  /** Trivial acceptance: both end points in the closed window. */
  lemma CohenSutherlandAccept(b: Bounds, l: Segment)
    requires WellFormed(b)
    requires InsideClosed(b, l.start) && InsideClosed(b, l.end)
    ensures CohenSutherlandClip(b, l) == Some(l)
  {
    RegionCodeBits(b, l.start);
    RegionCodeBits(b, l.end);
  }

  /** Trivial rejection: both end points strictly beyond the same boundary. */
  lemma CohenSutherlandReject(b: Bounds, l: Segment)
    requires WellFormed(b)
    requires (l.start.x < b.origin.x && l.end.x < b.origin.x)
          || (l.start.x > b.extension.x && l.end.x > b.extension.x)
          || (l.start.y < b.origin.y && l.end.y < b.origin.y)
          || (l.start.y > b.extension.y && l.end.y > b.extension.y)
    ensures CohenSutherlandClip(b, l) == None
  {
    RegionCodeBits(b, l.start);
    RegionCodeBits(b, l.end);
  }

  /** Along a non-vertical line, the rise between two of its points is the
      slope times the run. */
  lemma SlopeStep(l: Segment, v: Vec3, p: Vec3)
    requires v == l.start || v == l.end
    requires Dx(l) != 0.0 && Collinear(l, p)
    ensures Slope(l) * (p.x - v.x) == p.y - v.y
  {
    var k := Slope(l);
    var s := l.start;
    assert (p.x - s.x) * (k * Dx(l)) == (p.y - s.y) * Dx(l);
    assert (k * (p.x - s.x)) * Dx(l) == (p.y - s.y) * Dx(l);
    Arith.Cancel(k * (p.x - s.x), p.y - s.y, Dx(l));
    assert k * (p.x - v.x) == k * (p.x - s.x) - k * (v.x - s.x);
  }

  /** Along a non-horizontal line, the run between two of its points is
      the inverse slope times the rise. */
  lemma InverseSlopeStep(l: Segment, v: Vec3, p: Vec3)
    requires v == l.start || v == l.end
    requires Dy(l) != 0.0 && Collinear(l, p)
    ensures InverseSlope(l) * (p.y - v.y) == p.x - v.x
  {
    var j := InverseSlope(l);
    var s := l.start;
    InverseSlopeTimesDy(l);
    assert (p.x - s.x) * Dy(l) == (p.y - s.y) * (j * Dy(l));
    assert (p.x - s.x) * Dy(l) == (j * (p.y - s.y)) * Dy(l);
    Arith.Cancel(p.x - s.x, j * (p.y - s.y), Dy(l));
    assert j * (p.y - v.y) == j * (p.y - s.y) - j * (v.y - s.y);
  }

  /** An end point beyond exactly one boundary, joined to a point of its
      line inside the window, is cut by that boundary within the window's
      edge. */
  lemma CutStaysOnEdge(b: Bounds, l: Segment, v: Vec3, p: Vec3, s: Side)
    requires WellFormed(b)
    requires v == l.start || v == l.end
    requires s != Null && SideOf(RegionCode(b, v)) == Some(s)
    requires Collinear(l, p) && InsideClosed(b, p)
    requires Dx(l) != 0.0 || Dy(l) != 0.0
    ensures Admissible(l, Some(s)) ==> !OffEdge(b, Some(s), Cut(b, l, v, Some(s)))
  {
    RegionCodeBits(b, v);
    if Admissible(l, Some(s)) {
      if s == Left || s == Right {
        CutStaysOnEdgeX(b, l, v, p, s);
      } else {
        if Dy(l) == 0.0 {
          HorizontalLine(l, p);
          assert false;
        }
        CutStaysOnEdgeY(b, l, v, p, s);
      }
    }
  }

  /** On a horizontal line every point has the line's ordinate. */
  lemma HorizontalLine(l: Segment, p: Vec3)
    requires Dy(l) == 0.0 && Dx(l) != 0.0 && Collinear(l, p)
    ensures p.y == l.start.y && p.y == l.end.y
  {
    Arith.Cancel(p.y - l.start.y, 0.0, Dx(l));
  }

  lemma CutStaysOnEdgeX(b: Bounds, l: Segment, v: Vec3, p: Vec3, s: Side)
    requires v == l.start || v == l.end
    requires (s == Left && v.x < b.origin.x) || (s == Right && v.x > b.extension.x)
    requires b.origin.y <= v.y <= b.extension.y
    requires Collinear(l, p) && InsideClosed(b, p) && Dx(l) != 0.0
    ensures !OffEdge(b, Some(s), Cut(b, l, v, Some(s)))
  {
    SlopeStep(l, v, p);
    var a := if s == Left then b.origin.x else b.extension.x;
    Arith.InterpolateWithin(v.x, v.y, p.x, p.y, a, Slope(l), b.origin.y, b.extension.y);
  }

  lemma CutStaysOnEdgeY(b: Bounds, l: Segment, v: Vec3, p: Vec3, s: Side)
    requires v == l.start || v == l.end
    requires (s == Bottom && v.y < b.origin.y) || (s == Top && v.y > b.extension.y)
    requires b.origin.x <= v.x <= b.extension.x
    requires Collinear(l, p) && InsideClosed(b, p) && Dy(l) != 0.0
    ensures !OffEdge(b, Some(s), Cut(b, l, v, Some(s)))
  {
    InverseSlopeStep(l, v, p);
    var a := if s == Bottom then b.origin.y else b.extension.y;
    Arith.InterpolateWithin(v.y, v.x, p.y, p.x, a, InverseSlope(l), b.origin.x, b.extension.x);
  }

  /** The end point of a non-empty intersection whose side is `s` lies in
      the closed window: on the window's edge for a real side, a copy of an
      end point with code 0 for `NULL` or `None`. */
  lemma SideCutInside(b: Bounds, l: Segment, v: Vec3, s: Option<Side>, p: Vec3)
    requires WellFormed(b)
    requires v == l.start || v == l.end
    requires (s.None? || s == Some(Null)) ==> RegionCode(b, v) == 0
    requires Admissible(l, s) && p == Cut(b, l, v, s) && !OffEdge(b, s, p)
    ensures InsideClosed(b, p) && Collinear(l, p)
  {
    RegionCodeBits(b, v);
    CutOnLine(b, l, v, s);
  }

  /** What the candidate pair of an end point looks like: the first entry
      is its own side (`NULL` only for code 0); a second entry is a real
      side, or `None` beside the end point's own single side. */
  predicate TryShape(b: Bounds, v: Vec3, t: (Option<Side>, Option<Side>))
  {
    t.0.Some? && (t.0 == Some(Null) ==> RegionCode(b, v) == 0)
    && t.1 != Some(Null)
    && (t.1.None? && t.0 != Some(Null) ==> SideOf(RegionCode(b, v)) == t.0)
  }

  lemma TriesShape(b: Bounds, v: Vec3)
    requires WellFormed(b)
    ensures TryShape(b, v, Tries(RegionCode(b, v)))
    ensures IsCorner(RegionCode(b, v)) ==> Tries(RegionCode(b, v)).1.Some?
  {
    RegionCodeShape(b, v);
  }

  /** A try that keeps the end point (`None`) can only succeed where the
      try with the end point's own side succeeds too. */
  lemma KeptEndNeedsOwnSide(b: Bounds, l: Segment, sa: Option<Side>, s1: Side)
    requires WellFormed(b) && (Dx(l) != 0.0 || Dy(l) != 0.0)
    requires (sa.None? || sa == Some(Null)) ==> RegionCode(b, l.start) == 0
    requires s1 != Null && SideOf(RegionCode(b, l.end)) == Some(s1)
    requires Admissible(l, sa) && Admissible(l, Some(s1))
    ensures Intersection(b, l, sa, None, true).Some? ==> Intersection(b, l, sa, Some(s1), true).Some?
  {
    var p := Cut(b, l, l.start, sa);
    if !OffEdge(b, sa, p) {
      SideCutInside(b, l, l.start, sa, p);
      CutStaysOnEdge(b, l, l.end, p, s1);
    }
  }

  lemma KeptStartNeedsOwnSide(b: Bounds, l: Segment, s0: Side, sb: Option<Side>)
    requires WellFormed(b) && (Dx(l) != 0.0 || Dy(l) != 0.0)
    requires (sb.None? || sb == Some(Null)) ==> RegionCode(b, l.end) == 0
    requires s0 != Null && SideOf(RegionCode(b, l.start)) == Some(s0)
    requires Admissible(l, sb) && Admissible(l, Some(s0))
    ensures Intersection(b, l, None, sb, true).Some? ==> Intersection(b, l, Some(s0), sb, true).Some?
  {
    var q := Cut(b, l, l.end, sb);
    if !OffEdge(b, sb, q) {
      SideCutInside(b, l, l.end, sb, q);
      CutStaysOnEdge(b, l, l.start, q, s0);
    }
  }

  /** A successful try whose end points are cut by real sides or copy an
      end point inside the window lies in the window. */
  lemma TryInside(b: Bounds, l: Segment, sa: Option<Side>, sb: Option<Side>)
    requires WellFormed(b)
    requires (sa.None? || sa == Some(Null)) ==> RegionCode(b, l.start) == 0
    requires (sb.None? || sb == Some(Null)) ==> RegionCode(b, l.end) == 0
    requires Admissible(l, sa) && Admissible(l, sb)
    ensures var r := Intersection(b, l, sa, sb, true);
      r.Some? ==> (InsideClosed(b, r.value.start) && InsideClosed(b, r.value.end)
                   && Collinear(l, r.value.start) && Collinear(l, r.value.end))
  {
    var r := Intersection(b, l, sa, sb, true);
    if r.Some? {
      SideCutInside(b, l, l.start, sa, r.value.start);
      SideCutInside(b, l, l.end, sb, r.value.end);
    }
  }

  /** The corner-retry branch lies in the window: a try that keeps an
      outside end point comes after the try with that end point's own side,
      which would have succeeded first. */
  lemma RetryInside(b: Bounds, l: Segment, t0: (Option<Side>, Option<Side>), t1: (Option<Side>, Option<Side>))
    requires WellFormed(b) && (Dx(l) != 0.0 || Dy(l) != 0.0)
    requires TryShape(b, l.start, t0) && TryShape(b, l.end, t1)
    requires Admissible(l, t0.0) && Admissible(l, t0.1) && Admissible(l, t1.0) && Admissible(l, t1.1)
    requires t0.1.Some? || t1.1.Some?
    ensures var r := RetryCorners(b, l, t0, t1);
      r.Some? ==> (InsideClosed(b, r.value.start) && InsideClosed(b, r.value.end)
                   && Collinear(l, r.value.start) && Collinear(l, r.value.end))
  {
    var r00 := Intersection(b, l, t0.0, t1.0, true);
    var r01 := Intersection(b, l, t0.0, t1.1, true);
    var r10 := Intersection(b, l, t0.1, t1.0, true);
    var r11 := Intersection(b, l, t0.1, t1.1, true);
    var endKept := t1.1.None? && t1.0 != Some(Null);
    var startKept := t0.1.None? && t0.0 != Some(Null);
    if r00.Some? {
      TryInside(b, l, t0.0, t1.0);
    } else if r01.Some? {
      if endKept {
        KeptEndNeedsOwnSide(b, l, t0.0, t1.0.value);
        assert false;
      }
      TryInside(b, l, t0.0, t1.1);
    } else if r10.Some? {
      if startKept {
        KeptStartNeedsOwnSide(b, l, t0.0.value, t1.0);
        assert false;
      }
      TryInside(b, l, t0.1, t1.0);
    } else if r11.Some? {
      if endKept {
        KeptEndNeedsOwnSide(b, l, t0.1, t1.0.value);
        assert false;
      }
      if startKept {
        KeptStartNeedsOwnSide(b, l, t0.0.value, t1.1);
        assert false;
      }
      TryInside(b, l, t0.1, t1.1);
    }
  }

  /** Every non-empty Cohen–Sutherland result lies in the closed window
      and on the line through the segment. */
  lemma CohenSutherlandInside(b: Bounds, l: Segment)
    requires WellFormed(b)
    ensures var r := CohenSutherlandClip(b, l);
      r.Some? ==> (InsideClosed(b, r.value.start) && InsideClosed(b, r.value.end)
                   && Collinear(l, r.value.start) && Collinear(l, r.value.end))
  {
    var c0, c1 := RegionCode(b, l.start), RegionCode(b, l.end);
    RegionCodeBits(b, l.start);
    RegionCodeBits(b, l.end);
    if c0 | c1 == 0 {
      assert Dx(l) * Dy(l) == Dy(l) * Dx(l);
    } else if c0 & c1 == 0 {
      TriesAdmissible(b, l);
      var s0, s1 := SideOf(c0), SideOf(c1);
      if s0.Some? && s1.Some? {
        TryInside(b, l, s0, s1);
      } else {
        TriesShape(b, l.start);
        TriesShape(b, l.end);
        RegionCodeShape(b, l.start);
        RegionCodeShape(b, l.end);
        RetryInside(b, l, Tries(c0), Tries(c1));
      }
    }
  }

  /** Bounds [-500, 500] x [-500, 500]: (600, 0) -> (0, 0) is cut at the
      right edge to (500, 0) -> (0, 0), as by Liang–Barsky. */
  lemma CohenSutherlandExample()
    ensures CohenSutherlandClip(Bounds(Vec3(-500.0, -500.0, 0.0), Vec3(500.0, 500.0, 0.0)),
                                Segment(Vec3(600.0, 0.0, 0.0), Zero))
         == Some(Segment(Vec3(500.0, 0.0, 0.0), Zero))
  {
    var b := Bounds(Vec3(-500.0, -500.0, 0.0), Vec3(500.0, 500.0, 0.0));
    var l := Segment(Vec3(600.0, 0.0, 0.0), Zero);
    assert RegionCode(b, l.start) == 2 && RegionCode(b, l.end) == 0;
    assert Slope(l) == 0.0;
  }

  /** An inverted window (origin.x = 1 beyond extension.x = -1): the
      segment (-5, 0) -> (5, 0) has codes LEFT and RIGHT and is cut to
      (1, 0) -> (-1, 0), with no candidate list indexed past its end. */
  lemma CohenSutherlandInvertedExample()
    ensures CohenSutherlandClip(Bounds(Vec3(1.0, -10.0, 0.0), Vec3(-1.0, 10.0, 0.0)),
                                Segment(Vec3(-5.0, 0.0, 0.0), Vec3(5.0, 0.0, 0.0)))
         == Some(Segment(Vec3(1.0, 0.0, 0.0), Vec3(-1.0, 0.0, 0.0)))
  {
    var b := Bounds(Vec3(1.0, -10.0, 0.0), Vec3(-1.0, 10.0, 0.0));
    var l := Segment(Vec3(-5.0, 0.0, 0.0), Vec3(5.0, 0.0, 0.0));
    assert RegionCode(b, l.start) == 1 && RegionCode(b, l.end) == 2;
    assert Slope(l) == 0.0;
  }

  // ------------------------------------------------------- Sutherland–Hodgman

  /** The strict inside test of one pass, as `clip_polygon` applies it. */
  predicate InsideOpen(b: Bounds, s: Side, v: Vec3)
  {
    match s
    case Left => v.x > b.origin.x
    case Right => v.x < b.extension.x
    case Bottom => v.y > b.origin.y
    case Top => v.y < b.extension.y
    case Null => true
  }

  /** The closed inner side of one boundary. */
  predicate InsideSide(b: Bounds, s: Side, v: Vec3)
  {
    match s
    case Left => v.x >= b.origin.x
    case Right => v.x <= b.extension.x
    case Bottom => v.y >= b.origin.y
    case Top => v.y <= b.extension.y
    case Null => true
  }

  /** One line through one pass: kept when both end points are inside,
      cut at the boundary on the outside end when one is, dropped when
      neither is. */
  function ClipEdge(b: Bounds, s: Side, l: Segment): Option<Segment>
  {
    if InsideOpen(b, s, l.start) && InsideOpen(b, s, l.end) then Some(l)
    else if InsideOpen(b, s, l.start) then
      (assert Admissible(l, Some(s)); Intersection(b, l, None, Some(s), false))
    else if InsideOpen(b, s, l.end) then
      (assert Admissible(l, Some(s)); Intersection(b, l, Some(s), None, false))
    else None
  }

  /** The lines a pass keeps or cuts, in order. */
  function Pass(b: Bounds, s: Side, ls: seq<Segment>): (r: seq<Segment>)
    ensures |r| <= |ls|
  {
    if ls == [] then []
    else
      var l := ls[|ls| - 1];
      Pass(b, s, ls[..|ls| - 1]) + (match ClipEdge(b, s, l) case Some(c) => [c] case None => [])
  }

  /** One pass over the current lines. */
  method RunPass(b: Bounds, s: Side, ls: seq<Segment>) returns (out: seq<Segment>)
    ensures out == Pass(b, s, ls)
  {
    out := [];
    for i := 0 to |ls|
      invariant out == Pass(b, s, ls[..i])
    {
      assert ls[..i + 1][..i] == ls[..i];
      var c := ClipEdge(b, s, ls[i]);
      if c.Some? {
        out := out + [c.value];
      }
    }
    assert ls[..|ls|] == ls;
  }

  predicate AllEndpoints(ls: seq<Segment>, P: Vec3 -> bool)
  {
    forall i :: 0 <= i < |ls| ==> P(ls[i].start) && P(ls[i].end)
  }

  /** Every line a pass returns has both end points on the closed inner
      side of its boundary. */
  lemma ClipEdgeInside(b: Bounds, s: Side, l: Segment)
    requires s != Null
    ensures var c := ClipEdge(b, s, l);
      c.Some? ==> InsideSide(b, s, c.value.start) && InsideSide(b, s, c.value.end)
  {
    if InsideOpen(b, s, l.start) != InsideOpen(b, s, l.end) {
      assert Admissible(l, Some(s));
      IntersectionMeets(b, l, None, Some(s), false);
      IntersectionMeets(b, l, Some(s), None, false);
    }
  }

  /** The cut point of a pass stays between its two end points on the
      other axis. */
  lemma CutBetweenEnds(b: Bounds, l: Segment, v: Vec3, w: Vec3, s: Side)
    requires (v == l.end && w == l.start) || (v == l.start && w == l.end)
    requires s != Null && !InsideOpen(b, s, v) && InsideOpen(b, s, w)
    ensures Admissible(l, Some(s))
    ensures var p := Cut(b, l, v, Some(s));
      (s == Left || s == Right ==>
         (v.y <= w.y ==> v.y <= p.y <= w.y) && (w.y <= v.y ==> w.y <= p.y <= v.y))
      && (s == Top || s == Bottom ==>
         (v.x <= w.x ==> v.x <= p.x <= w.x) && (w.x <= v.x ==> w.x <= p.x <= v.x))
  {
    if s == Left || s == Right {
      CutBetweenEndsX(b, l, v, w, s);
    } else {
      CutBetweenEndsY(b, l, v, w, s);
    }
  }

  lemma CutBetweenEndsX(b: Bounds, l: Segment, v: Vec3, w: Vec3, s: Side)
    requires (v == l.end && w == l.start) || (v == l.start && w == l.end)
    requires (s == Left && v.x <= b.origin.x < w.x) || (s == Right && w.x < b.extension.x <= v.x)
    ensures Dx(l) != 0.0
    ensures var p := Cut(b, l, v, Some(s));
      (v.y <= w.y ==> v.y <= p.y <= w.y) && (w.y <= v.y ==> w.y <= p.y <= v.y)
  {
    var k := Slope(l);
    assert k * (w.x - v.x) == w.y - v.y;
    var a := if s == Left then b.origin.x else b.extension.x;
    var m := Arith.Offset(v.x, v.y, w.x, w.y, a, k);
    assert Cut(b, l, v, Some(s)).y == v.y + m;
  }

  lemma CutBetweenEndsY(b: Bounds, l: Segment, v: Vec3, w: Vec3, s: Side)
    requires (v == l.end && w == l.start) || (v == l.start && w == l.end)
    requires (s == Bottom && v.y <= b.origin.y < w.y) || (s == Top && w.y < b.extension.y <= v.y)
    ensures Dy(l) != 0.0
    ensures var p := Cut(b, l, v, Some(s));
      (v.x <= w.x ==> v.x <= p.x <= w.x) && (w.x <= v.x ==> w.x <= p.x <= v.x)
  {
    InverseSlopeTimesDy(l);
    var j := InverseSlope(l);
    assert j * (w.y - v.y) == w.x - v.x;
    var a := if s == Bottom then b.origin.y else b.extension.y;
    var m := Arith.Offset(v.y, v.x, w.y, w.x, a, j);
    assert Cut(b, l, v, Some(s)).x == v.x + m;
  }

  /** A pass keeps the closed inner side of every other boundary that its
      input already satisfies: a cut point lies between the two end points
      on the other axis, and on its own axis between the boundary and an end
      point inside. */
  lemma ClipEdgeKeeps(b: Bounds, s: Side, t: Side, l: Segment)
    requires s != Null && t != Null
    requires InsideSide(b, t, l.start) && InsideSide(b, t, l.end)
    ensures var c := ClipEdge(b, s, l);
      c.Some? ==> InsideSide(b, t, c.value.start) && InsideSide(b, t, c.value.end)
  {
    if InsideOpen(b, s, l.start) && !InsideOpen(b, s, l.end) {
      CutBetweenEnds(b, l, l.end, l.start, s);
      IntersectionMeets(b, l, None, Some(s), false);
    } else if !InsideOpen(b, s, l.start) && InsideOpen(b, s, l.end) {
      CutBetweenEnds(b, l, l.start, l.end, s);
      IntersectionMeets(b, l, Some(s), None, false);
    }
  }

  lemma {:induction false} PassInside(b: Bounds, s: Side, ls: seq<Segment>)
    requires s != Null
    ensures AllEndpoints(Pass(b, s, ls), v => InsideSide(b, s, v))
  {
    if ls != [] {
      PassInside(b, s, ls[..|ls| - 1]);
      ClipEdgeInside(b, s, ls[|ls| - 1]);
    }
  }

  lemma {:induction false} PassKeeps(b: Bounds, s: Side, t: Side, ls: seq<Segment>)
    requires s != Null && t != Null
    requires AllEndpoints(ls, v => InsideSide(b, t, v))
    ensures AllEndpoints(Pass(b, s, ls), v => InsideSide(b, t, v))
  {
    if ls != [] {
      PassKeeps(b, s, t, ls[..|ls| - 1]);
      ClipEdgeKeeps(b, s, t, ls[|ls| - 1]);
    }
  }

  // ----------------------------------------------------------------- Patch

  /** The connector after line k: from its end to the next line's start
      (the first line's, after the last line), when the two differ. The
      program compares the points by identity; the model compares values. */
  function Connector(ls: seq<Segment>, k: nat): seq<Segment>
    requires k < |ls|
  {
    var next := if k + 1 < |ls| then ls[k + 1].start else ls[0].start;
    if ls[k].end != next then [Segment(ls[k].end, next)] else []
  }

  /** The first k lines, each followed by its connector. */
  function PatchedPrefix(ls: seq<Segment>, k: nat): (r: seq<Segment>)
    requires k <= |ls|
    ensures k <= |r| <= 2 * k
  {
    if k == 0 then [] else PatchedPrefix(ls, k - 1) + [ls[k - 1]] + Connector(ls, k - 1)
  }

  /** What the patch step makes of a list of lines. */
  function Patched(ls: seq<Segment>): seq<Segment>
  {
    PatchedPrefix(ls, |ls|)
  }

  lemma {:induction false} PatchedPrefixFirst(ls: seq<Segment>, k: nat)
    requires 1 <= k <= |ls|
    ensures PatchedPrefix(ls, k)[0] == ls[0]
  {
    if k > 1 {
      PatchedPrefixFirst(ls, k - 1);
    }
  }

  /** One step of the patch loop at position i of the growing list t. */
  function PatchStep(t: seq<Segment>, i: nat): (r: seq<Segment>)
    requires i < |t|
    ensures |t| <= |r| <= |t| + 1
  {
    if i < |t| - 1 then
      if t[i].end != t[i + 1].start then t[..i + 1] + [Segment(t[i].end, t[i + 1].start)] + t[i + 1..] else t
    else
      if t[i].end != t[0].start then t + [Segment(t[i].end, t[0].start)] else t
  }

  /** At an original line the step adds exactly that line's connector. */
  lemma StepAtLine(ls: seq<Segment>, k: nat)
    requires k < |ls|
    ensures |PatchedPrefix(ls, k)| < |PatchedPrefix(ls, k) + ls[k..]|
    ensures PatchStep(PatchedPrefix(ls, k) + ls[k..], |PatchedPrefix(ls, k)|)
      == PatchedPrefix(ls, k + 1) + ls[k + 1..]
  {
    var p := PatchedPrefix(ls, k);
    var t := p + ls[k..];
    var i := |p|;
    assert t[i] == ls[k];
    if k + 1 < |ls| {
      assert t[i + 1] == ls[k + 1];
      assert t[..i + 1] == p + [ls[k]];
      assert t[i + 1..] == ls[k + 1..];
    } else {
      if k >= 1 {
        PatchedPrefixFirst(ls, k);
      }
      assert t[0] == ls[0];
      assert t == p + [ls[k]];
      assert ls[k + 1..] == [];
    }
  }

  /** At an inserted connector the step changes nothing. */
  lemma StepAtConnector(ls: seq<Segment>, k: nat)
    requires 1 <= k <= |ls| && |Connector(ls, k - 1)| == 1
    ensures 1 <= |PatchedPrefix(ls, k)| <= |PatchedPrefix(ls, k) + ls[k..]|
    ensures PatchStep(PatchedPrefix(ls, k) + ls[k..], |PatchedPrefix(ls, k)| - 1)
      == PatchedPrefix(ls, k) + ls[k..]
  {
    var p := PatchedPrefix(ls, k);
    var t := p + ls[k..];
    var i := |p| - 1;
    assert p == PatchedPrefix(ls, k - 1) + [ls[k - 1]] + Connector(ls, k - 1);
    assert t[i] == Connector(ls, k - 1)[0];
    if k < |ls| {
      assert t[i + 1] == ls[k];
    } else {
      PatchedPrefixFirst(ls, k);
      assert t[0] == ls[0];
    }
  }

  /** The body of the patch loop at position i: a connector inserted after
      line i when its end is not the next line's start, or appended after
      the last line when its end is not the first line's start. */
  method PatchAt(t: seq<Segment>, i: nat) returns (r: seq<Segment>)
    requires i < |t|
    ensures r == PatchStep(t, i)
  {
    r := t;
    if i < |t| - 1 {
      if t[i].end != t[i + 1].start {
        r := t[..i + 1] + [Segment(t[i].end, t[i + 1].start)] + t[i + 1..];
      }
    } else {
      if t[i].end != t[0].start {
        r := t + [Segment(t[i].end, t[0].start)];
      }
    }
  }

  /** The patch loop: walks the list while it grows, inserting a connector
      after a line whose end is not the next line's start and appending
      one after the last line when its end is not the first line's start. */
  method Patch(ls: seq<Segment>) returns (t: seq<Segment>)
    ensures t == Patched(ls)
  {
    t := ls;
    var i := 0;
    ghost var k := 0;
    ghost var atConnector := false;
    assert ls[0..] == ls;
    while i < |t|
      invariant 0 <= k <= |ls|
      invariant t == PatchedPrefix(ls, k) + ls[k..]
      invariant !atConnector ==> i == |PatchedPrefix(ls, k)|
      invariant atConnector ==> 1 <= k && |Connector(ls, k - 1)| == 1 && i == |PatchedPrefix(ls, k)| - 1
      decreases 2 * (|ls| - k) + (if atConnector then 1 else 0)
    {
      if atConnector {
        StepAtConnector(ls, k);
      } else if k == |ls| {
        assert false;
      } else {
        StepAtLine(ls, k);
      }
      t := PatchAt(t, i);
      if !atConnector {
        atConnector := |Connector(ls, k)| == 1;
        k := k + 1;
      } else {
        atConnector := false;
      }
      i := i + 1;
    }
    if atConnector {
      assert false;
    }
    assert ls[|ls|..] == [];
  }

  /** Consecutive lines join, and the last one ends where the first starts. */
  predicate ClosedChain(ls: seq<Segment>)
  {
    (forall i :: 0 <= i < |ls| - 1 ==> ls[i].end == ls[i + 1].start)
    && (ls != [] ==> ls[|ls| - 1].end == ls[0].start)
  }

  /** The patched prefix is a chain from the first line that ends at the
      next line's start (the first line's start once complete). */
  lemma {:induction false} PatchedPrefixChain(ls: seq<Segment>, k: nat)
    requires 1 <= k <= |ls|
    ensures var p := PatchedPrefix(ls, k);
      (forall i :: 0 <= i < |p| - 1 ==> p[i].end == p[i + 1].start)
      && p[|p| - 1].end == (if k < |ls| then ls[k].start else ls[0].start)
  {
    var p := PatchedPrefix(ls, k);
    var c := Connector(ls, k - 1);
    if k == 1 {
      assert p == [ls[0]] + c;
    } else {
      PatchedPrefixChain(ls, k - 1);
      var q := PatchedPrefix(ls, k - 1);
      assert p == q + [ls[k - 1]] + c;
      forall i | 0 <= i < |p| - 1
        ensures p[i].end == p[i + 1].start
      {
        if i < |q| - 1 {
          assert p[i] == q[i] && p[i + 1] == q[i + 1];
        } else if i == |q| - 1 {
          assert p[i] == q[i] && p[i + 1] == ls[k - 1];
        }
      }
    }
  }

  /** After the patch step the lines form one closed chain. */
  lemma PatchedCloses(ls: seq<Segment>)
    ensures ClosedChain(Patched(ls))
  {
    if ls != [] {
      PatchedPrefixChain(ls, |ls|);
      PatchedPrefixFirst(ls, |ls|);
    }
  }

  /** The patch step adds no new points: every end point it returns is an
      end point of its input, so any property of the input's end points
      holds of the output's. */
  lemma {:induction false} PatchedPrefixKeeps(ls: seq<Segment>, k: nat, P: Vec3 -> bool)
    requires k <= |ls| && AllEndpoints(ls, P)
    ensures AllEndpoints(PatchedPrefix(ls, k), P)
  {
    if k > 0 {
      PatchedPrefixKeeps(ls, k - 1, P);
      var next := if k < |ls| then ls[k].start else ls[0].start;
      assert P(ls[k - 1].end) && P(next);
    }
  }

  lemma PatchedKeeps(ls: seq<Segment>, P: Vec3 -> bool)
    requires AllEndpoints(ls, P)
    ensures AllEndpoints(Patched(ls), P)
  {
    PatchedPrefixKeeps(ls, |ls|, P);
  }

  /** A list that already closes is left as it is. */
  lemma {:induction false} PatchedPrefixOfChain(ls: seq<Segment>, k: nat)
    requires k <= |ls| && ClosedChain(ls)
    ensures PatchedPrefix(ls, k) == ls[..k]
  {
    if k > 0 {
      PatchedPrefixOfChain(ls, k - 1);
      var j := k - 1;
      if k < |ls| {
        assert ls[j].end == ls[j + 1].start;
      }
      assert Connector(ls, j) == [];
      assert ls[..k] == ls[..j] + [ls[j]];
    }
  }

  lemma PatchedIdempotent(ls: seq<Segment>)
    ensures ClosedChain(ls) ==> Patched(ls) == ls
    ensures Patched(Patched(ls)) == Patched(ls)
  {
    if ClosedChain(ls) {
      PatchedPrefixOfChain(ls, |ls|);
      assert ls[..|ls|] == ls;
    }
    PatchedCloses(ls);
    var p := Patched(ls);
    PatchedPrefixOfChain(p, |p|);
    assert p[..|p|] == p;
  }

  // ------------------------------------------------------------ Polygons

  /** One pass followed, for a filled object, by the patch step. */
  function AfterPass(b: Bounds, s: Side, ls: seq<Segment>, fill: bool): seq<Segment>
  {
    var t := Pass(b, s, ls);
    if fill then Patched(t) else t
  }

  /** The passes of `clip_polygon` for the sides in order. */
  function Passes(b: Bounds, ls: seq<Segment>, fill: bool, sides: seq<Side>): seq<Segment>
  {
    if sides == [] then ls
    else AfterPass(b, sides[|sides| - 1], Passes(b, ls, fill, sides[..|sides| - 1]), fill)
  }

  const PassOrder: seq<Side> := [Left, Right, Bottom, Top]

  /** A point is kept, as its first line, when its first normalised
      coordinate lies in the closed window. */
  predicate PointBranch(kind: ObjectKind, nc: seq<Vec3>)
  {
    kind == PointKind && |nc| > 0
  }

  /** What `clip_polygon` returns. The program reads the first line of a
      kept point, so the point must have one. */
  function ClipPolygonSpec(b: Bounds, kind: ObjectKind, nc: seq<Vec3>, vl: seq<Segment>, fill: bool): seq<Segment>
    requires PointBranch(kind, nc) && InsideClosed(b, nc[0]) ==> |vl| > 0
  {
    if PointBranch(kind, nc) then
      if InsideClosed(b, nc[0]) then [vl[0]] else []
    else Passes(b, vl, fill, PassOrder)
  }

  /** `clip_polygon`: the point test, or the four passes, each followed by
      the patch step for a filled object. */
  method ClipPolygon(b: Bounds, kind: ObjectKind, nc: seq<Vec3>, vl: seq<Segment>, fill: bool)
    returns (clipped: seq<Segment>)
    requires PointBranch(kind, nc) && InsideClosed(b, nc[0]) ==> |vl| > 0
    ensures clipped == ClipPolygonSpec(b, kind, nc, vl, fill)
  {
    clipped := [];
    if kind == PointKind && |nc| > 0 {
      if b.origin.x <= nc[0].x <= b.extension.x && b.origin.y <= nc[0].y <= b.extension.y {
        clipped := clipped + [vl[0]];
      }
    } else {
      clipped := vl;
      var sides := [Left, Right, Bottom, Top];
      for j := 0 to 4
        invariant clipped == Passes(b, vl, fill, sides[..j])
      {
        assert sides[..j + 1][..j] == sides[..j];
        var temp := RunPass(b, sides[j], clipped);
        if fill {
          temp := Patch(temp);
        }
        clipped := temp;
      }
      assert sides[..4] == PassOrder;
    }
  }

  /** A pass, patched or not, leaves every end point on the inner side of
      its own boundary and keeps earlier passes' sides. */
  lemma AfterPassInside(b: Bounds, s: Side, ls: seq<Segment>, fill: bool)
    requires s != Null
    ensures AllEndpoints(AfterPass(b, s, ls, fill), v => InsideSide(b, s, v))
  {
    PassInside(b, s, ls);
    if fill {
      PatchedKeeps(Pass(b, s, ls), v => InsideSide(b, s, v));
    }
  }

  lemma AfterPassKeeps(b: Bounds, s: Side, t: Side, ls: seq<Segment>, fill: bool)
    requires s != Null && t != Null
    requires AllEndpoints(ls, v => InsideSide(b, t, v))
    ensures AllEndpoints(AfterPass(b, s, ls, fill), v => InsideSide(b, t, v))
  {
    PassKeeps(b, s, t, ls);
    if fill {
      PatchedKeeps(Pass(b, s, ls), v => InsideSide(b, t, v));
    }
  }

  /** After the four passes every end point lies in the closed window. */
  lemma PassesInside(b: Bounds, ls: seq<Segment>, fill: bool)
    ensures AllEndpoints(Passes(b, ls, fill, PassOrder), v => InsideClosed(b, v))
  {
    var o := PassOrder;
    assert o[..4][..3] == o[..3] && o[..3][..2] == o[..2] && o[..2][..1] == o[..1] && o[..1][..0] == [];
    assert o[..4] == o;
    var l1 := Passes(b, ls, fill, o[..1]);
    var l2 := Passes(b, ls, fill, o[..2]);
    var l3 := Passes(b, ls, fill, o[..3]);
    var l4 := Passes(b, ls, fill, o);
    assert Passes(b, ls, fill, o[..1][..0]) == ls;
    assert l1 == AfterPass(b, Left, ls, fill);
    assert l2 == AfterPass(b, Right, l1, fill);
    assert l3 == AfterPass(b, Bottom, l2, fill);
    assert l4 == AfterPass(b, Top, l3, fill);
    AfterPassInside(b, Left, ls, fill);
    AfterPassInside(b, Right, l1, fill);
    AfterPassKeeps(b, Right, Left, l1, fill);
    AfterPassInside(b, Bottom, l2, fill);
    AfterPassKeeps(b, Bottom, Left, l2, fill);
    AfterPassKeeps(b, Bottom, Right, l2, fill);
    AfterPassInside(b, Top, l3, fill);
    AfterPassKeeps(b, Top, Left, l3, fill);
    AfterPassKeeps(b, Top, Right, l3, fill);
    AfterPassKeeps(b, Top, Bottom, l3, fill);
    forall i | 0 <= i < |l4|
      ensures InsideClosed(b, l4[i].start) && InsideClosed(b, l4[i].end)
    {
      assert InsideSide(b, Left, l4[i].start) && InsideSide(b, Left, l4[i].end);
      assert InsideSide(b, Right, l4[i].start) && InsideSide(b, Right, l4[i].end);
      assert InsideSide(b, Bottom, l4[i].start) && InsideSide(b, Bottom, l4[i].end);
      assert InsideSide(b, Top, l4[i].start) && InsideSide(b, Top, l4[i].end);
    }
  }

  /** The result of a filled polygon is one closed chain of lines. */
  lemma FilledPassesClose(b: Bounds, ls: seq<Segment>)
    ensures ClosedChain(Passes(b, ls, true, PassOrder))
  {
    var o := PassOrder;
    assert o[..|o|] == o;
    PatchedCloses(Pass(b, Top, Passes(b, ls, true, o[..3])));
  }

  /** Everything `clip_polygon` returns for a non-point object lies in the
      closed window; a point is kept exactly when it lies there. */
  lemma ClipPolygonInside(b: Bounds, kind: ObjectKind, nc: seq<Vec3>, vl: seq<Segment>, fill: bool)
    requires PointBranch(kind, nc) && InsideClosed(b, nc[0]) ==> |vl| > 0
    ensures PointBranch(kind, nc) ==> (ClipPolygonSpec(b, kind, nc, vl, fill) != [] <==> InsideClosed(b, nc[0]))
    ensures !PointBranch(kind, nc) ==> AllEndpoints(ClipPolygonSpec(b, kind, nc, vl, fill), v => InsideClosed(b, v))
  {
    if !PointBranch(kind, nc) {
      PassesInside(b, vl, fill);
    }
  }

  // --------------------------------------------------------------- Lines

  function ClipLine(m: LineClippingMethod, b: Bounds, l: Segment): Option<Segment>
  {
    match m
    case CohenSutherland => CohenSutherlandClip(b, l)
    case LiangBarsky => LiangBarskyClip(b, l)
  }

  /** What `clip_lines` returns: the non-empty results, in order. */
  function ClipLinesSpec(m: LineClippingMethod, b: Bounds, vl: seq<Segment>): (r: seq<Segment>)
    ensures |r| <= |vl|
  {
    if vl == [] then []
    else
      ClipLinesSpec(m, b, vl[..|vl| - 1])
      + (match ClipLine(m, b, vl[|vl| - 1]) case Some(c) => [c] case None => [])
  }

  /** `clip_lines`. */
  method ClipLines(m: LineClippingMethod, b: Bounds, vl: seq<Segment>) returns (clipped: seq<Segment>)
    ensures clipped == ClipLinesSpec(m, b, vl)
  {
    clipped := [];
    for i := 0 to |vl|
      invariant clipped == ClipLinesSpec(m, b, vl[..i])
    {
      assert vl[..i + 1][..i] == vl[..i];
      var c := ClipLine(m, b, vl[i]);
      if c.Some? {
        clipped := clipped + [c.value];
      }
    }
    assert vl[..|vl|] == vl;
  }

  /** Both line methods leave only end points in the closed window. */
  lemma ClipLineInside(m: LineClippingMethod, b: Bounds, l: Segment)
    requires m == CohenSutherland ==> WellFormed(b)
    ensures var r := ClipLine(m, b, l);
      r.Some? ==> InsideClosed(b, r.value.start) && InsideClosed(b, r.value.end)
  {
    if m == CohenSutherland {
      CohenSutherlandInside(b, l);
    } else {
      LiangBarskyResult(b, l);
    }
  }

  lemma {:induction false} ClipLinesInside(m: LineClippingMethod, b: Bounds, vl: seq<Segment>)
    requires m == CohenSutherland ==> WellFormed(b)
    ensures AllEndpoints(ClipLinesSpec(m, b, vl), v => InsideClosed(b, v))
  {
    if vl != [] {
      ClipLinesInside(m, b, vl[..|vl| - 1]);
      ClipLineInside(m, b, vl[|vl| - 1]);
    }
  }

  /** Lines inside the window pass through either method unchanged (up to
      the z coordinate Liang–Barsky resets). */
  lemma {:induction false} ClipLinesKeepsInside(m: LineClippingMethod, b: Bounds, vl: seq<Segment>)
    requires WellFormed(b)
    requires AllEndpoints(vl, v => InsideClosed(b, v))
    ensures |ClipLinesSpec(m, b, vl)| == |vl|
  {
    if vl != [] {
      ClipLinesKeepsInside(m, b, vl[..|vl| - 1]);
      var l := vl[|vl| - 1];
      if m == CohenSutherland {
        CohenSutherlandAccept(b, l);
      } else {
        LiangBarskyKeepsInside(b, l);
      }
    }
  }

  // ------------------------------------------------------------- Clipper

  function Toggled(m: LineClippingMethod): (r: LineClippingMethod)
    ensures r != m
  {
    if m == CohenSutherland then LiangBarsky else CohenSutherland
  }

  /** What `clip` returns: the polygon clipper for a filled object, the
      selected line method otherwise. */
  function ClipSpec(m: LineClippingMethod, b: Bounds, kind: ObjectKind, nc: seq<Vec3>, vl: seq<Segment>, fill: bool): seq<Segment>
    requires fill ==> (PointBranch(kind, nc) && InsideClosed(b, nc[0]) ==> |vl| > 0)
  {
    if fill then ClipPolygonSpec(b, kind, nc, vl, fill) else ClipLinesSpec(m, b, vl)
  }

  class Clipper {
    var clippingMethod: LineClippingMethod

    constructor ()
      ensures clippingMethod == LiangBarsky
    {
      clippingMethod := LiangBarsky;
    }

    method ToggleClippingMethod()
      modifies this
      ensures clippingMethod == Toggled(old(clippingMethod))
    {
      if clippingMethod == CohenSutherland {
        clippingMethod := LiangBarsky;
      } else {
        clippingMethod := CohenSutherland;
      }
    }

    /** `clip`, on the window's normalised bounds. */
    method Clip(b: Bounds, obj: Object) returns (clipped: seq<Segment>)
      requires obj.fill ==> (PointBranch(obj.kind, obj.normalizedCoords) && InsideClosed(b, obj.normalizedCoords[0]) ==> |obj.vectorLines| > 0)
      ensures clipped == ClipSpec(clippingMethod, b, obj.kind, obj.normalizedCoords, obj.vectorLines, obj.fill)
    {
      if obj.fill {
        clipped := ClipPolygon(b, obj.kind, obj.normalizedCoords, obj.vectorLines, obj.fill);
      } else {
        clipped := ClipLines(clippingMethod, b, obj.vectorLines);
      }
    }
  }

  /** Toggling twice restores the method. */
  lemma ToggleTwice(m: LineClippingMethod)
    ensures Toggled(Toggled(m)) == m
  {
  }

  /** Whatever `clip` returns for a non-point object lies in the closed
      window, with either line method. */
  lemma ClipInside(m: LineClippingMethod, b: Bounds, kind: ObjectKind, nc: seq<Vec3>, vl: seq<Segment>, fill: bool)
    requires WellFormed(b) && !PointBranch(kind, nc)
    ensures AllEndpoints(ClipSpec(m, b, kind, nc, vl, fill), v => InsideClosed(b, v))
  {
    if fill {
      ClipPolygonInside(b, kind, nc, vl, fill);
    } else {
      ClipLinesInside(m, b, vl);
    }
  }
}
