/** The viewport of managers/viewport_manager.py: the mapping between the
    window's bounds and the pixels of the drawing area (y flipped, row 0 at
    the top), the clipping of the older objects against the window, the
    selected line-clipping method, and the window helpers bound to the
    camera controls. The clipping code there repeats the algorithms of
    backend/rendering/clipper.py line for line, so it is the `Clipping`
    module applied to the older objects' lines. */
module Viewport {
  import opened Vectors
  import opened Matrices
  import opened Outcomes
  import opened Objects
  import Clipping
  import LegacyTransforms
  import LegacyShapes

  /** `world_to_screen` against padded bounds `o`, `e`. */
  function ToScreen(o: Vec3, e: Vec3, p: Vec3, width: real, height: real): Vec3
    requires e.x != o.x && e.y != o.y
  {
    Vec3(((p.x - o.x) / (e.x - o.x)) * width, (1.0 - (p.y - o.y) / (e.y - o.y)) * height, 0.0)
  }

  /** `screen_to_world` against padded bounds `o`, `e`. */
  function ToWorld(o: Vec3, e: Vec3, q: Vec3, width: real, height: real): Vec3
    requires width != 0.0 && height != 0.0
  {
    Vec3((q.x / width) * (e.x - o.x) + o.x, (1.0 - q.y / height) * (e.y - o.y) + o.y, 0.0)
  }

  /** The origin goes to the bottom-left pixel corner and the extension to
      the top-right one; y is flipped. */
  lemma ToScreenCorners(o: Vec3, e: Vec3, width: real, height: real)
    requires e.x != o.x && e.y != o.y
    ensures ToScreen(o, e, o, width, height) == Vec3(0.0, height, 0.0)
    ensures ToScreen(o, e, e, width, height) == Vec3(width, 0.0, 0.0)
  {
    DivMul(1.0, e.x - o.x);
    DivMul(1.0, e.y - o.y);
    MulDiv(1.0, e.x - o.x);
    MulDiv(1.0, e.y - o.y);
  }

  /** Inside the bounds means inside the pixel rectangle, for a positive
      screen size and bounds with the origin below and left. */
  lemma ToScreenInside(o: Vec3, e: Vec3, p: Vec3, width: real, height: real)
    requires o.x < e.x && o.y < e.y && width > 0.0 && height > 0.0
    requires o.x <= p.x <= e.x && o.y <= p.y <= e.y
    ensures 0.0 <= ToScreen(o, e, p, width, height).x <= width
    ensures 0.0 <= ToScreen(o, e, p, width, height).y <= height
  {
    var fx := (p.x - o.x) / (e.x - o.x);
    var fy := (p.y - o.y) / (e.y - o.y);
    Fraction(p.x - o.x, e.x - o.x);
    Fraction(p.y - o.y, e.y - o.y);
    assert 0.0 <= fx * width <= width by { ScaledFraction(fx, width); }
    assert 0.0 <= (1.0 - fy) * height <= height by { ScaledFraction(1.0 - fy, height); }
  }

  lemma Fraction(a: real, b: real)
    requires 0.0 <= a <= b && b > 0.0
    ensures 0.0 <= a / b <= 1.0
  {
  }

  lemma ScaledFraction(f: real, k: real)
    requires 0.0 <= f <= 1.0 && k > 0.0
    ensures 0.0 <= f * k <= k
  {
  }

  lemma DivMul(a: real, b: real)
    requires b != 0.0
    ensures (a / b) * b == a
  {
  }

  lemma MulDiv(x: real, b: real)
    requires b != 0.0
    ensures (x * b) / b == x
  {
  }

  /** A point of the plane survives the round trip screen ← world, losing
      only its z. */
  lemma WorldRoundTrip(o: Vec3, e: Vec3, p: Vec3, width: real, height: real)
    requires e.x != o.x && e.y != o.y && width != 0.0 && height != 0.0
    ensures ToWorld(o, e, ToScreen(o, e, p, width, height), width, height) == Vec3(p.x, p.y, 0.0)
  {
    var fx := (p.x - o.x) / (e.x - o.x);
    var fy := (p.y - o.y) / (e.y - o.y);
    MulDiv(fx, width);
    MulDiv(1.0 - fy, height);
    DivMul(p.x - o.x, e.x - o.x);
    DivMul(p.y - o.y, e.y - o.y);
  }

  /** A pixel survives the round trip world ← screen, losing only its z. */
  lemma ScreenRoundTrip(o: Vec3, e: Vec3, q: Vec3, width: real, height: real)
    requires e.x != o.x && e.y != o.y && width != 0.0 && height != 0.0
    ensures ToScreen(o, e, ToWorld(o, e, q, width, height), width, height) == Vec3(q.x, q.y, 0.0)
  {
    var gx := q.x / width;
    var gy := 1.0 - q.y / height;
    MulDiv(gx, e.x - o.x);
    MulDiv(gy, e.y - o.y);
    DivMul(q.x, width);
    DivMul(q.y, height);
  }

  /** The padded bounds are not degenerate. */
  predicate Spans(o: Vec3, e: Vec3)
  {
    e.x != o.x && e.y != o.y
  }

  /** A rectangle symmetric about the origin, in the corner order of a
      window, is centred on the origin. */
  lemma SymmetricCentred(a: real, b: real)
    ensures Mean([Vec3(-a, -b, 0.0), Vec3(-a, b, 0.0), Vec3(a, b, 0.0), Vec3(a, -b, 0.0)]) == Zero
  {
    var c1 := [Vec3(-a, -b, 0.0)];
    var c2 := c1 + [Vec3(-a, b, 0.0)];
    var c3 := c2 + [Vec3(a, b, 0.0)];
    var cs := c3 + [Vec3(a, -b, 0.0)];
    assert Sum(c1) == Vec3(-a, -b, 0.0) by { assert c1[..0] == []; }
    assert Sum(c2) == Vec3(-a - a, 0.0, 0.0) by { assert c2[..1] == c1; }
    assert Sum(c3) == Vec3(-a, b, 0.0) by { assert c3[..2] == c2; }
    assert Sum(cs) == Zero by { assert cs[..3] == c3; }
    assert cs == [Vec3(-a, -b, 0.0), Vec3(-a, b, 0.0), Vec3(a, b, 0.0), Vec3(a, -b, 0.0)];
  }

  /** Turning about an anchor by `t` (x, then y, then z factors, as the
      older transform builds them) is undone by turning about the same
      anchor by the negated angles in the reverse order. */
  lemma ReversedTurnUndoes(t: Angles, a: Vec3, c: Vec3)
    requires AnglesAreUnit(t)
    ensures LegacyTransforms.AboutAnchor(Rotation(Negated(t), false), a, LegacyTransforms.AboutAnchor(Rotation(t, true), a, c)) == c
  {
    var m := Rotation(t, true);
    var x := c.Sub(a);
    RotationIsLinearBlock(t, true);
    AffineKeepsW(m, x);
    var y := Drop3(Apply(m, Homogeneous(x)));
    assert y.Add(a).Sub(a) == y;
    InverseRotationInverse(t, Homogeneous(x));
    assert Apply(Rotation(Negated(t), false), Homogeneous(y)) == Homogeneous(x);
    assert x.Add(a) == c;
  }

  /** The whole window undone, corner by corner. */
  lemma UndoRestores(t: Angles, a: Vec3, cs: seq<Vec3>)
    requires AnglesAreUnit(t)
    ensures LegacyTransforms.AllAboutAnchor(Rotation(Negated(t), false), a,
                                            LegacyTransforms.AllAboutAnchor(Rotation(t, true), a, cs)) == cs
  {
    forall i | 0 <= i < |cs|
      ensures LegacyTransforms.AboutAnchor(Rotation(Negated(t), false), a,
                                           LegacyTransforms.AllAboutAnchor(Rotation(t, true), a, cs)[i]) == cs[i]
    {
      ReversedTurnUndoes(t, a, cs[i]);
    }
  }

  /** The older transform's rotation, applied one axis at a time: z
      first, then y, then x. */
  lemma TurnByAxes(t: Angles, v: Vec4, v1: Vec4, v2: Vec4, v3: Vec4)
    requires Apply(RotationZ(t.z), v) == v1 && Apply(RotationY(t.y), v1) == v2 && Apply(RotationX(t.x), v2) == v3
    ensures Apply(Rotation(t, true), v) == v3
  {
    ApplyMul(Mul(RotationX(t.x), RotationY(t.y)), RotationZ(t.z), v);
    ApplyMul(RotationX(t.x), RotationY(t.y), v1);
  }

  /** Acting about the origin is acting on the point itself. */
  lemma AboutOrigin(m: Mat4, p: Vec3, w: Vec4)
    requires Apply(m, Homogeneous(p)) == w
    ensures LegacyTransforms.AboutAnchor(m, Zero, p) == Drop3(w)
  {
    assert p.Sub(Zero) == p;
    assert Drop3(w).Add(Zero) == Drop3(w);
  }

  /** `reset_window_rotation` turns by the negated angles in the same x, y,
      z order, which does not undo a turn about two axes: a quarter turn
      about x and about y sends (1, 0, 0) to (0, 1, 0) (this lemma), and the
      reset sends that to (0, 0, -1) instead of back (`ResetRotationMisses`). */
  lemma RotateQuarterTurns(t: Angles)
    requires t.x.c == 0.0 && t.x.s == 1.0 && t.y.c == 0.0 && t.y.s == 1.0 && t.z.c == 1.0 && t.z.s == 0.0
    ensures LegacyTransforms.AboutAnchor(Rotation(t, true), Zero, Vec3(1.0, 0.0, 0.0)) == Vec3(0.0, 1.0, 0.0)
  {
    QuarterTurnsForward(t);
    AboutOrigin(Rotation(t, true), Vec3(1.0, 0.0, 0.0), Vec4(0.0, 1.0, 0.0, 1.0));
  }

  /** The reset of the quarter turns of `RotateQuarterTurns`: (0, 1, 0)
      goes to (0, 0, -1), not back to (1, 0, 0). */
  lemma ResetRotationMisses(t: Angles)
    requires t.x.c == 0.0 && t.x.s == 1.0 && t.y.c == 0.0 && t.y.s == 1.0 && t.z.c == 1.0 && t.z.s == 0.0
    ensures LegacyTransforms.AboutAnchor(Rotation(Negated(t), true), Zero, Vec3(0.0, 1.0, 0.0)) == Vec3(0.0, 0.0, -1.0)
  {
    var n := Negated(t);
    assert n.x.c == 0.0 && n.x.s == -1.0 && n.z.c == 1.0 && n.z.s == 0.0;
    QuarterTurnsBack(n);
    AboutOrigin(Rotation(n, true), Vec3(0.0, 1.0, 0.0), Vec4(0.0, 0.0, -1.0, 1.0));
  }

  lemma QuarterTurnsForward(t: Angles)
    requires t.x.c == 0.0 && t.x.s == 1.0 && t.y.c == 0.0 && t.y.s == 1.0 && t.z.c == 1.0 && t.z.s == 0.0
    ensures Apply(Rotation(t, true), Vec4(1.0, 0.0, 0.0, 1.0)) == Vec4(0.0, 1.0, 0.0, 1.0)
  {
    var v := Vec4(1.0, 0.0, 0.0, 1.0);
    StillZ(t.z, v);
    QuarterY(t.y);
    QuarterX(t.x);
    TurnByAxes(t, v, v, Vec4(0.0, 0.0, -1.0, 1.0), Vec4(0.0, 1.0, 0.0, 1.0));
  }

  lemma QuarterTurnsBack(n: Angles)
    requires n.x.c == 0.0 && n.x.s == -1.0 && n.z.c == 1.0 && n.z.s == 0.0
    ensures Apply(Rotation(n, true), Vec4(0.0, 1.0, 0.0, 1.0)) == Vec4(0.0, 0.0, -1.0, 1.0)
  {
    var u := Vec4(0.0, 1.0, 0.0, 1.0);
    StillZ(n.z, u);
    YAxisStays(n.y);
    BackQuarterX(n.x);
    TurnByAxes(n, u, u, u, Vec4(0.0, 0.0, -1.0, 1.0));
  }

  // The elementary steps of the counterexample, one per lemma.

  lemma StillZ(z: CosSin, v: Vec4)
    requires z.c == 1.0 && z.s == 0.0
    ensures Apply(RotationZ(z), v) == v
  {
  }

  lemma QuarterY(y: CosSin)
    requires y.c == 0.0 && y.s == 1.0
    ensures Apply(RotationY(y), Vec4(1.0, 0.0, 0.0, 1.0)) == Vec4(0.0, 0.0, -1.0, 1.0)
  {
  }

  lemma QuarterX(x: CosSin)
    requires x.c == 0.0 && x.s == 1.0
    ensures Apply(RotationX(x), Vec4(0.0, 0.0, -1.0, 1.0)) == Vec4(0.0, 1.0, 0.0, 1.0)
  {
  }

  lemma YAxisStays(y: CosSin)
    ensures Apply(RotationY(y), Vec4(0.0, 1.0, 0.0, 1.0)) == Vec4(0.0, 1.0, 0.0, 1.0)
  {
  }

  lemma BackQuarterX(x: CosSin)
    requires x.c == 0.0 && x.s == -1.0
    ensures Apply(RotationX(x), Vec4(0.0, 1.0, 0.0, 1.0)) == Vec4(0.0, 0.0, -1.0, 1.0)
  {
  }

  /** The corners and the cop through one matrix about one anchor. */
  method TurnWindow(m: Mat4, a: Vec3, coords: seq<Vec3>, cop: Vec3) returns (newCoords: seq<Vec3>, newCop: Vec3)
    ensures newCoords == LegacyTransforms.AllAboutAnchor(m, a, coords)
    ensures newCop == LegacyTransforms.AboutAnchor(m, a, cop)
  {
    var all := LegacyTransforms.MapAboutAnchor(m, a, coords + [cop]);
    assert all[..|all| - 1] == LegacyTransforms.AllAboutAnchor(m, a, coords);
    newCoords := all[..|all| - 1];
    newCop := all[|all| - 1];
  }

  class ViewportManager {
    const window: LegacyShapes.Window
    const padding: Vec3
    var clippingMethod: Clipping.LineClippingMethod

    /** The window spans [-500, 500]² with its cop at (0, 0, -500), and
        Liang–Barsky is selected. */
    constructor (padding: Vec3)
      ensures window.Valid() && fresh(window) && fresh(window.body) && fresh(window.body.transform)
      ensures window.body.coords
        == [Vec3(-500.0, -500.0, 0.0), Vec3(-500.0, 500.0, 0.0), Vec3(500.0, 500.0, 0.0), Vec3(500.0, -500.0, 0.0)]
      ensures window.cop == Vec3(0.0, 0.0, -500.0)
      ensures window.body.transform.position == Zero
      ensures this.padding == padding && clippingMethod == Clipping.LiangBarsky
    {
      SymmetricCentred(500.0, 500.0);
      var w := new LegacyShapes.Window(Vec3(-500.0, -500.0, 0.0), Vec3(500.0, 500.0, 0.0), Vec3(0.0, 0.0, -500.0));
      window := w;
      this.padding := padding;
      clippingMethod := Clipping.LiangBarsky;
    }

    /** The normalized bounds, widened by the padding. */
    function ScreenOrigin(): Vec3
      requires window.Valid()
      reads this, window, window.body
    {
      window.NormalizedOrigin().Sub(padding)
    }

    function ScreenExtension(): Vec3
      requires window.Valid()
      reads this, window, window.body
    {
      window.NormalizedExtension().Add(padding)
    }

    /** The world bounds, widened by the padding. */
    function WorldOrigin(): Vec3
      requires window.Valid()
      reads this, window, window.body
    {
      window.Origin().Sub(padding)
    }

    function WorldExtension(): Vec3
      requires window.Valid()
      reads this, window, window.body
    {
      window.Extension().Add(padding)
    }

    /** `world_to_screen`, from the normalized bounds. */
    function WorldToScreen(p: Vec3, width: real, height: real): Vec3
      requires window.Valid() && Spans(ScreenOrigin(), ScreenExtension())
      reads this, window, window.body
    {
      ToScreen(ScreenOrigin(), ScreenExtension(), p, width, height)
    }

    /** `world_line_to_screen`: both endpoints. */
    function WorldLineToScreen(l: Segment, width: real, height: real): (r: Segment)
      requires window.Valid() && Spans(ScreenOrigin(), ScreenExtension())
      reads this, window, window.body
    {
      Segment(WorldToScreen(l.start, width, height), WorldToScreen(l.end, width, height))
    }

    /** `screen_to_world`, from the world bounds. */
    function ScreenToWorld(q: Vec3, width: real, height: real): Vec3
      requires window.Valid() && width != 0.0 && height != 0.0
      reads this, window, window.body
    {
      ToWorld(WorldOrigin(), WorldExtension(), q, width, height)
    }

    /** The two directions read different bounds (normalized one way, world
        the other), so they are inverse exactly while the window's
        normalized corners 0 and 2 coincide with its world corners. */
    lemma ScreenWorldInverse(p: Vec3, q: Vec3, width: real, height: real)
      requires window.Valid() && Spans(ScreenOrigin(), ScreenExtension()) && width != 0.0 && height != 0.0
      requires window.NormalizedOrigin() == window.Origin() && window.NormalizedExtension() == window.Extension()
      ensures ScreenToWorld(WorldToScreen(p, width, height), width, height) == Vec3(p.x, p.y, 0.0)
      ensures WorldToScreen(ScreenToWorld(q, width, height), width, height) == Vec3(q.x, q.y, 0.0)
    {
      WorldRoundTrip(ScreenOrigin(), ScreenExtension(), p, width, height);
      ScreenRoundTrip(ScreenOrigin(), ScreenExtension(), q, width, height);
    }

    /** The window's bounds without padding, for clipping. */
    function ClipBounds(): Clipping.Bounds
      requires window.Valid()
      reads this, window, window.body
    {
      Clipping.Bounds(window.NormalizedOrigin(), window.NormalizedExtension())
    }

    /** `clip_to_lines`: the polygon clipper of `Clipping`, for every object
        whatever its fill, with the patch step only when filled. A kept
        point contributes its first line, which it must have. */
    method ClipToLines(obj: LegacyShapes.Object) returns (clipped: seq<Segment>)
      requires window.Valid()
      requires (Clipping.PointBranch(obj.kind, obj.normalizedCoords)
        && Clipping.InsideClosed(ClipBounds(), obj.normalizedCoords[0])) ==> |obj.lines| > 0
      ensures clipped == Clipping.ClipPolygonSpec(ClipBounds(), obj.kind, obj.normalizedCoords, obj.lines, obj.fill)
      ensures var b := ClipBounds();
        Clipping.WellFormed(b) && !Clipping.PointBranch(obj.kind, obj.normalizedCoords) ==>
        Clipping.AllEndpoints(clipped, v => Clipping.InsideClosed(b, v))
      ensures Clipping.PointBranch(obj.kind, obj.normalizedCoords) ==>
        (clipped != [] <==> Clipping.InsideClosed(ClipBounds(), obj.normalizedCoords[0]))
    {
      var b := ClipBounds();
      clipped := Clipping.ClipPolygon(b, obj.kind, obj.normalizedCoords, obj.lines, obj.fill);
      Clipping.ClipPolygonInside(b, obj.kind, obj.normalizedCoords, obj.lines, obj.fill);
    }

    /** `change_clipping_method`; `clip_to_lines` does not read it. */
    method ChangeClippingMethod()
      modifies this
      ensures clippingMethod == Clipping.Toggled(old(clippingMethod))
    {
      if clippingMethod == Clipping.CohenSutherland {
        clippingMethod := Clipping.LiangBarsky;
      } else {
        clippingMethod := Clipping.CohenSutherland;
      }
    }

    /** `move_window`: the window, its cop and its position move by
        `direction`. */
    method MoveWindow(direction: Vec3)
      requires window.Valid()
      modifies window, window.body, window.body.transform
      ensures window.Valid()
      ensures window.body.coords == Translated(old(window.body.coords), direction)
      ensures window.cop == old(window.cop).Add(direction)
      ensures window.body.transform.position == old(window.body.transform.position).Add(direction)
      ensures window.body.transform.rotation == old(window.body.transform.rotation)
      ensures window.body.transform.scale == old(window.body.transform.scale)
      ensures window.body.normalizedCoords == old(window.body.normalizedCoords)
        && window.body.projectedCoords == old(window.body.projectedCoords) && window.body.lines == old(window.body.lines)
      ensures window.projectedCop == old(window.projectedCop) && window.projectedPosition == old(window.projectedPosition)
    {
      window.Translate(direction, false, Angles(NoTurn, NoTurn, NoTurn));
    }

    /** `reset_window_position`: a move by minus the position, which brings
        the position to the origin. */
    method ResetWindowPosition()
      requires window.Valid()
      modifies window, window.body, window.body.transform
      ensures window.Valid()
      ensures var d := old(window.body.transform.position).Neg();
        window.body.coords == Translated(old(window.body.coords), d) && window.cop == old(window.cop).Add(d)
      ensures window.body.transform.position == Zero
      ensures window.body.transform.rotation == old(window.body.transform.rotation)
      ensures window.body.transform.scale == old(window.body.transform.scale)
      ensures window.body.normalizedCoords == old(window.body.normalizedCoords)
        && window.body.projectedCoords == old(window.body.projectedCoords) && window.body.lines == old(window.body.lines)
      ensures window.projectedCop == old(window.projectedCop) && window.projectedPosition == old(window.projectedPosition)
    {
      var p := window.body.transform.position;
      MoveWindow(p.Neg());
    }

    /** `rotate_window`, about the window's position; `turn` holds the
        (cos, sin) pairs of `r`. */
    method RotateWindow(r: Vec3, turn: Angles)
      requires window.Valid()
      modifies window, window.body, window.body.transform
      ensures window.Valid()
      ensures var a := old(window.body.transform.position);
        window.body.coords == LegacyTransforms.AllAboutAnchor(Rotation(turn, true), a, old(window.body.coords))
        && window.cop == LegacyTransforms.AboutAnchor(Rotation(turn, true), a, old(window.cop))
      ensures window.body.transform.rotation == LegacyTransforms.Accumulated(old(window.body.transform.rotation), r)
      ensures window.body.transform.position == old(window.body.transform.position)
      ensures window.body.transform.scale == old(window.body.transform.scale)
      ensures window.body.normalizedCoords == old(window.body.normalizedCoords)
        && window.body.projectedCoords == old(window.body.projectedCoords) && window.body.lines == old(window.body.lines)
      ensures window.projectedCop == old(window.projectedCop) && window.projectedPosition == old(window.projectedPosition)
    {
      window.Rotate(r, turn, None);
    }

    /** `reset_window_rotation`: a rotation by minus the accumulated
        rotation, which brings the recorded rotation back to zero; `turn`
        holds the (cos, sin) pairs of that negated rotation. */
    method ResetWindowRotation(turn: Angles)
      requires window.Valid()
      modifies window, window.body, window.body.transform
      ensures window.Valid()
      ensures var a := old(window.body.transform.position);
        window.body.coords == LegacyTransforms.AllAboutAnchor(Rotation(turn, true), a, old(window.body.coords))
        && window.cop == LegacyTransforms.AboutAnchor(Rotation(turn, true), a, old(window.cop))
      ensures window.body.transform.rotation == Zero
      ensures window.body.transform.position == old(window.body.transform.position)
      ensures window.body.transform.scale == old(window.body.transform.scale)
      ensures window.body.normalizedCoords == old(window.body.normalizedCoords)
        && window.body.projectedCoords == old(window.body.projectedCoords) && window.body.lines == old(window.body.lines)
      ensures window.projectedCop == old(window.projectedCop) && window.projectedPosition == old(window.projectedPosition)
    {
      var r := window.body.transform.rotation;
      LegacyTransforms.AccumulatedUndo(r);
      RotateWindow(r.Scale(-1.0), turn);
    }

    /** The reset as intended: the corners and the cop turned back by the
        negated angles in the reverse order (`turn` holds the (cos, sin)
        pairs of the recorded rotation), and the recorded rotation zeroed. */
    method UndoWindowRotation(turn: Angles)
      requires window.Valid()
      modifies window, window.body, window.body.transform
      ensures window.Valid()
      ensures var a := old(window.body.transform.position);
        window.body.coords == LegacyTransforms.AllAboutAnchor(Rotation(Negated(turn), false), a, old(window.body.coords))
        && window.cop == LegacyTransforms.AboutAnchor(Rotation(Negated(turn), false), a, old(window.cop))
      ensures window.body.transform.rotation == Zero
      ensures window.body.transform.position == old(window.body.transform.position)
      ensures window.body.transform.scale == old(window.body.transform.scale)
      ensures window.body.normalizedCoords == old(window.body.normalizedCoords)
        && window.body.projectedCoords == old(window.body.projectedCoords) && window.body.lines == old(window.body.lines)
      ensures window.projectedCop == old(window.projectedCop) && window.projectedPosition == old(window.projectedPosition)
    {
      var a := window.body.transform.position;
      var newCoords, newCop := TurnWindow(Rotation(Negated(turn), false), a, window.body.coords, window.cop);
      window.body.coords := newCoords;
      window.cop := newCop;
      window.body.transform.rotation := Zero;
    }

    /** `reescale_window`, about the window's position. */
    method RescaleWindow(s: Vec3)
      requires window.Valid()
      modifies window, window.body, window.body.transform
      ensures window.Valid()
      ensures var a := old(window.body.transform.position);
        window.body.coords == LegacyTransforms.AllAboutAnchor(Scaling(s), a, old(window.body.coords))
        && window.cop == LegacyTransforms.AboutAnchor(Scaling(s), a, old(window.cop))
      ensures var sc := old(window.body.transform.scale);
        window.body.transform.scale == Vec3(sc.x * s.x, sc.y * s.y, sc.z * s.z)
      ensures window.body.transform.position == old(window.body.transform.position)
      ensures window.body.transform.rotation == old(window.body.transform.rotation)
      ensures window.body.normalizedCoords == old(window.body.normalizedCoords)
        && window.body.projectedCoords == old(window.body.projectedCoords) && window.body.lines == old(window.body.lines)
      ensures window.projectedCop == old(window.projectedCop) && window.projectedPosition == old(window.projectedPosition)
    {
      window.Rescale(s);
    }

    /** `reset_window_scale`: a rescale by the reciprocals of the current
        scale, which brings the recorded scale back to one. */
    method ResetWindowScale()
      requires window.Valid()
      requires window.body.transform.scale.x != 0.0 && window.body.transform.scale.y != 0.0
        && window.body.transform.scale.z != 0.0
      modifies window, window.body, window.body.transform
      ensures window.Valid()
      ensures var m := Scaling(Reciprocal(old(window.body.transform.scale)));
        var a := old(window.body.transform.position);
        window.body.coords == LegacyTransforms.AllAboutAnchor(m, a, old(window.body.coords))
        && window.cop == LegacyTransforms.AboutAnchor(m, a, old(window.cop))
      ensures window.body.transform.scale == Vec3(1.0, 1.0, 1.0)
      ensures window.body.transform.position == old(window.body.transform.position)
      ensures window.body.transform.rotation == old(window.body.transform.rotation)
      ensures window.body.normalizedCoords == old(window.body.normalizedCoords)
        && window.body.projectedCoords == old(window.body.projectedCoords) && window.body.lines == old(window.body.lines)
      ensures window.projectedCop == old(window.projectedCop) && window.projectedPosition == old(window.projectedPosition)
    {
      var sc := window.body.transform.scale;
      RescaleWindow(Reciprocal(sc));
    }

    /** `resize_window`: a rescale by `extension` over the current scale,
        after which the recorded scale is `extension`. */
    method ResizeWindow(extension: Vec3)
      requires window.Valid()
      requires window.body.transform.scale.x != 0.0 && window.body.transform.scale.y != 0.0
        && window.body.transform.scale.z != 0.0
      modifies window, window.body, window.body.transform
      ensures window.Valid()
      ensures var sc := old(window.body.transform.scale);
        var m := Scaling(Vec3(extension.x / sc.x, extension.y / sc.y, extension.z / sc.z));
        var a := old(window.body.transform.position);
        window.body.coords == LegacyTransforms.AllAboutAnchor(m, a, old(window.body.coords))
        && window.cop == LegacyTransforms.AboutAnchor(m, a, old(window.cop))
      ensures window.body.transform.scale == extension
      ensures window.body.transform.position == old(window.body.transform.position)
      ensures window.body.transform.rotation == old(window.body.transform.rotation)
      ensures window.body.normalizedCoords == old(window.body.normalizedCoords)
        && window.body.projectedCoords == old(window.body.projectedCoords) && window.body.lines == old(window.body.lines)
      ensures window.projectedCop == old(window.projectedCop) && window.projectedPosition == old(window.projectedPosition)
    {
      var sc := window.body.transform.scale;
      RescaleWindow(Vec3(extension.x / sc.x, extension.y / sc.y, extension.z / sc.z));
    }
  }
}
