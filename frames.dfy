/** The frame generator of backend/rendering/frame_generator.py: one frame
    projects every object and then the window, normalizes the objects, and
    rebuilds the vector lines of every object and of the window. */
module Frames {
  import opened Vectors
  import opened Matrices
  import opened Objects
  import Transforms
  import Windows
  import Outcomes

  /** The roll of the window: the angle (in degrees) between its projected up
      vector and the y axis, reflected to 360 - angle when up points to the
      right. */
  function RollAngle(angle: real, up: Vec3): real
  {
    if up.x > 0.0 then 360.0 - angle else angle
  }

  /** An angle in [0, 180] becomes a roll in [0, 360]: in (180, 360] exactly
      when up points to the right (and the angle is not 0), in [0, 180] otherwise. */
  lemma RollAngleRange(angle: real, up: Vec3)
    requires 0.0 <= angle <= 180.0
    ensures 0.0 <= RollAngle(angle, up) <= 360.0
    ensures up.x > 0.0 ==> RollAngle(angle, up) >= 180.0
    ensures up.x <= 0.0 ==> RollAngle(angle, up) == angle
    ensures up.x > 0.0 && angle < 180.0 ==> RollAngle(angle, up) > 180.0
  {
  }

  /** The cop distance as the projection receives it: a number, or (as
      backend/objects/window.py:110 returns it) the bound method
      `magnitude` itself, never called. */
  datatype CopDistance = Distance(d: real) | BoundMagnitude

  datatype FrameError = TypeError

  /** `project` of backend/math/transform.py:175-200 with the cop distance
      as Python hands it over: no coordinates return at once; otherwise the
      perspective matrix computes 1.0 / cop_distance, which raises
      TypeError for a bound method. */
  function ProjectStep(cop: Vec3, xTurn: CosSin, yTurn: CosSin, dist: CopDistance, coords: seq<Vec3>,
                       isWindow: bool): (r: Outcomes.Result<seq<Vec3>, FrameError>)
    requires dist.Distance? ==> dist.d != 0.0
    ensures r.Failure? <==> coords != [] && dist.BoundMagnitude?
    ensures coords == [] ==> r == Outcomes.Success([])
    ensures dist.Distance? ==> r == Outcomes.Success(Transforms.Projected(cop, xTurn, yTurn, dist.d, coords, isWindow))
  {
    if |coords| == 0 then Outcomes.Success([])
    else if dist.BoundMagnitude? then Outcomes.Failure(TypeError)
    else Outcomes.Success(Transforms.Projected(cop, xTurn, yTurn, dist.d, coords, isWindow))
  }

  /** As written, every frame fails: `project` reaches the window, whose
      corners are never empty, with the bound method. */
  lemma FrameAsWrittenRaises(window: Windows.Window, xTurn: CosSin, yTurn: CosSin)
    requires window.Valid()
    ensures ProjectStep(window.cop, xTurn, yTurn, BoundMagnitude, window.body.coords, true) == Outcomes.Failure(TypeError)
  {
    assert |window.body.coords| > 0;
  }

  /** The called magnitude is positive whenever the projected position and
      cop differ. */
  lemma DistancePositive(m: real, projectedPosition: Vec3, projectedCop: Vec3)
    requires IsMagnitude(m, projectedPosition.Sub(projectedCop)) && projectedPosition != projectedCop
    ensures m > 0.0
  {
    var v := projectedPosition.Sub(projectedCop);
    assert v != Zero by {
      assert projectedPosition == projectedCop.Add(v);
    }
    MagnitudeZero(m, v);
  }

  /** With the magnitude called, the projection step succeeds and is the
      one `GenerateFrame` performs. */
  lemma CopDistanceCalled(m: real, projectedPosition: Vec3, projectedCop: Vec3,
                          cop: Vec3, xTurn: CosSin, yTurn: CosSin, coords: seq<Vec3>, isWindow: bool)
    requires IsMagnitude(m, projectedPosition.Sub(projectedCop)) && projectedPosition != projectedCop
    ensures m > 0.0
    ensures ProjectStep(cop, xTurn, yTurn, Distance(m), coords, isWindow)
         == Outcomes.Success(Transforms.Projected(cop, xTurn, yTurn, m, coords, isWindow))
  {
    DistancePositive(m, projectedPosition, projectedCop);
  }

  /** What one frame leaves in an object: the projection of its coordinates,
      their normalization about the window, and the segments of the result. */
  predicate Framed(o: Object, cop: Vec3, xTurn: CosSin, yTurn: CosSin, copDistance: real,
                   windowPosition: Vec3, windowScale: Vec3, zTurn: CosSin)
    reads o
    requires copDistance != 0.0
    requires windowScale.x != 0.0 && windowScale.y != 0.0 && windowScale.z != 0.0
  {
    o.projectedCoords == Transforms.Projected(cop, xTurn, yTurn, copDistance, o.coords, false)
    && o.normalizedCoords == Transforms.Normalize(windowPosition, zTurn, Reciprocal(windowScale), o.projectedCoords)
    && o.vectorLines == ResolveEdges(o.normalizedCoords, o.lines)
  }

  /** `generate_frame`: project (the objects, then the window, all with the
      window's cop), normalize (the objects only), then regenerate vector
      lines (the objects, then the window). The normal and the cop distance
      are fixed once before any projection: they enter as the (cos, sin)
      pairs the normal determines and as the distance itself; the roll angle
      enters as its (cos, sin) pair and the window scale as its readback.
      The distance is the magnitude from the projected cop to the projected
      position that the previous frame left, called as intended (see
      `ProjectStep` for the program as written). */
  method GenerateFrame(window: Windows.Window, objects: seq<Object>, xTurn: CosSin, yTurn: CosSin,
                       copDistance: real, zTurn: CosSin, windowScale: Vec3)
    requires window.Valid() && window.body !in objects
    requires IsMagnitude(copDistance, window.projectedPosition.Sub(window.projectedCop))
    requires window.projectedPosition != window.projectedCop
    requires windowScale.x != 0.0 && windowScale.y != 0.0 && windowScale.z != 0.0
    modifies objects, window, window.body
    ensures window.Valid() && copDistance > 0.0
    ensures forall o :: o in objects ==>
      Framed(o, old(window.cop), xTurn, yTurn, copDistance, old(window.body.transform.Position()), windowScale, zTurn)
    ensures forall o :: o in objects ==> o.coords == old(o.coords) && o.lines == old(o.lines)
    ensures window.body.projectedCoords == MultiplyVectors(Projection(old(window.cop), xTurn, yTurn), window.body.coords)
    ensures window.projectedPosition == Windows.Image(Projection(old(window.cop), xTurn, yTurn), window.body.transform.Position())
    ensures window.projectedCop == Zero
    ensures window.body.coords == old(window.body.coords) && window.body.normalizedCoords == old(window.body.normalizedCoords)
    ensures window.body.vectorLines == ResolveEdges(window.body.normalizedCoords, window.body.lines)
    ensures window.cop == old(window.cop) && window.body.lines == old(window.body.lines)
    ensures window.body.fill == old(window.body.fill) && window.body.closed == old(window.body.closed)
      && window.body.kind == old(window.body.kind)
  {
    DistancePositive(copDistance, window.projectedPosition, window.projectedCop);
    var cop := window.cop;
    var position := window.body.transform.Position();
    ProjectAll(objects, cop, xTurn, yTurn, copDistance);
    window.Project(cop, xTurn, yTurn, copDistance);
    NormalizeAll(objects, cop, xTurn, yTurn, copDistance, position, windowScale, zTurn);
    VectorLinesAll(objects, cop, xTurn, yTurn, copDistance, position, windowScale, zTurn);
    window.body.GenerateVectorLines();
  }

  /** The projection loop over the objects. */
  method ProjectAll(objects: seq<Object>, cop: Vec3, xTurn: CosSin, yTurn: CosSin, copDistance: real)
    requires copDistance != 0.0
    modifies objects
    ensures forall o :: o in objects ==>
      o.projectedCoords == Transforms.Projected(cop, xTurn, yTurn, copDistance, o.coords, false)
    ensures forall o :: o in objects ==>
      o.coords == old(o.coords) && o.lines == old(o.lines) && o.normalizedCoords == old(o.normalizedCoords)
  {
    for i := 0 to |objects|
      invariant forall j :: 0 <= j < i ==>
        objects[j].projectedCoords == Transforms.Projected(cop, xTurn, yTurn, copDistance, objects[j].coords, false)
      invariant forall o :: o in objects ==>
        o.coords == old(o.coords) && o.lines == old(o.lines) && o.normalizedCoords == old(o.normalizedCoords)
    {
      objects[i].Project(cop, xTurn, yTurn, copDistance);
    }
  }

  /** The normalization loop over the objects, after projection. */
  method NormalizeAll(objects: seq<Object>, cop: Vec3, xTurn: CosSin, yTurn: CosSin, copDistance: real,
                      windowPosition: Vec3, windowScale: Vec3, zTurn: CosSin)
    requires copDistance != 0.0
    requires windowScale.x != 0.0 && windowScale.y != 0.0 && windowScale.z != 0.0
    requires forall o :: o in objects ==>
      o.projectedCoords == Transforms.Projected(cop, xTurn, yTurn, copDistance, o.coords, false)
    modifies objects
    ensures forall o :: o in objects ==>
      o.projectedCoords == Transforms.Projected(cop, xTurn, yTurn, copDistance, o.coords, false)
      && o.normalizedCoords == Transforms.Normalize(windowPosition, zTurn, Reciprocal(windowScale), o.projectedCoords)
    ensures forall o :: o in objects ==> o.coords == old(o.coords) && o.lines == old(o.lines)
  {
    for i := 0 to |objects|
      invariant forall o :: o in objects ==>
        o.projectedCoords == Transforms.Projected(cop, xTurn, yTurn, copDistance, o.coords, false)
      invariant forall j :: 0 <= j < i ==>
        objects[j].normalizedCoords
          == Transforms.Normalize(windowPosition, zTurn, Reciprocal(windowScale), objects[j].projectedCoords)
      invariant forall o :: o in objects ==> o.coords == old(o.coords) && o.lines == old(o.lines)
    {
      objects[i].Normalize(windowPosition, windowScale, zTurn);
    }
  }

  /** The vector-line loop over the objects, after normalization. */
  method VectorLinesAll(objects: seq<Object>, cop: Vec3, xTurn: CosSin, yTurn: CosSin, copDistance: real,
                        windowPosition: Vec3, windowScale: Vec3, zTurn: CosSin)
    requires copDistance != 0.0
    requires windowScale.x != 0.0 && windowScale.y != 0.0 && windowScale.z != 0.0
    requires forall o :: o in objects ==>
      o.projectedCoords == Transforms.Projected(cop, xTurn, yTurn, copDistance, o.coords, false)
      && o.normalizedCoords == Transforms.Normalize(windowPosition, zTurn, Reciprocal(windowScale), o.projectedCoords)
    modifies objects
    ensures forall o :: o in objects ==> Framed(o, cop, xTurn, yTurn, copDistance, windowPosition, windowScale, zTurn)
    ensures forall o :: o in objects ==> o.coords == old(o.coords) && o.lines == old(o.lines)
  {
    for i := 0 to |objects|
      invariant forall o :: o in objects ==>
        o.projectedCoords == Transforms.Projected(cop, xTurn, yTurn, copDistance, o.coords, false)
        && o.normalizedCoords == Transforms.Normalize(windowPosition, zTurn, Reciprocal(windowScale), o.projectedCoords)
      invariant forall j :: 0 <= j < i ==>
        objects[j].vectorLines == ResolveEdges(objects[j].normalizedCoords, objects[j].lines)
      invariant forall o :: o in objects ==> o.coords == old(o.coords) && o.lines == old(o.lines)
    {
      objects[i].GenerateVectorLines();
    }
  }
}
