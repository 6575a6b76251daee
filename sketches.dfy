/** The oldest shapes of wireframe.py: an object holding a plain list of
    coordinates, whose polyline shapes hand out the segments between
    consecutive coordinates. */
module Sketches {
  import opened Vectors
  import opened Outcomes
  import opened Objects
  import LegacyShapes

  /** A colour as (red, green, blue). */
  datatype Colour = Colour(r: real, g: real, b: real)

  /** The default colour of every shape, white. */
  const White := Colour(1.0, 1.0, 1.0)

  datatype SketchKind = PointSketch | LineSketch | WireframeSketch | TriangleSketch | RectangleSketch

  /** Only the polyline shapes (`Wireframe` and its subclasses) have
      `get_lines`. */
  predicate HasLines(kind: SketchKind)
  {
    kind == WireframeSketch || kind == TriangleSketch || kind == RectangleSketch
  }

  /** The segments of `get_lines`, by definition: each coordinate joined to
      the next, with no closing segment. */
  function Consecutive(cs: seq<Vec3>): (r: seq<Segment>)
    ensures |r| == if cs == [] then 0 else |cs| - 1
  {
    var m := if cs == [] then 0 else |cs| - 1;
    seq(m, i requires 0 <= i < m => Segment(cs[i], cs[i + 1]))
  }

  /** The oldest segments are the open chain of the later generations. */
  lemma ConsecutiveIsChain(cs: seq<Vec3>)
    ensures Consecutive(cs) == LegacyShapes.ChainSegments(cs)
    ensures Consecutive(cs) == ResolveEdges(cs, LegacyShapes.Wireframes2D.Chain(|cs|))
  {
    LegacyShapes.ChainAgrees(cs);
  }

  /** The chain is joined end to start: each segment starts where the
      previous one ends. */
  lemma {:induction false} ConsecutiveJoined(cs: seq<Vec3>)
    ensures forall i :: 0 < i < |Consecutive(cs)| ==> Consecutive(cs)[i].start == Consecutive(cs)[i - 1].end
  {
  }

  /** The object of wireframe.py. The `Transform2D` it builds is left out:
      that class has no `translate`, so `translate` always fails. The name,
      colour and line width never change. */
  class Sketch {
    var coordList: seq<Vec3>
    const kind: SketchKind
    const name: string
    const colour: Option<Colour>
    const lineWidth: real

    /** `Point` (wireframe.py:68-70): one coordinate. */
    constructor Point(position: Vec3, name: string, colour: Option<Colour>, lineWidth: real)
      ensures coordList == [position] && kind == PointSketch
      ensures this.name == name && this.colour == colour && this.lineWidth == lineWidth
    {
      coordList := [position];
      kind := PointSketch;
      this.name := name;
      this.colour := colour;
      this.lineWidth := lineWidth;
    }

    /** `Line` (wireframe.py:86-93): its two end points in order. */
    constructor Line(a: Vec3, b: Vec3, name: string, colour: Option<Colour>, lineWidth: real)
      ensures coordList == [a, b] && kind == LineSketch
      ensures this.name == name && this.colour == colour && this.lineWidth == lineWidth
    {
      coordList := [a, b];
      kind := LineSketch;
      this.name := name;
      this.colour := colour;
      this.lineWidth := lineWidth;
    }

    /** `Wireframe` (wireframe.py:116-122): the points in order. */
    constructor Wireframe(points: seq<Vec3>, name: string, colour: Option<Colour>, lineWidth: real)
      ensures coordList == points && kind == WireframeSketch
      ensures this.name == name && this.colour == colour && this.lineWidth == lineWidth
    {
      coordList := points;
      kind := WireframeSketch;
      this.name := name;
      this.colour := colour;
      this.lineWidth := lineWidth;
    }

    /** `Triangle` (wireframe.py:145-153): its three corners in order. */
    constructor Triangle(a: Vec3, b: Vec3, c: Vec3, name: string, colour: Option<Colour>, lineWidth: real)
      ensures coordList == [a, b, c] && kind == TriangleSketch
      ensures this.name == name && this.colour == colour && this.lineWidth == lineWidth
    {
      coordList := [a, b, c];
      kind := TriangleSketch;
      this.name := name;
      this.colour := colour;
      this.lineWidth := lineWidth;
    }

    /** `Rectangle` (wireframe.py:162-171): its four corners in the order
        bottom left, bottom right, top left, top right. */
    constructor Rectangle(bottomLeft: Vec3, bottomRight: Vec3, topLeft: Vec3, topRight: Vec3, name: string,
                          colour: Option<Colour>, lineWidth: real)
      ensures coordList == [bottomLeft, bottomRight, topLeft, topRight] && kind == RectangleSketch
      ensures this.name == name && this.colour == colour && this.lineWidth == lineWidth
    {
      coordList := [bottomLeft, bottomRight, topLeft, topRight];
      kind := RectangleSketch;
      this.name := name;
      this.colour := colour;
      this.lineWidth := lineWidth;
    }

    /** The `coord_list` setter (wireframe.py:46-52) replaces the list
        wholesale. */
    method SetCoordList(cs: seq<Vec3>)
      modifies this
      ensures coordList == cs
    {
      coordList := cs;
    }

    /** `get_lines` (wireframe.py:124-136): a pass over every index that
        appends the pair (i, i + 1) while i is not the last index. */
    method GetLines() returns (lines: seq<Segment>)
      requires HasLines(kind)
      ensures lines == Consecutive(coordList)
    {
      lines := [];
      var i := 0;
      while i < |coordList|
        invariant 0 <= i <= |coordList|
        invariant |lines| == if i < |coordList| || coordList == [] then i else |coordList| - 1
        invariant forall j :: 0 <= j < |lines| ==> lines[j] == Segment(coordList[j], coordList[j + 1])
      {
        if i < |coordList| - 1 {
          lines := lines + [Segment(coordList[i], coordList[i + 1])];
        }
        i := i + 1;
      }
    }
  }

  /** A triangle's lines are its two sides from the first corner on, a
      rectangle's its three; neither closes. */
  lemma ShapeLineCounts(a: Vec3, b: Vec3, c: Vec3, d: Vec3)
    ensures Consecutive([a, b, c]) == [Segment(a, b), Segment(b, c)]
    ensures Consecutive([a, b, c, d]) == [Segment(a, b), Segment(b, c), Segment(c, d)]
  {
  }
}
