/** The 3D shapes of the current generation (backend/objects/wireframes_3d.py):
    the box with its twelve edges and the bicubic B-spline surface patch with
    its grid of sample points and grid edges. */
module Wireframes3D {
  import opened Vectors
  import opened Objects
  import opened Matrices
  import opened Wireframes2D

  /** `Wireframe3D.__init__`: every 3D shape is drawn open and closed. */
  function Wireframe3D(coords: seq<Vec3>, lines: seq<Edge>, kind: ObjectKind): Shape
  {
    Shape(coords, lines, kind, false, true)
  }

  // ------------------------------------------------------------ parallelepiped

  /** The depth of the box: its extent along x. */
  function Depth(o: Vec3, e: Vec3): real { e.x - o.x }

  /** The front face in the order origin, (o.x, e.y), extension, (e.x, o.y),
      then the same four moved back by the depth; the two corners built from
      two coordinates sit at z = 0. */
  function Parallelepiped(o: Vec3, e: Vec3): Shape
  {
    var d := Depth(o, e);
    Wireframe3D(
      [o, Vec3(o.x, e.y, 0.0), e, Vec3(e.x, o.y, 0.0),
       o.Add(Vec3(0.0, 0.0, d)), Vec3(o.x, e.y, d), e.Add(Vec3(0.0, 0.0, d)), Vec3(e.x, o.y, d)],
      [Edge(0, 1), Edge(1, 2), Edge(2, 3), Edge(3, 0),
       Edge(0, 4), Edge(1, 5), Edge(2, 6), Edge(3, 7),
       Edge(4, 5), Edge(5, 6), Edge(6, 7), Edge(7, 4)],
      ParallelepipedKind)
  }

  /** 1 when edge e touches vertex v. */
  function Touches(e: Edge, v: nat): nat { if e.a == v || e.b == v then 1 else 0 }

  /** The number of edges that touch vertex v. */
  function Degree(es: seq<Edge>, v: nat): (d: nat)
    ensures d <= |es|
  {
    if es == [] then 0 else Degree(es[..|es| - 1], v) + Touches(es[|es| - 1], v)
  }

  /** Degree counted one more edge along. */
  lemma DegreeStep(es: seq<Edge>, k: nat, v: nat)
    requires k < |es|
    ensures Degree(es[..k + 1], v) == Degree(es[..k], v) + Touches(es[k], v)
  {
    assert es[..k + 1][..k] == es[..k];
  }

  /** Every index of an edge list moved up by k. */
  function Shifted(es: seq<Edge>, k: nat): (r: seq<Edge>)
    ensures |r| == |es|
  {
    seq(|es|, i requires 0 <= i < |es| => Edge(es[i].a + k, es[i].b + k))
  }

  /** The edges (i, i + k) for i < n. */
  function Rungs(n: nat, k: nat): (r: seq<Edge>)
    ensures |r| == n
  {
    seq(n, i requires 0 <= i < n => Edge(i, i + k))
  }

  /** The box has eight corners and twelve edges, all in range and none a
      loop: the front cycle 0-1-2-3, the edges joining corner i to i + 4,
      and the back cycle 4-5-6-7. */
  lemma ParallelepipedTopology(o: Vec3, e: Vec3)
    ensures var s := Parallelepiped(o, e);
      |s.coords| == 8
      && s.lines == Cycle(4) + Rungs(4, 4) + Shifted(Cycle(4), 4)
      && (forall i :: 0 <= i < |s.lines| ==> s.lines[i].a < 8 && s.lines[i].b < 8 && s.lines[i].a != s.lines[i].b)
  {
    var c := Cycle(4);
    assert c == [Edge(0, 1), Edge(1, 2), Edge(2, 3), Edge(3, 0)] by {
      assert c[0] == Edge(0, 1) && c[1] == Edge(1, 2) && c[2] == Edge(2, 3) && c[3] == Edge(3, 0);
    }
    var r := Rungs(4, 4);
    assert r == [Edge(0, 4), Edge(1, 5), Edge(2, 6), Edge(3, 7)] by {
      assert r[0] == Edge(0, 4) && r[1] == Edge(1, 5) && r[2] == Edge(2, 6) && r[3] == Edge(3, 7);
    }
    var b := Shifted(c, 4);
    assert b == [Edge(4, 5), Edge(5, 6), Edge(6, 7), Edge(7, 4)] by {
      assert b[0] == Edge(4, 5) && b[1] == Edge(5, 6) && b[2] == Edge(6, 7) && b[3] == Edge(7, 4);
    }
  }

  /** The twelve edges of the box, as listed by `Parallelepiped`. */
  const BoxEdges := [Edge(0, 1), Edge(1, 2), Edge(2, 3), Edge(3, 0),
                     Edge(0, 4), Edge(1, 5), Edge(2, 6), Edge(3, 7),
                     Edge(4, 5), Edge(5, 6), Edge(6, 7), Edge(7, 4)]

  /** One corner's degree, counted edge by edge. */
  lemma CornerDegree(v: nat)
    requires v < 8
    ensures Degree(BoxEdges, v) == 3
  {
    var ls := BoxEdges;
    assert ls[..0] == [];
    DegreeStep(ls, 0, v); DegreeStep(ls, 1, v); DegreeStep(ls, 2, v); DegreeStep(ls, 3, v);
    DegreeStep(ls, 4, v); DegreeStep(ls, 5, v); DegreeStep(ls, 6, v); DegreeStep(ls, 7, v);
    DegreeStep(ls, 8, v); DegreeStep(ls, 9, v); DegreeStep(ls, 10, v); DegreeStep(ls, 11, v);
    assert ls[..12] == ls;
  }

  /** Each corner of the box meets exactly three edges. */
  lemma ParallelepipedDegrees(o: Vec3, e: Vec3)
    ensures forall v :: 0 <= v < 8 ==> Degree(Parallelepiped(o, e).lines, v) == 3
  {
    assert Parallelepiped(o, e).lines == BoxEdges;
    forall v | 0 <= v < 8
      ensures Degree(Parallelepiped(o, e).lines, v) == 3
    {
      CornerDegree(v);
    }
  }

  /** The back face lies one depth behind the front face; the corners built
      from two coordinates sit at z = 0, the origin and extension keep their
      own depth. */
  lemma ParallelepipedGeometry(o: Vec3, e: Vec3)
    ensures var c := Parallelepiped(o, e).coords;
      c[0] == o && c[2] == e && c[1].z == 0.0 && c[3].z == 0.0
      && c[4].z - c[0].z == Depth(o, e) && c[6].z - c[2].z == Depth(o, e)
      && c[5].z == Depth(o, e) && c[7].z == Depth(o, e)
      && (forall i :: 0 <= i < 4 ==> c[i + 4].x == c[i].x && c[i + 4].y == c[i].y)
  {
    var c := Parallelepiped(o, e).coords;
    forall i | 0 <= i < 4
      ensures c[i + 4].x == c[i].x && c[i + 4].y == c[i].y
    {
      if i == 0 {} else if i == 1 {} else if i == 2 {} else {}
    }
  }

  /** The box is drawn with all twelve edges, open and closed. */
  lemma ParallelepipedOutline(o: Vec3, e: Vec3)
    ensures var s := Parallelepiped(o, e);
      |Outline(s)| == 12 && !s.fill && s.closed && s.kind == ParallelepipedKind
  {
    var s := Parallelepiped(o, e);
    ParallelepipedTopology(o, e);
    assert |s.lines| == 12;
    ResolveAllInRange(s.coords, s.lines);
  }

  // ------------------------------------------------------------------- surface

  /** One coordinate of the sixteen control points as the geometry matrix:
      row r holds points 4r to 4r + 3. */
  function Grid(vs: seq<real>): Mat4
    requires |vs| == 16
  {
    Mat4(Vec4(vs[0], vs[1], vs[2], vs[3]), Vec4(vs[4], vs[5], vs[6], vs[7]),
         Vec4(vs[8], vs[9], vs[10], vs[11]), Vec4(vs[12], vs[13], vs[14], vs[15]))
  }

  function XsOf(ps: seq<Vec3>): (r: seq<real>)
    ensures |r| == |ps|
  {
    seq(|ps|, i requires 0 <= i < |ps| => ps[i].x)
  }

  function YsOf(ps: seq<Vec3>): (r: seq<real>)
    ensures |r| == |ps|
  {
    seq(|ps|, i requires 0 <= i < |ps| => ps[i].y)
  }

  function ZsOf(ps: seq<Vec3>): (r: seq<real>)
    ensures |r| == |ps|
  {
    seq(|ps|, i requires 0 <= i < |ps| => ps[i].z)
  }

  /** `S(s) * M * G * M^T * T(t)`: the B-spline weights of s applied to the
      rows of G, each row blended with the weights of t. */
  function Bicubic(g: Mat4, s: real, t: real): real
  {
    Dot4(RowMul(PowerRow(s), BSplineBasis), Apply(g, RowMul(PowerRow(t), BSplineBasis)))
  }

  /** The patch point at parameters (s, t), one coordinate at a time. */
  function SurfacePoint(ps: seq<Vec3>, s: real, t: real): Vec3
    requires |ps| == 16
  {
    Vec3(Bicubic(Grid(XsOf(ps)), s, t), Bicubic(Grid(YsOf(ps)), s, t), Bicubic(Grid(ZsOf(ps)), s, t))
  }

  /** The B-spline weights at any t sum to one. */
  lemma BSplineWeightsSum(t: real)
    ensures var w := RowMul(PowerRow(t), BSplineBasis);
      w.x + w.y + w.z + w.w == 1.0
  {
  }

  /** Weights summing to one leave a constant unchanged. */
  lemma WeightedConstant(w: Vec4, a: real)
    requires w.x + w.y + w.z + w.w == 1.0
    ensures Dot4(w, Vec4(a, a, a, a)) == a && Dot4(Vec4(a, a, a, a), w) == a
  {
    assert Dot4(w, Vec4(a, a, a, a)) == (w.x + w.y + w.z + w.w) * a;
    assert Dot4(Vec4(a, a, a, a), w) == (w.x + w.y + w.z + w.w) * a;
  }

  /** A coordinate that all sixteen control points share is kept at every
      parameter pair. */
  lemma ConstantBicubic(vs: seq<real>, a: real, s: real, t: real)
    requires |vs| == 16 && forall i :: 0 <= i < 16 ==> vs[i] == a
    ensures Bicubic(Grid(vs), s, t) == a
  {
    var ws := RowMul(PowerRow(s), BSplineBasis);
    var wt := RowMul(PowerRow(t), BSplineBasis);
    BSplineWeightsSum(s);
    BSplineWeightsSum(t);
    var row := Vec4(a, a, a, a);
    assert Grid(vs) == Mat4(row, row, row, row);
    WeightedConstant(wt, a);
    assert Apply(Grid(vs), wt) == row;
    WeightedConstant(ws, a);
  }

  /** Sixteen copies of one point give that point everywhere. */
  lemma RepeatedSurfacePoint(p: Vec3, s: real, t: real)
    ensures SurfacePoint(seq(16, _ => p), s, t) == p
  {
    var ps := seq(16, _ => p);
    ConstantBicubic(XsOf(ps), p.x, s, t);
    ConstantBicubic(YsOf(ps), p.y, s, t);
    ConstantBicubic(ZsOf(ps), p.z, s, t);
  }

  /** Control points in one plane z = c give a patch in that plane. */
  lemma PlanarSurface(ps: seq<Vec3>, c: real, s: real, t: real)
    requires |ps| == 16 && forall i :: 0 <= i < 16 ==> ps[i].z == c
    ensures SurfacePoint(ps, s, t).z == c
  {
    ConstantBicubic(ZsOf(ps), c, s, t);
  }

  /** The index of grid cell (r, c) in row-major order. */
  function Cell(n: nat, r: nat, c: nat): nat { r * n + c }

  /** Row r of the samples: s = r / n, t = c / n for c < n. */
  function RowSamples(ps: seq<Vec3>, n: nat, r: nat): (row: seq<Vec3>)
    requires |ps| == 16
    ensures |row| == n
  {
    seq(n, c requires 0 <= c < n => SurfacePoint(ps, r as real / n as real, c as real / n as real))
  }

  /** The first k rows of samples, in row-major order. */
  function Rows(ps: seq<Vec3>, n: nat, k: nat): seq<Vec3>
    requires |ps| == 16
  {
    if k == 0 then [] else Rows(ps, n, k - 1) + RowSamples(ps, n, k - 1)
  }

  lemma {:induction false} RowsLength(ps: seq<Vec3>, n: nat, k: nat)
    requires |ps| == 16
    ensures |Rows(ps, n, k)| == k * n
  {
    if k > 0 {
      RowsLength(ps, n, k - 1);
      assert (k - 1) * n + n == k * n;
    }
  }

  /** The cells of row r. */
  function RowCells(n: nat, r: nat): (cs: seq<nat>)
    ensures |cs| == n
  {
    seq(n, c requires 0 <= c < n => Cell(n, r, c))
  }

  /** n - 1, or 0 when n is 0. */
  function Pred(n: nat): nat { if n == 0 then 0 else n - 1 }

  /** The edges along row r: each cell to the next one in the row. */
  function RowEdges(n: nat, r: nat): (es: seq<Edge>)
    ensures |es| == Pred(n)
  {
    seq(Pred(n), c requires 0 <= c < Pred(n) => Edge(Cell(n, r, c), Cell(n, r, c) + 1))
  }

  /** The edges from row r - 1 to row r, cell by cell. */
  function CrossEdges(n: nat, r: nat): (es: seq<Edge>)
    requires r > 0
    ensures |es| == n
  {
    seq(n, c requires 0 <= c < n => Edge(Cell(n, r - 1, c), Cell(n, r, c)))
  }

  /** The edges of the first k rows: each row's own edges, then the edges
      joining it to the row before. */
  function GridEdges(n: nat, k: nat): seq<Edge>
  {
    if k == 0 then []
    else GridEdges(n, k - 1) + RowEdges(n, k - 1) + (if k > 1 then CrossEdges(n, k - 1) else [])
  }

  // ---------------------------------------------------------- grid properties

  lemma MulMonotone(a: nat, b: nat, n: nat)
    requires a <= b
    ensures a * n <= b * n
  {
    assert b * n - a * n == (b - a) * n;
  }

  /** A cell of the first k rows has an index below k * n. */
  lemma CellBelow(n: nat, r: nat, c: nat, k: nat)
    requires r < k && c < n
    ensures Cell(n, r, c) < k * n
  {
    MulMonotone(r + 1, k, n);
  }

  /** Row-major indices name cells uniquely. */
  lemma CellInjective(n: nat, r: nat, c: nat, r2: nat, c2: nat)
    requires c < n && c2 < n && Cell(n, r, c) == Cell(n, r2, c2)
    ensures r == r2 && c == c2
  {
    if r < r2 {
      CellBelow(n, r, c, r2);
    } else if r2 < r {
      CellBelow(n, r2, c2, r);
    }
  }

  /** The samples are in row-major order: sample (r, c) of the first k rows
      is the patch point at s = r / n, t = c / n, stored at index r * n + c. */
  lemma {:induction false} RowsCell(ps: seq<Vec3>, n: nat, k: nat, r: nat, c: nat)
    requires |ps| == 16 && r < k && c < n
    ensures Cell(n, r, c) < |Rows(ps, n, k)|
    ensures Rows(ps, n, k)[Cell(n, r, c)] == SurfacePoint(ps, r as real / n as real, c as real / n as real)
  {
    RowsLength(ps, n, k);
    RowsLength(ps, n, k - 1);
    CellBelow(n, r, c, k);
    var front := Rows(ps, n, k - 1);
    var row := RowSamples(ps, n, k - 1);
    assert Rows(ps, n, k) == front + row;
    if r < k - 1 {
      RowsCell(ps, n, k - 1, r, c);
      assert (front + row)[Cell(n, r, c)] == front[Cell(n, r, c)];
    } else {
      assert Cell(n, r, c) == |front| + c;
      assert (front + row)[|front| + c] == row[c];
    }
  }

  lemma {:induction false} GridEdgesCount(n: nat, k: nat)
    ensures |GridEdges(n, k)| == k * Pred(n) + Pred(k) * n
  {
    if k > 0 {
      GridEdgesCount(n, k - 1);
      assert (k - 1) * Pred(n) + Pred(n) == k * Pred(n);
      if k > 1 {
        assert Pred(k - 1) * n + n == Pred(k) * n;
      }
    }
  }

  /** A patch sampled `steps` times each way has 2 * steps * (steps - 1) edges. */
  lemma SurfaceEdgeCount(n: nat)
    ensures |GridEdges(n, n)| == 2 * n * Pred(n)
  {
    GridEdgesCount(n, n);
  }

  /** Every edge joins a cell to its right-hand neighbour in the same row, or
      to the cell below it in the next row; so no edge runs from the end of
      one row to the start of the next, and every index is below k * n. */
  lemma {:induction false} GridEdgeShape(n: nat, k: nat, i: nat) returns (r: nat, c: nat)
    requires i < |GridEdges(n, k)|
    ensures var e := GridEdges(n, k)[i];
      (r < k && c + 1 < n && e == Edge(Cell(n, r, c), Cell(n, r, c + 1)))
      || (r + 1 < k && c < n && e == Edge(Cell(n, r, c), Cell(n, r + 1, c)))
    ensures GridEdges(n, k)[i].a < k * n && GridEdges(n, k)[i].b < k * n
  {
    var front := GridEdges(n, k - 1);
    var es := GridEdges(n, k);
    assert es == front + RowEdges(n, k - 1) + (if k > 1 then CrossEdges(n, k - 1) else []);
    if i < |front| {
      r, c := GridEdgeShape(n, k - 1, i);
      MulMonotone(k - 1, k, n);
    } else if i < |front| + Pred(n) {
      r, c := k - 1, i - |front|;
      CellBelow(n, r, c + 1, k);
    } else {
      r, c := k - 2, i - |front| - Pred(n);
      CellBelow(n, r + 1, c, k);
    }
  }

  /** Every pair of neighbouring cells is joined: along each row, and
      between each row and the next. */
  lemma {:induction false} GridEdgesCover(n: nat, k: nat, r: nat, c: nat)
    ensures r < k && c + 1 < n ==> Edge(Cell(n, r, c), Cell(n, r, c + 1)) in GridEdges(n, k)
    ensures r + 1 < k && c < n ==> Edge(Cell(n, r, c), Cell(n, r + 1, c)) in GridEdges(n, k)
  {
    if k > 0 {
      GridEdgesCover(n, k - 1, r, c);
      var es := GridEdges(n, k);
      assert es == GridEdges(n, k - 1) + RowEdges(n, k - 1) + (if k > 1 then CrossEdges(n, k - 1) else []);
      if r == k - 1 && c + 1 < n {
        assert RowEdges(n, k - 1)[c] == Edge(Cell(n, r, c), Cell(n, r, c + 1));
      }
      if r + 1 == k - 1 && c < n {
        assert CrossEdges(n, k - 1)[c] == Edge(Cell(n, r, c), Cell(n, r + 1, c));
      }
    }
  }

  /** The last cell of a row is not joined to the first cell of the next. */
  lemma NoRowWrap(n: nat, k: nat, r: nat)
    requires n >= 2
    ensures Edge(Cell(n, r, n - 1), Cell(n, r + 1, 0)) !in GridEdges(n, k)
  {
    var es := GridEdges(n, k);
    forall i | 0 <= i < |es|
      ensures es[i] != Edge(Cell(n, r, n - 1), Cell(n, r + 1, 0))
    {
      var r2, c2 := GridEdgeShape(n, k, i);
      if es[i].a == Cell(n, r, n - 1) {
        CellInjective(n, r, n - 1, r2, c2);
      }
    }
  }

  /** `generate_surface_coords`. The sampling loop runs for the first index
      only when sixteen points follow it, and breaks at once otherwise;
      more than sixteen points make the geometry matrices misshapen, so they
      are excluded. `lineIndex` runs one behind the number of points of the
      current row; the indices of the row before and of the current row are
      kept in `curveA` and `curveB`, and zipped into cross edges once the
      current row is complete. */
  method SurfaceCoords(points: seq<Vec3>, steps: nat) returns (coords: seq<Vec3>, lines: seq<Edge>)
    requires |points| <= 16
    ensures |points| < 16 ==> coords == [] && lines == []
    ensures |points| == 16 ==> coords == Rows(points, steps, steps) && lines == GridEdges(steps, steps)
  {
    coords := [];
    lines := [];
    if 15 < |points| {
      var n := steps;
      var lineIndex: nat := 0;
      var fillCurveA := true;
      var curveA: seq<nat> := [];
      var curveB: seq<nat> := [];
      var stepS := 0;
      while stepS < n
        invariant stepS <= n
        invariant coords == Rows(points, n, stepS)
        invariant lines == GridEdges(n, stepS)
        invariant lineIndex == stepS * n
        invariant fillCurveA == (stepS == 0)
        invariant curveA == (if stepS == 0 then [] else RowCells(n, stepS - 1))
        invariant curveB == []
      {
        RowsLength(points, n, stepS);
        ghost var before := lines;
        // the list being filled, curveA on the first row and curveB after it, is empty here
        var curve: seq<nat>;
        coords, lines, lineIndex, curve := SurfaceRow(points, n, stepS, coords, lines, lineIndex, []);
        RowEnd(n, stepS);
        lines, curveA, curveB := JoinRows(n, stepS, lineIndex, curve, fillCurveA, curveA, lines);
        assert lines == GridEdges(n, stepS + 1) by {
          assert GridEdges(n, stepS + 1)
              == before + RowEdges(n, stepS) + (if stepS > 0 then CrossEdges(n, stepS) else []);
        }
        lineIndex := lineIndex + 1;
        fillCurveA := false;
        stepS := stepS + 1;
      }
    }
  }

  /** Row r ends at cell r * n + n - 1, and the next row starts at (r + 1) * n. */
  lemma RowEnd(n: nat, r: nat)
    requires n > 0
    ensures r * n + n - 1 == Cell(n, r, n - 1) && r * n + n == (r + 1) * n
  {
  }

  /** The end of one pass of the row loop: the last index closes the row's
      index list, which fills `curveA` on the first row and `curveB` after
      it; once both are full they are zipped into cross edges and `curveB`
      moves into `curveA`. */
  method JoinRows(n: nat, r: nat, lineIndex: nat, curve0: seq<nat>, fillCurveA: bool, curveA0: seq<nat>,
                  lines0: seq<Edge>)
    returns (lines: seq<Edge>, curveA: seq<nat>, curveB: seq<nat>)
    requires n > 0 && lineIndex == Cell(n, r, n - 1) && curve0 == RowCells(n, r)[..n - 1]
    requires fillCurveA == (r == 0) && curveA0 == (if r == 0 then [] else RowCells(n, r - 1))
    ensures lines == lines0 + (if r > 0 then CrossEdges(n, r) else [])
    ensures curveA == RowCells(n, r) && curveB == []
  {
    var curve := curve0 + [lineIndex];
    assert curve == RowCells(n, r);
    lines := lines0;
    curveA, curveB := curveA0, [];
    if fillCurveA {
      curveA := curve;
    } else {
      curveB := curve;
    }
    if |curveA| > 0 && |curveB| > 0 {
      var cross := Zip(curveA, curveB);
      CrossAsZip(n, r);
      lines := lines + cross;
      curveA := curveB;
      curveB := [];
    }
  }

  /** The inner loop of `generate_surface_coords` for row r: n samples at
      s = r / n, an edge from each new point but the first to the point
      before it, and the index of each such edge's start recorded in
      `curve`. */
  method SurfaceRow(points: seq<Vec3>, n: nat, r: nat, coords0: seq<Vec3>, lines0: seq<Edge>,
                    lineIndex0: nat, curve0: seq<nat>)
    returns (coords: seq<Vec3>, lines: seq<Edge>, lineIndex: nat, curve: seq<nat>)
    requires |points| == 16 && n > 0
    requires lineIndex0 == r * n && |coords0| == lineIndex0 && curve0 == []
    ensures coords == coords0 + RowSamples(points, n, r)
    ensures lines == lines0 + RowEdges(n, r)
    ensures lineIndex == r * n + n - 1
    ensures curve == RowCells(n, r)[..n - 1]
  {
    coords, lines, lineIndex, curve := coords0, lines0, lineIndex0, curve0;
    ghost var row := RowSamples(points, n, r);
    ghost var edges := RowEdges(n, r);
    ghost var cells := RowCells(n, r);
    var s := r as real / n as real;
    var stepT := 0;
    while stepT < n
      invariant stepT <= n
      invariant coords == coords0 + row[..stepT]
      invariant |coords| == lineIndex0 + stepT
      invariant lineIndex == lineIndex0 + Pred(stepT)
      invariant lines == lines0 + edges[..Pred(stepT)]
      invariant curve == cells[..Pred(stepT)]
    {
      var t := stepT as real / n as real;
      var p := SurfacePoint(points, s, t);
      assert row[..stepT + 1] == row[..stepT] + [p];
      coords := coords + [p];
      if lineIndex + 1 < |coords| {
        assert edges[stepT - 1] == Edge(lineIndex, lineIndex + 1);
        assert edges[..stepT] == edges[..stepT - 1] + [Edge(lineIndex, lineIndex + 1)];
        lines := lines + [Edge(lineIndex, lineIndex + 1)];
        assert cells[..stepT] == cells[..stepT - 1] + [lineIndex];
        curve := curve + [lineIndex];
        lineIndex := lineIndex + 1;
      }
      stepT := stepT + 1;
    }
    assert row[..n] == row;
    assert edges[..Pred(n)] == edges;
  }

  /** Python's `zip` of two index lists into edges. */
  function Zip(xs: seq<nat>, ys: seq<nat>): (es: seq<Edge>)
    ensures |es| == if |xs| < |ys| then |xs| else |ys|
    ensures forall k :: 0 <= k < |es| ==> es[k] == Edge(xs[k], ys[k])
  {
    if xs == [] || ys == [] then [] else [Edge(xs[0], ys[0])] + Zip(xs[1..], ys[1..])
  }

  /** Zipping the cells of row r - 1 with those of row r gives the cross edges. */
  lemma CrossAsZip(n: nat, r: nat)
    requires r > 0
    ensures Zip(RowCells(n, r - 1), RowCells(n, r)) == CrossEdges(n, r)
  {
  }

  /** `Surface.__init__`: the sampled patch as a 3D shape. */
  method Surface(points: seq<Vec3>, steps: nat) returns (shape: Shape)
    requires |points| <= 16
    ensures shape.kind == SurfaceKind && !shape.fill && shape.closed
    ensures |points| < 16 ==> shape.coords == [] && shape.lines == []
    ensures |points| == 16 ==> shape.coords == Rows(points, steps, steps) && shape.lines == GridEdges(steps, steps)
  {
    var coords, lines := SurfaceCoords(points, steps);
    shape := Wireframe3D(coords, lines, SurfaceKind);
  }

  /** Every grid edge resolves: the patch is drawn with all
      2 * steps * (steps - 1) of its edges. */
  lemma SurfaceOutline(ps: seq<Vec3>, n: nat)
    requires |ps| == 16
    ensures |Outline(Wireframe3D(Rows(ps, n, n), GridEdges(n, n), SurfaceKind))| == 2 * n * Pred(n)
  {
    var cs := Rows(ps, n, n);
    var es := GridEdges(n, n);
    RowsLength(ps, n, n);
    forall i | 0 <= i < |es|
      ensures es[i].a < |cs| && es[i].b < |cs|
    {
      var r, c := GridEdgeShape(n, n, i);
    }
    ResolveAllInRange(cs, es);
    SurfaceEdgeCount(n);
  }
}
