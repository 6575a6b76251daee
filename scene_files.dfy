/** The scene loader of file_system.py: a line format close to Wavefront
    OBJ. Each line is split into tokens. `v` adds a vertex to a table, `o`
    starts an object, `p k` and lines of integers give the current object
    its vertices by 1-based lookups, and `newmtl`, `Kd` and `usemtl` define
    and apply materials. The objects collected are built as points, lines
    or polylines at the end.

    Opening and reading the file is left out: the loader works on the lines
    already split into tokens. Each token carries the number Python's `int`
    and `float` would read from it, or None where they raise ValueError.
    The exceptions that escape `load_scene` are the `Failure` results. */
module SceneFiles {
  import opened Vectors
  import opened Outcomes
  import opened Sketches

  datatype Token = Token(text: string, asInt: Option<int>, asFloat: Option<real>)

  /** The exceptions that end a load. */
  datatype LoadError = IndexError | ValueError

  /** A material: its colour once `Kd` sets one, None before. */
  type Material = Option<Colour>

  /** `ObjectData` (file_system.py:92-133). */
  datatype ObjectData = ObjectData(name: string, vertices: seq<Vec3>, material: Material)

  /** The loader's local state (file_system.py:21-25): the vertex table, the
      objects so far, the material table and the current material's name. */
  datatype Scene = Scene(vertices: seq<Vec3>, objects: seq<ObjectData>, materials: map<string, Material>, current: string)

  const Initial := Scene([], [], map[], "")

  /** `ObjectData(name)` (file_system.py:102-105): no vertices and the
      default material, white. */
  function NewObject(name: string): ObjectData
  {
    ObjectData(name, [], Some(White))
  }

  /** Python's `s[i]`: a negative index counts from the end. */
  function PyIndex<T>(s: seq<T>, i: int): (r: Result<T, LoadError>)
    ensures r.Success? <==> -|s| <= i < |s|
  {
    if 0 <= i < |s| then Success(s[i])
    else if -|s| <= i < 0 then Success(s[|s| + i])
    else Failure(IndexError)
  }

  /** A first token starting with `#` marks a comment. */
  predicate IsComment(t: Token) { |t.text| > 0 && t.text[0] == '#' }

  /** The keywords with a case of their own in the loader. */
  predicate IsKeyword(key: string)
  {
    key in {"v", "o", "p", "f", "w", "mtllib", "newmtl", "usemtl", "Kd"}
  }

  /** `float(data[i])`: IndexError when the token is missing, ValueError
      when it is no number. */
  function FloatAt(data: seq<Token>, i: nat): (r: Result<real, LoadError>)
    ensures r.Success? <==> i < |data| && data[i].asFloat.Some?
  {
    if i >= |data| then Failure(IndexError)
    else if data[i].asFloat.None? then Failure(ValueError)
    else Success(data[i].asFloat.value)
  }

  /** The three numbers of `v` and `Kd`, read left to right: the first
      missing or malformed token decides the error. */
  function Triple(data: seq<Token>): (r: Result<Vec3, LoadError>)
    ensures r.Success? <==> |data| >= 4 && data[1].asFloat.Some? && data[2].asFloat.Some? && data[3].asFloat.Some?
    ensures r.Success? ==> r.value == Vec3(data[1].asFloat.value, data[2].asFloat.value, data[3].asFloat.value)
  {
    match FloatAt(data, 1)
    case Failure(e) => Failure(e)
    case Success(x) =>
      match FloatAt(data, 2)
      case Failure(e) => Failure(e)
      case Success(y) =>
        match FloatAt(data, 3)
        case Failure(e) => Failure(e)
        case Success(z) => Success(Vec3(x, y, z))
  }

  /** `list(map(int, data))`: every token as an integer, or None where one
      of them raises ValueError. */
  function Integers(data: seq<Token>): (r: Option<seq<int>>)
    ensures r.Some? <==> forall i :: 0 <= i < |data| ==> data[i].asInt.Some?
    ensures r.Some? ==> |r.value| == |data| && forall i :: 0 <= i < |data| ==> r.value[i] == data[i].asInt.value
  {
    if data == [] then Some([])
    else
      match Integers(data[..|data| - 1])
      case None => None
      case Some(front) =>
        if data[|data| - 1].asInt.None? then None else Some(front + [data[|data| - 1].asInt.value])
  }

  /** The lookups `vertices[point - 1]` of a list of 1-based indexes. */
  function Lookups(vertices: seq<Vec3>, points: seq<int>): (r: Result<seq<Vec3>, LoadError>)
    ensures r.Success? <==> forall i :: 0 <= i < |points| ==> PyIndex(vertices, points[i] - 1).Success?
    ensures r.Success? ==>
      |r.value| == |points| && forall i :: 0 <= i < |points| ==> r.value[i] == PyIndex(vertices, points[i] - 1).value
  {
    if points == [] then Success([])
    else
      match Lookups(vertices, points[..|points| - 1])
      case Failure(e) => Failure(e)
      case Success(front) =>
        match PyIndex(vertices, points[|points| - 1] - 1)
        case Failure(e) => Failure(e)
        case Success(v) => Success(front + [v])
  }

  /** `add_vertices` on the last object: the list is replaced, not extended. */
  function WithVertices(objects: seq<ObjectData>, vs: seq<Vec3>): (r: seq<ObjectData>)
    requires |objects| > 0
    ensures |r| == |objects| && r[..|r| - 1] == objects[..|objects| - 1]
    ensures r[|r| - 1] == objects[|objects| - 1].(vertices := vs)
  {
    objects[|objects| - 1 := objects[|objects| - 1].(vertices := vs)]
  }

  /** `add_material` on the last object. */
  function WithMaterial(objects: seq<ObjectData>, m: Material): (r: seq<ObjectData>)
    requires |objects| > 0
    ensures |r| == |objects| && r[..|r| - 1] == objects[..|objects| - 1]
    ensures r[|r| - 1] == objects[|objects| - 1].(material := m)
  {
    objects[|objects| - 1 := objects[|objects| - 1].(material := m)]
  }

  /** One pass of the line loop of `load_scene` (file_system.py:29-79). */
  function Step(st: Scene, data: seq<Token>): Result<Scene, LoadError>
  {
    if |data| == 0 || IsComment(data[0]) then Success(st)
    else
      var key := data[0].text;
      if key == "v" then
        match Triple(data)
        case Failure(e) => Failure(e)
        case Success(p) => Success(st.(vertices := st.vertices + [p]))
      else if key == "o" then
        if |data| < 2 then Failure(IndexError) else Success(st.(objects := st.objects + [NewObject(data[1].text)]))
      else if key == "p" then
        if |st.objects| == 0 || |data| < 2 then Failure(IndexError)
        else if data[1].asInt.None? then Failure(ValueError)
        else
          match PyIndex(st.vertices, data[1].asInt.value - 1)
          case Failure(e) => Failure(e)
          case Success(v) => Success(st.(objects := WithVertices(st.objects, [v])))
      else if key == "f" || key == "w" || key == "mtllib" then Success(st)
      else if key == "newmtl" then
        if |data| < 2 then Failure(IndexError)
        else Success(st.(current := data[1].text, materials := st.materials[data[1].text := None]))
      else if key == "usemtl" then
        if |st.objects| == 0 || |data| < 2 then Failure(IndexError)
        else if data[1].text in st.materials then Success(st.(objects := WithMaterial(st.objects, st.materials[data[1].text])))
        else Success(st)
      else if key == "Kd" then
        match Triple(data)
        case Failure(e) => Failure(e)
        case Success(c) => Success(st.(materials := st.materials[st.current := Some(Colour(c.x, c.y, c.z))]))
      else
        match Integers(data)
        case None => Success(st)
        case Some(points) =>
          match Lookups(st.vertices, points)
          case Failure(e) => Failure(e)
          case Success(vs) =>
            if |st.objects| == 0 then Failure(IndexError) else Success(st.(objects := WithVertices(st.objects, vs)))
  }

  /** The state after the given lines, or the first error. */
  function Run(lines: seq<seq<Token>>): Result<Scene, LoadError>
  {
    if lines == [] then Success(Initial)
    else
      match Run(lines[..|lines| - 1])
      case Failure(e) => Failure(e)
      case Success(st) => Step(st, lines[|lines| - 1])
  }

  /** Blank lines and comments change nothing. */
  lemma SkipsBlankAndComment(st: Scene, data: seq<Token>)
    requires data == [] || IsComment(data[0])
    ensures Step(st, data) == Success(st)
  {
  }

  /** `f`, `w` and `mtllib` lines change nothing. */
  lemma IgnoresFacesAndLibraries(st: Scene, data: seq<Token>)
    requires |data| > 0 && data[0].text in {"f", "w", "mtllib"}
    ensures Step(st, data) == Success(st)
  {
    assert !IsComment(data[0]);
  }

  /** A line whose first token is no keyword and not every token of which is
      an integer is reported and skipped. */
  lemma SkipsUndefined(st: Scene, data: seq<Token>, j: nat)
    requires |data| > 0 && !IsComment(data[0]) && !IsKeyword(data[0].text)
    requires j < |data| && data[j].asInt.None?
    ensures Step(st, data) == Success(st)
  {
    assert Integers(data).None?;
  }

  /** `v x y z` appends the vertex to the table. */
  lemma VertexAppends(st: Scene, data: seq<Token>)
    requires |data| >= 4 && data[0].text == "v"
    requires data[1].asFloat.Some? && data[2].asFloat.Some? && data[3].asFloat.Some?
    ensures Step(st, data).Success?
    ensures Step(st, data).value.vertices
      == st.vertices + [Vec3(data[1].asFloat.value, data[2].asFloat.value, data[3].asFloat.value)]
    ensures Step(st, data).value.objects == st.objects
  {
    assert !IsComment(data[0]);
  }

  /** `o name` appends a new, empty, white object. */
  lemma ObjectStarts(st: Scene, data: seq<Token>)
    requires |data| >= 2 && data[0].text == "o"
    ensures Step(st, data) == Success(st.(objects := st.objects + [ObjectData(data[1].text, [], Some(White))]))
  {
    assert !IsComment(data[0]);
  }

  /** `p k` makes the k-th vertex (1-based) the current object's only vertex. */
  lemma PointReplaces(st: Scene, data: seq<Token>, k: int)
    requires |data| >= 2 && data[0].text == "p" && data[1].asInt == Some(k)
    requires |st.objects| > 0 && 1 <= k <= |st.vertices|
    ensures Step(st, data).Success?
    ensures var os := Step(st, data).value.objects;
      |os| == |st.objects| && os[..|os| - 1] == st.objects[..|st.objects| - 1]
      && os[|os| - 1].vertices == [st.vertices[k - 1]] && os[|os| - 1].name == st.objects[|st.objects| - 1].name
  {
    assert !IsComment(data[0]);
  }

  /** A `p` line before any `o` line raises IndexError. */
  lemma PointNeedsObject(st: Scene, data: seq<Token>)
    requires |data| > 0 && data[0].text == "p" && st.objects == []
    ensures Step(st, data) == Failure(IndexError)
  {
    assert !IsComment(data[0]);
  }

  /** A line of integers k1 ... kn, each in range, makes the vertices
      k1 ... kn (1-based) the current object's vertex list, replacing the
      previous one. */
  lemma IndexLineReplaces(st: Scene, data: seq<Token>)
    requires |data| > 0 && !IsComment(data[0]) && !IsKeyword(data[0].text) && |st.objects| > 0
    requires forall i :: 0 <= i < |data| ==> data[i].asInt.Some? && 1 <= data[i].asInt.value <= |st.vertices|
    ensures Step(st, data).Success?
    ensures var os := Step(st, data).value.objects;
      |os| == |st.objects| && os[..|os| - 1] == st.objects[..|st.objects| - 1]
      && |os[|os| - 1].vertices| == |data|
      && forall i :: 0 <= i < |data| ==> os[|os| - 1].vertices[i] == st.vertices[data[i].asInt.value - 1]
  {
    var points := Integers(data).value;
    assert forall i :: 0 <= i < |points| ==> PyIndex(st.vertices, points[i] - 1).Success?;
  }

  /** `usemtl` with a name never registered leaves everything as it was. */
  lemma UnknownMaterialKept(st: Scene, data: seq<Token>)
    requires |data| >= 2 && data[0].text == "usemtl" && |st.objects| > 0 && data[1].text !in st.materials
    ensures Step(st, data) == Success(st)
  {
    assert !IsComment(data[0]);
  }

  /** `newmtl n`, then `Kd r g b`, then `usemtl n` gives the current object
      the colour (r, g, b). */
  lemma MaterialApplied(st: Scene, name: Token, kd: seq<Token>, use: seq<Token>)
    requires |st.objects| > 0
    requires |kd| >= 4 && kd[0].text == "Kd" && kd[1].asFloat.Some? && kd[2].asFloat.Some? && kd[3].asFloat.Some?
    requires |use| >= 2 && use[0].text == "usemtl" && use[1].text == name.text
    ensures var s1 := Step(st, [Token("newmtl", None, None), name]);
      s1.Success? && Step(s1.value, kd).Success? && Step(Step(s1.value, kd).value, use).Success?
      && var os := Step(Step(s1.value, kd).value, use).value.objects;
      os[|os| - 1].material == Some(Colour(kd[1].asFloat.value, kd[2].asFloat.value, kd[3].asFloat.value))
  {
    var newmtl := [Token("newmtl", None, None), name];
    assert !IsComment(newmtl[0]) && !IsComment(kd[0]) && !IsComment(use[0]);
    var s1 := Step(st, newmtl).value;
    assert s1.current == name.text && s1.objects == st.objects;
    var s2 := Step(s1, kd).value;
    assert s2.materials[name.text] == Some(Colour(kd[1].asFloat.value, kd[2].asFloat.value, kd[3].asFloat.value));
    assert s2.objects == st.objects;
  }

  /** The names of a list of objects, in order. */
  function Names(objects: seq<ObjectData>): (r: seq<string>)
    ensures |r| == |objects|
  {
    seq(|objects|, i requires 0 <= i < |objects| => objects[i].name)
  }

  /** A line that starts an object. */
  predicate IsObjectLine(data: seq<Token>) { |data| >= 2 && data[0].text == "o" }

  /** The names given by the `o` lines, in order. */
  function ObjectNames(lines: seq<seq<Token>>): seq<string>
  {
    if lines == [] then []
    else
      var last := lines[|lines| - 1];
      ObjectNames(lines[..|lines| - 1]) + (if IsObjectLine(last) then [last[1].text] else [])
  }

  /** One step adds a name exactly on an `o` line and otherwise keeps the
      names of the objects. */
  lemma StepNames(st: Scene, data: seq<Token>)
    requires Step(st, data).Success?
    ensures Names(Step(st, data).value.objects) == Names(st.objects) + (if IsObjectLine(data) then [data[1].text] else [])
  {
    var next := Step(st, data).value;
    if |data| > 0 && data[0].text == "o" {
      assert !IsComment(data[0]);
      assert next.objects == st.objects + [NewObject(data[1].text)];
    } else {
      assert Names(next.objects) == Names(st.objects);
    }
  }

  /** The loader produces one object per `o` line, in the same order and
      under the same names. */
  lemma {:induction false} ObjectsFollowObjectLines(lines: seq<seq<Token>>)
    requires Run(lines).Success?
    ensures Names(Run(lines).value.objects) == ObjectNames(lines)
  {
    if lines != [] {
      var front := lines[..|lines| - 1];
      ObjectsFollowObjectLines(front);
      StepNames(Run(front).value, lines[|lines| - 1]);
    }
  }

  /** The shape `build_object` chooses for a vertex count. */
  function KindFor(n: nat): SketchKind
  {
    if n == 1 then PointSketch else if n == 2 then LineSketch else WireframeSketch
  }

  /** The shape built from an object description. */
  predicate Built(s: Sketch, d: ObjectData)
    reads s
  {
    s.kind == KindFor(|d.vertices|) && s.coordList == d.vertices && s.name == d.name && s.colour == d.material
  }

  /** `build_object` (file_system.py:121-133): one vertex gives a point, two
      a line, any other count a polyline, all with the object's name and
      material as colour and the default line width 1. */
  method BuildObject(d: ObjectData) returns (s: Sketch)
    ensures fresh(s) && Built(s, d) && s.lineWidth == 1.0
  {
    if |d.vertices| == 1 {
      s := new Sketch.Point(d.vertices[0], d.name, d.material, 1.0);
    } else if |d.vertices| == 2 {
      s := new Sketch.Line(d.vertices[0], d.vertices[1], d.name, d.material, 1.0);
    } else {
      s := new Sketch.Wireframe(d.vertices, d.name, d.material, 1.0);
    }
  }

  /** The loop over the indexes of an integer line (file_system.py:72-75). */
  method LookupLoop(vertices: seq<Vec3>, points: seq<int>) returns (r: Result<seq<Vec3>, LoadError>)
    ensures r == Lookups(vertices, points)
  {
    var found: seq<Vec3> := [];
    for i := 0 to |points|
      invariant Lookups(vertices, points[..i]) == Success(found)
    {
      assert points[..i + 1][..i] == points[..i];
      var index := points[i] - 1;
      if 0 <= index < |vertices| {
        found := found + [vertices[index]];
      } else if -|vertices| <= index < 0 {
        found := found + [vertices[|vertices| + index]];
      } else {
        FailureLookups(vertices, points, i + 1);
        return Failure(IndexError);
      }
    }
    assert points[..|points|] == points;
    return Success(found);
  }

  lemma FailureLookups(vertices: seq<Vec3>, points: seq<int>, k: nat)
    requires k <= |points| && Lookups(vertices, points[..k]).Failure?
    ensures Lookups(vertices, points) == Failure(IndexError)
  {
    var i :| 0 <= i < k && PyIndex(vertices, points[..k][i] - 1).Failure?;
    assert PyIndex(vertices, points[i] - 1).Failure?;
    assert Lookups(vertices, points).Failure?;
    LookupsFailsWithIndexError(vertices, points);
  }

  lemma {:induction false} LookupsFailsWithIndexError(vertices: seq<Vec3>, points: seq<int>)
    ensures Lookups(vertices, points).Failure? ==> Lookups(vertices, points).error == IndexError
  {
    if points != [] {
      LookupsFailsWithIndexError(vertices, points[..|points| - 1]);
    }
  }

  /** `load_scene` (file_system.py:16-84): the line loop, then one shape
      built per object, in order. */
  method LoadScene(lines: seq<seq<Token>>) returns (r: Result<seq<Sketch>, LoadError>)
    ensures r.Success? <==> Run(lines).Success?
    ensures r.Failure? ==> r.error == Run(lines).error
    ensures r.Success? ==> |r.value| == |Run(lines).value.objects|
    ensures r.Success? ==> (forall i :: 0 <= i < |r.value| ==> fresh(r.value[i]) && Built(r.value[i], Run(lines).value.objects[i]))
  {
    var vertices: seq<Vec3> := [];
    var dataObjects: seq<ObjectData> := [];
    var materials: map<string, Material> := map[];
    var current := "";
    var i := 0;
    while i < |lines|
      invariant 0 <= i <= |lines|
      invariant Run(lines[..i]) == Success(Scene(vertices, dataObjects, materials, current))
    {
      var data := lines[i];
      assert lines[..i + 1][..i] == lines[..i];
      var next := LineStep(Scene(vertices, dataObjects, materials, current), data);
      if next.Failure? {
        FailureKept(lines, i + 1);
        return Failure(next.error);
      }
      vertices, dataObjects, materials, current := next.value.vertices, next.value.objects, next.value.materials, next.value.current;
      i := i + 1;
    }
    assert lines[..|lines|] == lines;
    var built: seq<Sketch> := [];
    for j := 0 to |dataObjects|
      invariant |built| == j
      invariant forall k :: 0 <= k < j ==> fresh(built[k]) && Built(built[k], dataObjects[k])
    {
      var s := BuildObject(dataObjects[j]);
      built := built + [s];
    }
    return Success(built);
  }

  /** Once a prefix fails, the whole load fails with the same error. */
  lemma {:induction false} FailureKept(lines: seq<seq<Token>>, k: nat)
    requires k <= |lines| && Run(lines[..k]).Failure?
    ensures Run(lines) == Run(lines[..k])
  {
    if k == |lines| {
      assert lines[..k] == lines;
    } else {
      var front := lines[..|lines| - 1];
      assert front[..k] == lines[..k];
      FailureKept(front, k);
    }
  }

  /** The body of the line loop, one case per keyword. */
  method LineStep(st: Scene, data: seq<Token>) returns (r: Result<Scene, LoadError>)
    ensures r == Step(st, data)
  {
    if |data| == 0 || IsComment(data[0]) {
      return Success(st);
    }
    var key := data[0].text;
    if key == "v" {
      var p := Triple(data);
      if p.Failure? {
        return Failure(p.error);
      }
      return Success(st.(vertices := st.vertices + [p.value]));
    } else if key == "o" {
      if |data| < 2 {
        return Failure(IndexError);
      }
      return Success(st.(objects := st.objects + [NewObject(data[1].text)]));
    } else if key == "p" {
      if |st.objects| == 0 || |data| < 2 {
        return Failure(IndexError);
      }
      if data[1].asInt.None? {
        return Failure(ValueError);
      }
      var v := PyIndex(st.vertices, data[1].asInt.value - 1);
      if v.Failure? {
        return Failure(v.error);
      }
      return Success(st.(objects := WithVertices(st.objects, [v.value])));
    } else if key == "f" || key == "w" || key == "mtllib" {
      return Success(st);
    } else if key == "newmtl" {
      if |data| < 2 {
        return Failure(IndexError);
      }
      return Success(st.(current := data[1].text, materials := st.materials[data[1].text := None]));
    } else if key == "usemtl" {
      if |st.objects| == 0 || |data| < 2 {
        return Failure(IndexError);
      }
      if data[1].text in st.materials {
        return Success(st.(objects := WithMaterial(st.objects, st.materials[data[1].text])));
      }
      return Success(st);
    } else if key == "Kd" {
      var c := Triple(data);
      if c.Failure? {
        return Failure(c.error);
      }
      return Success(st.(materials := st.materials[st.current := Some(Colour(c.value.x, c.value.y, c.value.z))]));
    }
    var points := Integers(data);
    if points.None? {
      return Success(st);
    }
    var vs := LookupLoop(st.vertices, points.value);
    if vs.Failure? {
      return Failure(vs.error);
    }
    if |st.objects| == 0 {
      return Failure(IndexError);
    }
    return Success(st.(objects := WithVertices(st.objects, vs.value)));
  }
}
