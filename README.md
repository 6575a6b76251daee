# SGI wireframe geometry, modelled and verified in Dafny

This project models the geometry core of SGI, a small interactive graphics system. SGI keeps a scene of 2D and 3D wireframe objects: points, lines, polygons, Bézier curves, B-spline curves, boxes and bicubic surface patches. It moves them with affine transforms and looks at them through a window that carries a centre of projection (cop). Each frame projects the objects onto the window plane and normalizes them against the window. It then clips them to the window and maps them to screen pixels.

The repository holds three generations of this pipeline. The model follows each one in its own terms. Where a later generation repeats an earlier algorithm, the model defines it once and proves that the generations agree.

Arithmetic is over exact `real`. Sines, cosines and square roots are not computed. A rotation takes the (cos, sin) pair of each angle as a parameter, and a magnitude `m` of `v` is a parameter with `m >= 0 && m * m == |v|^2`.

**Current generation** (`source/backend/math`, `source/backend/objects`, `source/backend/rendering`):
- `Vectors`: the 3D vector, with its operators and their error cases.
- `Matrices`: the 4×4 homogeneous matrix builders and `multiply_vectors`. It proves the translation group laws, the rotation inverse, and that the projection sends the cop to the origin.
- `Transforms`: the accumulating transform of an object. It proves that the bottom row stays affine, that rotating or scaling about the own position leaves the position fixed, and the drop-and-divide rule of the perspective projection.
- `Objects`: the renderable object. It covers the centre as a mean, the resolution of index edges into segments, and which lists each operation writes.
- `Windows`: the window. The cop moves in lockstep with the corners, and the normal is orthogonal to both window axes.
- `Frames`: the frame generator.
- `Wireframes2D` and `Wireframes3D`: the shapes.
  - Edge topologies with exact counts.
  - The Bézier sampler, equal to the Bernstein cubic.
  - The B-spline sampler, by direct evaluation and by forward differences, proved equal on every sample.
  - The box and the surface grid.
- `Clipping`: the clipper.
  - Cohen–Sutherland region codes and the corner retry order.
  - Liang–Barsky, with the kept segment inside the window and on the original segment.
  - The four Sutherland–Hodgman passes.
  - The patch step that re-closes a filled outline.

**Older generation** (`source/backend/*.py`, `source/internals/*`, `source/managers/viewport_manager.py`):
- `LegacyVectors`: the four-component vector of `backend/vector.py`, whose stored w drifts under `+`, `-` and `*`, and the plain vector of `internals/vector.py`.
- `AxisTransforms`: the transform of `backend/transform.py`, which tracks a position and three axis points, and the object of `backend/wireframes.py` built on it.
- `LegacyTransforms`: the transform of `internals/transform.py`, which keeps position, rotation angles and scale apart and maps points about an anchor. It is proved equal to the conjugate T(a)·m·T(−a) of the current transform.
- `LegacyShapes`: the objects of `internals/wireframes.py`, which rebuild their segments shape by shape, proved equal to the current index topologies.
- `Viewport`: the viewport manager.
  - The world-to-screen and screen-to-world maps, with their round trips.
  - Clipping of the older objects through `Clipping`.
  - The window controls bound to the camera.

**Oldest generation**:
- `Sketches`: the shapes of `source/wireframe.py`.
- `SceneFiles`: the OBJ-like scene loader of `source/file_system.py`, over lines already split into tokens.

`Outcomes` holds the `Option` and `Result` types used for `None` results and raised exceptions. `Arith` holds a few ordered-field facts the other proofs build on.

Every method that changes state states the new value of every field it changes. Each one is proved against a specification function, and the properties are proved about those functions.

## Model

| member | source | states |
|---|---|---|
| Vectors.SqNormZero | source/backend/math/vector.py:138-143 | the squared magnitude is zero exactly for the zero vector |
| Vectors.MagnitudeZero | source/backend/math/vector.py:138-143 | a magnitude is zero if and only if the vector is the zero vector |
| Vectors.Lagrange | source/backend/math/vector.py:122-136 | the product of squared magnitudes is the squared dot product plus the squared cross product |
| Vectors.Multiply | source/backend/math/vector.py:33-48 | fails with NotImplementedError exactly for an unsupported operand; a number scales every component; another vector gives an angle, the zero angle exactly when either vector is zero, and otherwise the angle whose cosine is u·v divided by the product of the magnitudes |
| Vectors.MagnitudeProductZero | source/backend/math/vector.py:39-44 | the product of the magnitudes is never negative, and is positive exactly when both vectors are non-zero |
| Vectors.AngleCosineInRange | source/backend/math/vector.py:39-42 | the cosine passed to acos by the angle branch lies in [-1, 1], so the angle is always defined |
| Vectors.CosineInRange | source/backend/math/vector.py:39-42 | Cauchy-Schwarz: the dot product over the product of magnitudes lies in [-1, 1] |
| Vectors.Divide | source/backend/math/vector.py:50-53 | succeeds exactly for a number operand, and the quotient times that number gives back the vector |
| Vectors.Normalize | source/backend/math/vector.py:145-154 | fails with the zero-vector error exactly when the vector is zero |
| Vectors.NormalizeUnit | source/backend/math/vector.py:145-154 | a successful normalization has squared length 1 and, scaled by the magnitude, gives back the input |
| Vectors.UnitAfterDivide | source/backend/math/vector.py:150-154 | a non-zero vector divided by its magnitude has unit length and scales back to itself |
| Vectors.AddSubRoundTrip | source/backend/math/vector.py:27-31 | adding then subtracting the same vector, or the other way round, is the identity |
| Vectors.AddCommutes | source/backend/math/vector.py:27-28 | vector addition is commutative |
| Vectors.NegIsSubFromZero | source/backend/math/vector.py:55-57 | negation is subtraction from the zero vector and is its own inverse |
| Vectors.ScaleDivRoundTrip | source/backend/math/vector.py:33-53 | multiplying and dividing by the same non-zero number undo each other |
| Vectors.DotSymmetric | source/backend/math/vector.py:122-127 | the dot product is symmetric |
| Vectors.CrossOrthogonal | source/backend/math/vector.py:129-136 | the cross product is orthogonal to both operands |
| Vectors.HomogeneousRoundTrip | source/backend/math/vector.py:107-113 | the homogeneous form carries w = 1 and dropping w gives back the vector |
| Vectors.Vector.constructor | source/backend/math/vector.py:18-19 | a new vector holds the given components |
| Vectors.Vector.SetX | source/backend/math/vector.py:66-72 | the x setter replaces x and keeps y and z |
| Vectors.Vector.SetY | source/backend/math/vector.py:82-88 | the y setter replaces y and keeps x and z |
| Vectors.Vector.SetZ | source/backend/math/vector.py:98-104 | the z setter replaces z and keeps x and y |
| LegacyVectors.AgreeOnPoint | source/backend/vector.py:29-58 | on x, y and z the four-component `+`, `-`, scalar `*` and unary `-` agree with the three-component operators |
| LegacyVectors.FreshWeights | source/backend/vector.py:20-58 | on freshly built vectors the stored w becomes 2 after `+`, 0 after `-`, k after `* k` and -1 after negation |
| LegacyVectors.Multiply4 | source/backend/vector.py:35-50 | fails with NotImplementedError exactly for an unsupported operand; a number scales x, y, z and the stored w alike; a vector gives the angle between the x, y, z parts: zero exactly when either part is zero, and otherwise the angle whose cosine is their dot product divided by the product of the magnitudes |
| LegacyVectors.Over | source/backend/vector.py:52-55 | succeeds exactly for a number; the quotient is rebuilt with w = 1 and times the number gives back x, y, z |
| LegacyVectors.TimesOverResetsWeight | source/backend/vector.py:35-55 | multiplying then dividing by the same number gives the fresh vector of the original x, y, z, whatever the stored w was |
| LegacyVectors.InnerProductIgnoresWeight | source/backend/vector.py:124-129 | the dot product does not depend on either stored w |
| LegacyVectors.CrossProduct | source/backend/vector.py:131-138 | the cross product is a fresh vector (w = 1) orthogonal to both operands |
| LegacyVectors.BackendVector.constructor | source/backend/vector.py:20-21 | a new vector stores [x, y, z, 1] |
| LegacyVectors.BackendVector.SetX | source/backend/vector.py:68-74 | the x setter replaces x and keeps the other three stored components |
| LegacyVectors.BackendVector.SetY | source/backend/vector.py:84-90 | the y setter replaces y and keeps the other three stored components |
| LegacyVectors.BackendVector.SetZ | source/backend/vector.py:100-106 | the z setter replaces z and keeps the other three stored components |
| LegacyVectors.BackendVector.Normalize | source/backend/vector.py:147-155 | the zero vector raises the zero-vector error and changes nothing; otherwise x, y, z become a unit vector that scales back to the old one, and w is kept |
| LegacyVectors.PlainDivide | source/internals/vector.py:55-58 | succeeds exactly for a non-zero number; zero raises ZeroDivisionError and any other operand NotImplementedError; the quotient times the number gives back the vector |
| LegacyVectors.PlainDivideAgrees | source/internals/vector.py:55-58 | wherever the later `/` is defined, the plain vector's `/` gives the same result |
| Matrices.Translation | source/backend/math/matrix.py:16-25 | `build_translation_matrix`; TranslationMoves, TranslationCompose and TranslationInverse state what it does |
| Matrices.Rotation | source/backend/math/matrix.py:28-59 | `build_rotation_matrix`: Rz·Ry·Rx, or Rx·Ry·Rz with the inverse flag; RotationIsLinearBlock, RotationInverse and InverseRotationInverse state what it does |
| Matrices.Scaling | source/backend/math/matrix.py:60-69 | `build_scaling_matrix`; ScalingMoves states what it does |
| Matrices.Normalization | source/backend/math/matrix.py:71-83 | `build_normalization_matrix`: scale · Rz · T(−position); NormalizationCentresWindow states what it does |
| Matrices.Projection | source/backend/math/matrix.py:85-110 | `build_projection_matrix`: Rx · Ry · T(−cop); ProjectionCentresCop states what it does |
| Matrices.Perspective | source/backend/math/matrix.py:112-121 | `build_perspective_matrix`, for a non-zero distance; PerspectiveDivides states what it does |
| Matrices.MultiplyVectors | source/backend/math/matrix.py:123-137 | one output per input vector, in order, each the input in homogeneous form through the matrix with w dropped (no division by w); an empty list gives an empty list |
| Matrices.ApplyMul | source/backend/math/matrix.py:123-137 | applying a matrix product to a vector applies the factors right to left |
| Matrices.MulAffine | source/backend/math/matrix.py:16-69 | a product of affine matrices (bottom row 0, 0, 0, 1) is affine |
| Matrices.MulLinearBlock | source/backend/math/matrix.py:27-69 | a product of affine matrices that fix the origin also fixes the origin |
| Matrices.AffineKeepsW | source/backend/math/matrix.py:123-137 | an affine matrix keeps w = 1, so dropping w after it loses nothing |
| Matrices.Translation3OfMul | source/backend/math/matrix.py:16-25 | the translation column of a product with an affine right factor is the left factor applied to the right factor's translation column |
| Matrices.TranslationMoves | source/backend/math/matrix.py:16-25 | the translation matrix of d moves every point by d |
| Matrices.TranslationCompose | source/backend/math/matrix.py:16-25 | two translations compose into the translation by the sum |
| Matrices.TranslationInverse | source/backend/math/matrix.py:16-25 | the translation by -d undoes the translation by d |
| Matrices.IdentityNeutral | source/backend/math/matrix.py:123-137 | the identity matrix is neutral on both sides of a product and fixes every vector |
| Matrices.ScalingMoves | source/backend/math/matrix.py:60-69 | the scaling matrix multiplies each coordinate by its own factor and fixes the origin |
| Matrices.PerspectiveDivides | source/backend/math/matrix.py:112-121 | the perspective matrix keeps x, y, z and sets w to z divided by the centre-of-projection distance |
| Matrices.RotationIsLinearBlock | source/backend/math/matrix.py:27-58 | each elementary rotation, and their product in either order, is affine and fixes the origin |
| Matrices.ElementaryInverse | source/backend/math/matrix.py:39-53 | for a unit (cos, sin) pair, turning about x, y or z by the negated angle undoes the turn |
| Matrices.RotationInverse | source/backend/math/matrix.py:27-58 | the inverse-order rotation with negated angles undoes the rotation Rz Ry Rx |
| Matrices.InverseRotationInverse | source/backend/math/matrix.py:27-58 | the forward rotation with negated angles undoes the inverse-order rotation Rx Ry Rz |
| Matrices.PivotFixed | source/backend/math/matrix.py:16-58 | translating to the origin, applying any origin-fixing block and translating back leaves the pivot point where it is |
| Matrices.ProjectionCentresCop | source/backend/math/matrix.py:85-110 | the projection matrix sends the centre of projection to the origin, whatever its two turns |
| Matrices.NormalizationCentresWindow | source/backend/math/matrix.py:71-83 | the normalization matrix sends the window's position to the origin |
| Matrices.MultiplyVectorsCompose | source/backend/math/matrix.py:123-137 | mapping a list through a product with an affine right factor equals mapping it through each factor in turn |
| Matrices.MultiplyVectorsTranslation | source/backend/math/matrix.py:16-25 | mapping a list through a translation moves each vector by the offset and keeps the order |
| Transforms.Transform.constructor | source/backend/math/transform.py:20-37 | a new transform is the translation to the given position, and its position getter reads that position back |
| Transforms.Transform.Translate | source/backend/math/transform.py:86-103 | the accumulated matrix is multiplied on the left by the translation, the position moves by the direction, and every coordinate moves by the direction, in order |
| Transforms.Transform.Rotate | source/backend/math/transform.py:105-132 | the accumulated matrix, the coordinates and the position go through the rotation about the given origin, or about the position when none is given, in which case the position stays put |
| Transforms.Transform.Rescale | source/backend/math/transform.py:134-161 | the accumulated matrix and the coordinates go through the scaling about the position along the object's own axes, and the position stays put |
| Transforms.LinearBlockFixesOrigin | source/backend/math/transform.py:105-161 | a rotation or scaling block leaves the origin where it is |
| Transforms.ConjugateFixesPivot | source/backend/math/transform.py:134-161 | translating the pivot to the origin, applying origin-fixing blocks and translating back is affine and fixes the pivot |
| Transforms.RelativeScalingFixesPosition | source/backend/math/transform.py:134-161 | the scaling step is affine and leaves the object's position in place |
| Transforms.PivotIsAffine | source/backend/math/transform.py:105-122 | the rotation about a pivot is affine, so the accumulated matrix keeps its bottom row |
| Transforms.RescaleAlongOwnAxes | source/backend/math/transform.py:134-151 | the scaling acts along the object's rotated axes: the point at offset R u from the position goes to offset R (S u) |
| Transforms.Normalize | source/backend/math/transform.py:163-174 | one normalized coordinate per input coordinate |
| Transforms.NormalizeCentresWindow | source/backend/math/transform.py:163-174 | a coordinate at the window's position is normalized to the origin |
| Transforms.Visible | source/backend/math/transform.py:202-210 | the kept points are never more than the transformed ones |
| Transforms.Transformed | source/backend/math/transform.py:190-196 | each coordinate, in order, in homogeneous form through the transformation with w kept |
| Transforms.KeepVisible | source/backend/math/transform.py:202-210 | the filtering loop keeps, in order, exactly the points with z >= 0 and w > 0, each divided by its w |
| Transforms.Project | source/backend/math/transform.py:176-210 | the result is the projection specification: empty for no coordinates, every transformed point for the window, otherwise only the visible points after perspective |
| Transforms.VisibleOnPlane | source/backend/math/transform.py:202-208 | every kept point of a perspective image (w = z / d) lies on the plane z = d |
| Transforms.VisibleBehind | source/backend/math/transform.py:202-208 | with a negative cop distance no point survives the drop rule |
| Transforms.ProjectionIsAffine | source/backend/math/matrix.py:85-110 | the projection matrix is affine |
| Transforms.PerspectiveImage | source/backend/math/transform.py:188-196 | after an affine map, the perspective step gives w = z / d |
| Transforms.ProjectedOnPlane | source/backend/math/transform.py:176-210 | outside the window case every projected point lies on the plane z = cop distance, and a negative cop distance drops every point |
| Transforms.ProjectedWindowKeepsAll | source/backend/math/transform.py:198-199 | for the window nothing is dropped: one projected point per coordinate |
| Objects.Translated | source/backend/objects/object.py:113-118 | one moved coordinate per input coordinate |
| Objects.Centre | source/backend/objects/object.py:100-110 | the accumulator loop returns the arithmetic mean of the coordinates |
| Objects.SumTranslated | source/backend/objects/object.py:100-110 | moving every coordinate by d adds n times d to their sum |
| Objects.MeanTranslated | source/backend/objects/object.py:100-118 | the centre follows a translation: the mean of the moved coordinates is the old mean moved by d |
| Objects.MeanSingle | source/backend/objects/object.py:100-110 | the centre of a single point is that point |
| Objects.Reciprocal | source/backend/objects/object.py:139-141 | each component times the matching scale component is 1 |
| Objects.ResolveEdges | source/backend/objects/object.py:155-166 | never more segments than edges |
| Objects.ResolveAllInRange | source/backend/objects/object.py:155-166 | when every index is in range, exactly one segment per edge, in edge order, joining the two indexed coordinates |
| Objects.ResolveEndpoints | source/backend/objects/object.py:155-166 | every end point of a resolved segment is one of the coordinates |
| Objects.ResolveDropsOutOfRange | source/backend/objects/object.py:163-166 | an edge with an index out of range is skipped (the IndexError is swallowed), so there are fewer segments than edges |
| Objects.Object.constructor | source/backend/objects/object.py:50-74 | the coordinates are copied, the projected and normalized images start equal to them, the transform is placed at their centre, and the segments are resolved at once |
| Objects.Object.CalculateCenter | source/backend/objects/object.py:100-110 | returns the mean of the coordinates |
| Objects.Object.GenerateVectorLines | source/backend/objects/object.py:155-166 | the segments are rebuilt from the normalized coordinates and the edge list, and nothing else changes |
| Objects.Object.Translate | source/backend/objects/object.py:113-118 | every coordinate and the transform's position move by the direction and the matrix gains the translation; images, edges and flags are kept |
| Objects.Object.Rotate | source/backend/objects/object.py:120-125 | the coordinates, the transform's matrix and its position go through the rotation about the given origin or, by default, about the position, which then stays put; images, edges and flags are kept |
| Objects.Object.Rescale | source/backend/objects/object.py:127-132 | the coordinates and the transform's matrix go through the scaling about the position along the object's own axes, and the position stays put; images, edges and flags are kept |
| Objects.Object.Normalize | source/backend/objects/object.py:134-146 | the normalized image is the projected image through the window's normalization with the reciprocal window scale; nothing else changes |
| Objects.Object.Project | source/backend/objects/object.py:148-153 | the projected image is the non-window projection of the coordinates; nothing else changes |
| Windows.NormalOrthogonal | source/backend/objects/window.py:63-82 | the window normal (cross product of the half axes) is orthogonal to both window axes |
| Windows.RectangleNormal | source/backend/objects/window.py:63-82 | for an axis-aligned window at one depth the x axis and up vector follow the sides, and the normal points along z with a quarter of the signed area as its length |
| Windows.MultiplyVectorsAppend | source/backend/objects/window.py:112-131 | mapping the corners with extra points appended maps the corners first and the extra points last, so splitting the result back is exact |
| Windows.Window.constructor | source/backend/objects/window.py:19-29 | a window is an unfilled rectangle from origin to extension whose projected cop starts at the cop and whose projected position starts at the centre of the corners |
| Windows.Window.Translate | source/backend/objects/window.py:112-115 | the corners, the cop and the position move by the direction together and the matrix gains the translation; the images and the projected cop and position are kept |
| Windows.Window.Rescale | source/backend/objects/window.py:117-120 | the corners, the cop and the transform's matrix go through the same scaling about the position; the position stays put |
| Windows.Window.Rotate | source/backend/objects/window.py:122-125 | the corners, the cop, the transform's matrix and its position go through the same rotation about the given origin, or about the position, which then stays put |
| Windows.Window.Project | source/backend/objects/window.py:127-131 | the corners and the position go through the projection with nothing dropped, the projected cop lands on the origin, and the world coordinates and cop are kept |
| Frames.RollAngleRange | source/backend/rendering/frame_generator.py:46-50 | an angle in [0, 180] gives a roll in [0, 360]: the angle itself when the projected up vector does not point right, otherwise its reflection 360 - angle, which is above 180 unless the angle is 180 |
| Frames.GenerateFrame | source/backend/rendering/frame_generator.py:19-26 | after a frame every object holds the projection of its coordinates with the window's cop, its normalization about the window position and the segments of that; world coordinates and edges are kept; the window holds its projected corners and position, a projected cop at the origin and segments rebuilt from its normalized corners, and keeps its cop, corners and edges; the cop distance is required to be the magnitude of the previous frame's projected position minus projected cop (positive when they differ), the corrected behaviour of the Findings row on window.py:110 |
| Frames.RollAngle | source/backend/rendering/frame_generator.py:46-50 | the window roll from the up vector's angle; RollAngleRange states its range |
| Frames.ProjectStep | source/backend/math/transform.py:175-200 | with the cop distance as Python passes it, projection fails exactly when there are coordinates and the distance is the uncalled bound method `magnitude`; with a number it is the projection the model defines |
| Frames.FrameAsWrittenRaises | source/backend/objects/window.py:105-110 | as written, the frame's projection of the window (four corners) raises TypeError, so every `generate_frame` fails |
| Frames.DistancePositive | source/backend/objects/window.py:105-110 | the called magnitude of the projected position minus the projected cop is positive whenever the two differ |
| Frames.CopDistanceCalled | source/backend/math/transform.py:175-200 | with the magnitude called, projection succeeds and is the projection `GenerateFrame` performs |
| Frames.ProjectAll | source/backend/rendering/frame_generator.py:29-38 | every object's projected image is the non-window projection of its coordinates; coordinates, edges and normalized images are kept |
| Frames.NormalizeAll | source/backend/rendering/frame_generator.py:41-53 | every object's normalized image is its projected image normalized about the window position with the reciprocal window scale, and the projections stay in place |
| Frames.VectorLinesAll | source/backend/rendering/frame_generator.py:56-62 | every object ends up framed: projection, normalization and the segments resolved from the normalized image |
| Wireframes2D.PolygonEdges | source/backend/objects/wireframes_2d.py:57-63 | the edge loop builds the closed cycle: (i, i + 1) for every point but the last, which is joined back to point 0 |
| Wireframes2D.SplineEdges | source/backend/objects/wireframes_2d.py:202-208 | the edge loop builds the chain over the samples, closed back to point 0 only for a closed spline |
| Wireframes2D.ChainEdges | source/backend/objects/wireframes_2d.py:139-142 | the edge loop builds the open chain (i, i + 1) for i below the last sample |
| Wireframes2D.CycleLinesClose | source/backend/objects/wireframes_2d.py:50-65 | resolved against its points, the polygon's cycle is one closed chain of segments, one per point, segment i starting at point i |
| Wireframes2D.ChainLines | source/backend/objects/wireframes_2d.py:139-142 | resolved against its points, the chain joins each point to the next, one segment fewer than points |
| Wireframes2D.Point | source/backend/objects/wireframes_2d.py:17-26 | the `Point` shape; PointOutline states its outline |
| Wireframes2D.Line | source/backend/objects/wireframes_2d.py:35-41 | the `Line` shape; LineOutline states its outline |
| Wireframes2D.Triangle | source/backend/objects/wireframes_2d.py:74-87 | the `Triangle` shape; TriangleOutline states its outline |
| Wireframes2D.Rectangle | source/backend/objects/wireframes_2d.py:96-111 | the `Rectangle` shape, corners in the source's order; RectangleOutline states its outline |
| Wireframes2D.PointOutline | source/backend/objects/wireframes_2d.py:17-26 | a point is drawn as one segment from it to one unit along x |
| Wireframes2D.LineOutline | source/backend/objects/wireframes_2d.py:35-41 | a line is drawn as the one segment between its two end points |
| Wireframes2D.TriangleOutline | source/backend/objects/wireframes_2d.py:74-87 | a triangle is drawn as the closed chain a-b, b-c, c-a |
| Wireframes2D.RectangleOutline | source/backend/objects/wireframes_2d.py:96-111 | a rectangle is drawn as a closed chain of four sides, each parallel to the x or the y axis |
| Wireframes2D.SampleAsCubic | source/backend/objects/wireframes_2d.py:165-174 | a sample T(t) M G is, in x and in y, the cubic whose coefficients are M G, with z = 0 |
| Wireframes2D.BezierIsBernstein | source/backend/objects/wireframes_2d.py:155-174 | the program's Bezier matrix evaluates the cubic Bernstein form of the four control points |
| Wireframes2D.BezierStart | source/backend/objects/wireframes_2d.py:155-174 | a Bezier segment passes through its first control point at t = 0 |
| Wireframes2D.BezierEnd | source/backend/objects/wireframes_2d.py:155-174 | a Bezier segment passes through its last control point at t = 1 |
| Wireframes2D.BSplineIsBlend | source/backend/objects/wireframes_2d.py:297-340 | the program's B-spline matrix evaluates the uniform cubic B-spline blend of four control points |
| Wireframes2D.BSplineOfRepeatedPoint | source/backend/objects/wireframes_2d.py:297-340 | the blend weights sum to one: four copies of a point give that point at every t |
| Wireframes2D.BSplineJoins | source/backend/objects/wireframes_2d.py:304-340 | consecutive spline segments meet: the end of the segment on a, b, c, d is the start of the segment on b, c, d, e |
| Wireframes2D.Samples | source/backend/objects/wireframes_2d.py:165-174 | exactly `count` samples |
| Wireframes2D.CurveCoords | source/backend/objects/wireframes_2d.py:146-176 | the sampling loop returns `steps` samples at t = k / steps, k from 0 up to but not including `steps` |
| Wireframes2D.CurveStartsAtStart | source/backend/objects/wireframes_2d.py:146-176 | the first sample of a Bezier segment is its start point |
| Wireframes2D.BezierSpec | source/backend/objects/wireframes_2d.py:129-137 | k segments give k times `steps` samples |
| Wireframes2D.BezierCoords | source/backend/objects/wireframes_2d.py:129-137 | the stride-3 loop samples each cubic segment (control points 3j to 3j + 3) in order and stops at the last control point, giving `steps` samples per segment |
| Wireframes2D.BezierCurveCounts | source/backend/objects/wireframes_2d.py:120-144 | 3k + 1 control points give k times `steps` samples joined by one edge fewer |
| Wireframes2D.BezierCurve | source/backend/objects/wireframes_2d.py:120-144 | the `BezierCurve` shape for 0 or 3k + 1 control points; BezierCoords, BezierStart, BezierEnd and BezierCurveCounts state its samples and edges |
| Wireframes2D.SplineSpec | source/backend/objects/wireframes_2d.py:292-342 | k segments of `count` samples give k times `count` points |
| Wireframes2D.InnerWindow | source/backend/objects/wireframes_2d.py:309-332 | for a window of four points inside the list, the direct indices and the wrapped indices pick the same control points |
| Wireframes2D.SplineCoords | source/backend/objects/wireframes_2d.py:292-342 | the direct sampler gives, for each window of four points (wrapping around when closed, stopping at the first incomplete window when open), `steps` samples at t = k / steps |
| Wireframes2D.SplineCurve | source/backend/objects/wireframes_2d.py:185-210 | the `SplineCurve` shape, by forward differences or direct sampling; SplineCoords, SplineCoordsForward, ForwardExtendsDirect and SplineEdges state its samples and edges |
| Wireframes2D.ThirdDifference | source/backend/objects/wireframes_2d.py:226-229 | the third forward difference of a cubic is constant: 6 times the leading coefficient times delta cubed |
| Wireframes2D.DifferencesStart | source/backend/objects/wireframes_2d.py:226-273 | the difference matrix applied to the coefficients gives the cubic's value at 0 and its first three forward differences |
| Wireframes2D.DifferencesStep | source/backend/objects/wireframes_2d.py:277-286 | one round of running sums advances the value and the differences by one step |
| Wireframes2D.SampleAtStep | source/backend/objects/wireframes_2d.py:224-229 | the direct sample k / steps equals the cubic at k times delta |
| Wireframes2D.CubicSamples | source/backend/objects/wireframes_2d.py:264-288 | exactly `count` points |
| Wireframes2D.CubicSamplesAreSamples | source/backend/objects/wireframes_2d.py:224-288 | with the B-spline coefficients and delta = 1 / steps, the cubic points are the direct samples |
| Wireframes2D.CubicSamplesAppend | source/backend/objects/wireframes_2d.py:277-288 | one more step appends the next cubic point |
| Wireframes2D.RunningSums | source/backend/objects/wireframes_2d.py:261-288 | the running-sum loop appends the cubic's value at 0, delta, ..., steps times delta |
| Wireframes2D.ForwardSegment | source/backend/objects/wireframes_2d.py:258-288 | one window gives the B-spline samples at k / steps for k from 0 to `steps` inclusive |
| Wireframes2D.SplineCoordsForward | source/backend/objects/wireframes_2d.py:212-290 | the forward-difference sampler visits the same windows as the direct one and gives `steps` + 1 points for each |
| Wireframes2D.SplineSpecAt | source/backend/objects/wireframes_2d.py:304-340 | sample k of segment j sits at position j times `count` plus k and is the blend of that segment's control points at k / steps |
| Wireframes2D.ForwardExtendsDirect | source/backend/objects/wireframes_2d.py:212-342 | each forward-difference segment holds the direct samples of that segment, in the same order |
| Wireframes2D.ForwardSegmentEnd | source/backend/objects/wireframes_2d.py:277-288 | the extra last point of each forward-difference segment is the segment's t = 1 end |
| Wireframes2D.ForwardEndRepeats | source/backend/objects/wireframes_2d.py:231-290 | that extra point repeats the first point of the next segment |
| Wireframes3D.Parallelepiped | source/backend/objects/wireframes_3d.py:33-62 | the `Parallelepiped` shape; ParallelepipedTopology, ParallelepipedDegrees, ParallelepipedGeometry and ParallelepipedOutline state its corners and edges |
| Wireframes3D.ParallelepipedTopology | source/backend/objects/wireframes_3d.py:40-60 | the box has eight corners and twelve edges, all in range and none a loop: the front cycle 0-1-2-3, the edges from corner i to i + 4, and the back cycle 4-5-6-7 |
| Wireframes3D.ParallelepipedDegrees | source/backend/objects/wireframes_3d.py:49-60 | every corner of the box meets exactly three edges |
| Wireframes3D.ParallelepipedGeometry | source/backend/objects/wireframes_3d.py:40-47 | corner 0 is the origin and corner 2 the extension; the two corners built from two coordinates sit at z = 0; the back face is the front face moved one depth (the x extent) along z, and keeps each corner's x and y |
| Wireframes3D.ParallelepipedOutline | source/backend/objects/wireframes_3d.py:17-62 | the box is drawn with all twelve edges, unfilled and closed |
| Wireframes3D.BSplineWeightsSum | source/backend/objects/wireframes_3d.py:89-92 | the B-spline weights at any parameter sum to one |
| Wireframes3D.ConstantBicubic | source/backend/objects/wireframes_3d.py:117-125 | a coordinate shared by all sixteen control points is kept at every parameter pair |
| Wireframes3D.RepeatedSurfacePoint | source/backend/objects/wireframes_3d.py:105-126 | sixteen copies of one point give that point everywhere on the patch |
| Wireframes3D.PlanarSurface | source/backend/objects/wireframes_3d.py:105-126 | control points in one plane z = c give a patch in that plane |
| Wireframes3D.RowsLength | source/backend/objects/wireframes_3d.py:117-126 | k rows of n samples hold k times n points |
| Wireframes3D.RowsCell | source/backend/objects/wireframes_3d.py:117-126 | the samples are in row-major order: for r < k and c < n the sample at s = r / n, t = c / n is stored at index r n + c, within the first k rows |
| Wireframes3D.GridEdgesCount | source/backend/objects/wireframes_3d.py:128-150 | the first k rows of n samples have k (n - 1) row edges and (k - 1) n cross edges |
| Wireframes3D.SurfaceEdgeCount | source/backend/objects/wireframes_3d.py:117-150 | a patch sampled `steps` times each way has 2 steps (steps - 1) edges |
| Wireframes3D.GridEdgeShape | source/backend/objects/wireframes_3d.py:128-150 | every edge joins a sample to its right-hand neighbour in the same row or to the sample below it in the next row, and every index is in range |
| Wireframes3D.GridEdgesCover | source/backend/objects/wireframes_3d.py:128-150 | every pair of neighbouring samples, along a row or between consecutive rows, is joined by an edge |
| Wireframes3D.NoRowWrap | source/backend/objects/wireframes_3d.py:128-150 | the last sample of a row is never joined to the first sample of the next row |
| Wireframes3D.SurfaceCoords | source/backend/objects/wireframes_3d.py:82-153 | fewer than sixteen control points give no points and no edges; sixteen give the row-major samples and the grid edges |
| Wireframes3D.JoinRows | source/backend/objects/wireframes_3d.py:137-148 | closing a row appends its last index to its index list; from the second row on, the previous row's indices are zipped with it into exactly the cross edges to the row before, and the new row becomes the previous one |
| Wireframes3D.SurfaceRow | source/backend/objects/wireframes_3d.py:117-140 | one row of the inner loop appends the n samples of that row, the edges along the row, advances the running index to the row's last cell and records the cells of the row |
| Wireframes3D.Zip | source/backend/objects/wireframes_3d.py:144-145 | as many edges as the shorter list, edge k joining the k-th entries |
| Wireframes3D.CrossAsZip | source/backend/objects/wireframes_3d.py:142-148 | zipping the cells of the previous row with those of the current row gives exactly the edges between the two rows |
| Wireframes3D.Surface | source/backend/objects/wireframes_3d.py:71-80 | a surface is an unfilled, closed 3D shape holding the sampled patch and its grid edges, or nothing when fewer than sixteen control points are given |
| Wireframes3D.SurfaceOutline | source/backend/objects/wireframes_3d.py:71-153 | every grid edge resolves, so the patch is drawn with all 2 steps (steps - 1) of its edges |
| Clipping.Slope | source/backend/rendering/clipper.py:155-158 | for a non-vertical segment, the slope times the run is the rise |
| Clipping.Intersection | source/backend/rendering/clipper.py:145-195 | without the drop flag a pair of points always comes back; every returned point has z = 0 |
| Clipping.CutOnLine | source/backend/rendering/clipper.py:162-193 | every point `intersection` computes lies on the line through the segment and on the boundary line of its side |
| Clipping.IntersectionMeets | source/backend/rendering/clipper.py:145-195 | a non-empty result meets the segment's line at the boundaries of the chosen sides, within the window's edges when dropping is on; an empty result means dropping was on and a cut point fell beyond an edge |
| Clipping.MaxOf | source/backend/rendering/clipper.py:331 | the maximum is one of the values and no value exceeds it |
| Clipping.MinOf | source/backend/rendering/clipper.py:332 | the minimum is one of the values and no value is below it |
| Clipping.InsideAsConstraints | source/backend/rendering/clipper.py:294-302 | the point at parameter u is in the closed window exactly when u p_k <= q_k for all four boundaries |
| Clipping.PairConstraints | source/backend/rendering/clipper.py:307-329 | for one pair of opposite boundaries, the two constraints hold exactly when the algorithm's parallel test and ratio test admit u |
| Clipping.MeetsAsRatios | source/backend/rendering/clipper.py:307-329 | all four constraints hold exactly when both pairs' ratio tests admit u |
| Clipping.InsideInRange | source/backend/rendering/clipper.py:304-335 | a parameter in [0, 1] that the ratio tests admit lies in the surviving interval, which therefore exists |
| Clipping.InRangeInside | source/backend/rendering/clipper.py:304-335 | every parameter in the surviving interval passes the ratio tests |
| Clipping.LiangBarskyExact | source/backend/rendering/clipper.py:289-340 | a point of the segment is in the closed window if and only if the algorithm returns an interval containing its parameter |
| Clipping.LiangBarskyRangeBounds | source/backend/rendering/clipper.py:304-335 | the surviving interval lies within [0, 1] |
| Clipping.LiangBarskyResult | source/backend/rendering/clipper.py:289-340 | a non-empty result is the piece of the segment between two parameters 0 <= u1 <= u2 <= 1, with both end points in the closed window; an empty result means no point of the segment is in it |
| Clipping.LiangBarskyKeepsInside | source/backend/rendering/clipper.py:289-340 | a segment already inside the window comes back with its own x and y (z reset to 0) |
| Clipping.LiangBarskyExample | source/backend/rendering/clipper.py:289-340 | on the window [-500, 500] squared, (600, 0) to (0, 0) is cut at the right edge to (500, 0) to (0, 0) |
| Clipping.LiangBarskyClip | source/backend/rendering/clipper.py:289-340 | `liang_barsky`: nothing when the parameter interval is empty, else the sub-segment between u1 and u2; its properties are the contracts of LiangBarskyExact, LiangBarskyRangeBounds, LiangBarskyResult and LiangBarskyKeepsInside |
| Clipping.RegionCodeBits | source/backend/rendering/clipper.py:227-234 | each bit of the region code is one strict comparison (1 left, 2 right, 4 below, 8 above), and code 0 is exactly the closed window |
| Clipping.RegionCodeShape | source/backend/rendering/clipper.py:242-274 | unless the point lies strictly between the bounds of an inverted axis, every code is zero, a single side or one of the four corners |
| Clipping.StraddlesAsBits | source/backend/rendering/clipper.py:229-235 | a point lies strictly between the bounds of an inverted axis exactly when its code holds both bits of that axis; no point does so on a window whose origin is below and left of its extension |
| Clipping.StraddleRejected | source/backend/rendering/clipper.py:237-274 | a segment with an end point holding both bits of one axis is always rejected trivially, because on an inverted axis every point sets a bit of that axis; so `cohen_sutherland` never indexes past its candidate pairs and the model needs no precondition |
| Clipping.OwnSideAdmissible | source/backend/rendering/clipper.py:155-191 | a side whose bit is set in one end point's code but not the other's can be evaluated without an infinite or zero slope |
| Clipping.TriesAdmissible | source/backend/rendering/clipper.py:238-285 | past the trivial rejection, when neither end point straddles an inverted axis, every side the algorithm tries can be evaluated without a division by zero |
| Clipping.CohenSutherlandAccept | source/backend/rendering/clipper.py:236-237 | a segment with both end points in the closed window is returned unchanged |
| Clipping.CohenSutherlandReject | source/backend/rendering/clipper.py:238 | a segment with both end points strictly beyond the same boundary is dropped |
| Clipping.SlopeStep | source/backend/rendering/clipper.py:168-179 | along a non-vertical line, the rise between two of its points is the slope times the run |
| Clipping.InverseSlopeStep | source/backend/rendering/clipper.py:180-191 | along a non-horizontal line, the run between two of its points is the inverse slope times the rise |
| Clipping.CutStaysOnEdge | source/backend/rendering/clipper.py:162-191 | an end point beyond exactly one boundary, on a line that reaches the window, is cut by that boundary within the window's edge |
| Clipping.SideCutInside | source/backend/rendering/clipper.py:162-193 | a point of a non-empty intersection lies in the closed window: on its edge for a real side, a copy of an inside end point otherwise |
| Clipping.TriesShape | source/backend/rendering/clipper.py:242-276 | each end point's first candidate is its own side (NULL only for code 0), and a corner gives two real sides |
| Clipping.KeptEndNeedsOwnSide | source/backend/rendering/clipper.py:278-285 | a try that keeps an outside end point can succeed only where the try with that point's own side succeeds too |
| Clipping.KeptStartNeedsOwnSide | source/backend/rendering/clipper.py:278-285 | the same for an outside start point |
| Clipping.TryInside | source/backend/rendering/clipper.py:257-258 | a successful try whose points are cut by real sides, or copy inside end points, lies in the closed window on the segment's line |
| Clipping.RetryInside | source/backend/rendering/clipper.py:259-285 | the first successful corner retry lies in the closed window on the segment's line |
| Clipping.CohenSutherlandInside | source/backend/rendering/clipper.py:219-287 | every non-empty Cohen-Sutherland result lies in the closed window and on the line through the segment |
| Clipping.CohenSutherlandExample | source/backend/rendering/clipper.py:219-287 | on the window [-500, 500] squared, (600, 0) to (0, 0) is cut at the right edge to (500, 0) to (0, 0), as by Liang-Barsky |
| Clipping.CohenSutherlandInvertedExample | source/backend/rendering/clipper.py:219-287 | on a window with origin.x = 1 beyond extension.x = −1, (−5, 0) to (5, 0) has codes LEFT and RIGHT and is cut to (1, 0) to (−1, 0) without error |
| Clipping.CohenSutherlandClip | source/backend/rendering/clipper.py:219-287 | `cohen_sutherland` for any window: trivial accept, trivial reject, one cut per single-side code, otherwise the corner retries in the source's order; its properties are the contracts of CohenSutherlandAccept, CohenSutherlandReject, StraddleRejected and CohenSutherlandInside |
| Clipping.Pass | source/backend/rendering/clipper.py:93-127 | a pass never returns more lines than it was given |
| Clipping.RunPass | source/backend/rendering/clipper.py:93-127 | the pass loop keeps a line with both end points strictly inside, cuts it at the boundary on the outside end when one end is inside, drops it otherwise, in order |
| Clipping.ClipEdgeInside | source/backend/rendering/clipper.py:98-127 | every line a pass returns has both end points on the closed inner side of its boundary |
| Clipping.ClipEdge | source/backend/rendering/clipper.py:98-127 | one line of one Sutherland–Hodgman pass: kept when both ends are inside the boundary, cut at the boundary when one end is, dropped otherwise; its properties are the contracts of ClipEdgeInside, CutBetweenEnds and ClipEdgeKeeps |
| Clipping.CutBetweenEnds | source/backend/rendering/clipper.py:120-127 | the cut point of a pass lies between the line's two end points on the other axis |
| Clipping.ClipEdgeKeeps | source/backend/rendering/clipper.py:92-127 | a pass keeps every other boundary's inner side that its input already satisfies |
| Clipping.PassInside | source/backend/rendering/clipper.py:93-127 | after a pass every end point is on the closed inner side of that pass's boundary |
| Clipping.PassKeeps | source/backend/rendering/clipper.py:92-127 | a later pass does not undo an earlier pass's side |
| Clipping.PatchStep | source/backend/rendering/clipper.py:131-138 | one step of the patch loop adds at most one line |
| Clipping.StepAtLine | source/backend/rendering/clipper.py:131-138 | at an original line the patch loop inserts exactly that line's connector |
| Clipping.StepAtConnector | source/backend/rendering/clipper.py:131-138 | at an inserted connector the patch loop changes nothing |
| Clipping.Patch | source/backend/rendering/clipper.py:129-138 | the patch loop, walking the list while it grows, returns each line followed by the connector to the next line's start when they differ, and a final connector back to the first line's start |
| Clipping.PatchedPrefixChain | source/backend/rendering/clipper.py:131-138 | the patched prefix is a chain ending at the next line's start, or at the first line's start once complete |
| Clipping.PatchedCloses | source/backend/rendering/clipper.py:129-138 | after the patch step the lines form one closed chain |
| Clipping.PatchedPrefixKeeps | source/backend/rendering/clipper.py:131-138 | the patch step adds no new points, so any property of the input's end points holds of the output's |
| Clipping.PatchedKeeps | source/backend/rendering/clipper.py:129-138 | the same for the whole patch step |
| Clipping.PatchedPrefixOfChain | source/backend/rendering/clipper.py:131-138 | on a list that already closes, the patch loop inserts nothing |
| Clipping.PatchedIdempotent | source/backend/rendering/clipper.py:129-138 | a closed chain is left as it is, and patching twice is patching once |
| Clipping.ClipPolygon | source/backend/rendering/clipper.py:73-143 | returns the point test's result for a point, otherwise the four passes left, right, bottom, top, each followed by the patch step for a filled object |
| Clipping.AfterPassInside | source/backend/rendering/clipper.py:92-141 | a pass, patched or not, leaves every end point on the inner side of its boundary |
| Clipping.AfterPassKeeps | source/backend/rendering/clipper.py:92-141 | a pass, patched or not, keeps the sides established by earlier passes |
| Clipping.PassesInside | source/backend/rendering/clipper.py:88-141 | after the four passes every end point lies in the closed window |
| Clipping.FilledPassesClose | source/backend/rendering/clipper.py:88-141 | the clipped outline of a filled object is one closed chain |
| Clipping.ClipPolygonInside | source/backend/rendering/clipper.py:73-143 | a point is kept exactly when it lies in the closed window; everything returned for any other object lies in it |
| Clipping.ClipLinesSpec | source/backend/rendering/clipper.py:197-217 | never more lines than given |
| Clipping.ClipLines | source/backend/rendering/clipper.py:197-217 | the loop returns, in order, the non-empty results of the selected line method |
| Clipping.ClipLineInside | source/backend/rendering/clipper.py:204-215 | on a window whose origin is below and left of its extension (always, for Liang-Barsky) both line methods return only end points in the closed window |
| Clipping.ClipLinesInside | source/backend/rendering/clipper.py:197-217 | on such a window every end point `clip_lines` returns lies in the closed window |
| Clipping.ClipLinesKeepsInside | source/backend/rendering/clipper.py:197-217 | lines already inside the window all survive either method |
| Clipping.Toggled | source/backend/rendering/clipper.py:53-61 | toggling always changes the method |
| Clipping.Clipper.constructor | source/backend/rendering/clipper.py:42-43 | a new clipper uses Liang-Barsky |
| Clipping.Clipper.ToggleClippingMethod | source/backend/rendering/clipper.py:53-61 | the method switches to the other one |
| Clipping.Clipper.Clip | source/backend/rendering/clipper.py:63-71 | a filled object goes to the polygon clipper, any other to the selected line method, on its normalized coordinates and lines |
| Clipping.ToggleTwice | source/backend/rendering/clipper.py:53-61 | toggling twice restores the method |
| Clipping.ClipInside | source/backend/rendering/clipper.py:63-71 | whatever `clip` returns for a non-point object lies in the closed window, with either line method |
| Viewport.ToScreen | source/managers/viewport_manager.py:76-87 | `world_to_screen` over the padded bounds; ToScreenCorners, ToScreenInside and WorldRoundTrip state what it does |
| Viewport.ToWorld | source/managers/viewport_manager.py:97-108 | `screen_to_world` over the padded bounds; ScreenRoundTrip states what it does |
| Viewport.ToScreenCorners | source/managers/viewport_manager.py:76-87 | the padded origin maps to pixel (0, height) and the padded extension to (width, 0): x runs left to right and y is flipped |
| Viewport.ToScreenInside | source/managers/viewport_manager.py:76-87 | a point inside the padded bounds lands inside the width × height pixel rectangle |
| Viewport.WorldRoundTrip | source/managers/viewport_manager.py:76-108 | screen-to-world after world-to-screen over the same bounds returns the point's x and y (z is dropped) |
| Viewport.ScreenRoundTrip | source/managers/viewport_manager.py:76-108 | world-to-screen after screen-to-world over the same bounds returns the pixel's x and y |
| Viewport.SymmetricCentred | source/internals/wireframes.py:782-793 | a window spanning [-a, a] × [-b, b], corners in window order, has its centre at the origin |
| Viewport.ReversedTurnUndoes | source/internals/transform.py:160-193 | turning about an anchor with the x, y, z factors is undone by turning about the same anchor with the negated angles in the reverse order |
| Viewport.UndoRestores | source/managers/viewport_manager.py:424-436 | the reverse-order turn by the negated angles gives back every corner of the turned window |
| Viewport.TurnByAxes | source/internals/transform.py:160-193 | the legacy rotation matrix is the z turn, then the y turn, then the x turn, applied one after the other |
| Viewport.AboutOrigin | source/internals/transform.py:113-127 | acting about the anchor zero is acting on the point itself |
| Viewport.RotateQuarterTurns | source/managers/viewport_manager.py:424-429 | quarter turns about x and about y send (1, 0, 0) to (0, 1, 0) |
| Viewport.ResetRotationMisses | source/managers/viewport_manager.py:431-436 | the reset of those quarter turns sends (0, 1, 0) to (0, 0, -1), not back to (1, 0, 0) |
| Viewport.TurnWindow | source/internals/wireframes.py:873-876 | the window corners and its cop go through one matrix about one anchor, corner by corner |
| Viewport.ViewportManager.constructor | source/managers/viewport_manager.py:53-66 | the window spans [-500, 500]² with its cop at (0, 0, -500) and its position at the origin; Liang–Barsky is selected |
| Viewport.ViewportManager.ScreenWorldInverse | source/managers/viewport_manager.py:76-108 | world-to-screen (normalized bounds) and screen-to-world (world bounds) are inverse on x and y while the normalized corners 0 and 2 equal the world corners |
| Viewport.ViewportManager.ClipToLines | source/managers/viewport_manager.py:110-182 | the result is the polygon clipper's result for the object's kind, normalized coordinates, lines and fill; every kept endpoint lies in the window; a point is kept exactly when it is inside |
| Viewport.ViewportManager.ChangeClippingMethod | source/managers/viewport_manager.py:467-475 | the selected method flips between Cohen–Sutherland and Liang–Barsky |
| Viewport.ViewportManager.MoveWindow | source/managers/viewport_manager.py:410-415 | the corners, the cop and the recorded position move by the direction; rotation and scale are unchanged |
| Viewport.ViewportManager.ResetWindowPosition | source/managers/viewport_manager.py:417-422 | the window and its cop move by minus the position, and the recorded position becomes the origin |
| Viewport.ViewportManager.RotateWindow | source/managers/viewport_manager.py:424-429 | the corners and the cop turn about the window's position; the recorded rotation accumulates modulo 360; position and scale are unchanged |
| Viewport.ViewportManager.ResetWindowRotation | source/managers/viewport_manager.py:431-436 | as written: the corners and the cop turn about the window's position by the negated angles in the same x, y, z order, and the recorded rotation becomes zero; the position, the recorded scale, the normalized and projected corners, the edges and the projected cop and position are kept |
| Viewport.ViewportManager.UndoWindowRotation | source/managers/viewport_manager.py:431-436 | as intended: the corners and the cop turn back by the negated angles in the reverse order, and the recorded rotation becomes zero |
| Viewport.ViewportManager.RescaleWindow | source/managers/viewport_manager.py:438-443 | the corners and the cop scale about the window's position and the recorded scale is multiplied component-wise; the position, the recorded rotation, the normalized and projected corners, the edges and the projected cop and position are kept |
| Viewport.ViewportManager.ResetWindowScale | source/managers/viewport_manager.py:445-454 | the corners and the cop scale about the window's position by the reciprocals of the recorded scale, which becomes (1, 1, 1); the position, the recorded rotation, the normalized and projected corners, the edges and the projected cop and position are kept |
| Viewport.ViewportManager.ResizeWindow | source/managers/viewport_manager.py:456-465 | the corners and the cop scale about the window's position by the extension over the recorded scale, which becomes the extension; the position, the recorded rotation, the normalized and projected corners, the edges and the projected cop and position are kept |
| LegacyTransforms.Mod360 | source/internals/transform.py:260-263 | the stored angle after `% 360` lies in [0, 360) |
| LegacyTransforms.Mod360Periodic | source/internals/transform.py:260-263 | adding whole turns leaves the stored angle unchanged, and an angle already in [0, 360) is kept as it is |
| LegacyTransforms.AccumulatedUndo | source/internals/transform.py:260-263 | rotating by minus the recorded angles brings the recorded rotation back to zero |
| LegacyTransforms.AllAboutAnchor | source/internals/transform.py:240-247 | mapping a list about an anchor keeps its length |
| LegacyTransforms.AnchorFixed | source/internals/transform.py:113-127 | a matrix that fixes the origin, acting about an anchor, leaves the anchor in place |
| LegacyTransforms.AboutAnchorIsConjugate | source/internals/transform.py:113-127 | acting about an anchor is the product T(a)·m·T(−a), the pivot of the later transform |
| LegacyTransforms.RotationAgreesWithPivot | source/internals/transform.py:251-308 | the older rotate maps a list exactly as the later `multiply_vectors` with the pivoted rotation matrix does |
| LegacyTransforms.ScaleAboutAnchor | source/internals/transform.py:219-249 | scaling about an anchor sends c to anchor + s·(c − anchor), axis by axis |
| LegacyTransforms.LegacyNormalizationOrder | source/internals/transform.py:310-340 | the filled-in matrix is T(−centre)·Rz·S′ with S′ scaling z by cos·s.z: it rotates and scales first and subtracts the centre afterwards |
| LegacyTransforms.LegacyNormalizationUnit | source/internals/transform.py:310-340 | with no turn and unit scale every point just moves by minus the window centre |
| LegacyTransforms.MapAboutAnchor | source/internals/transform.py:240-247 | the per-coordinate loop returns every coordinate mapped about the anchor, in order |
| LegacyTransforms.NormalizedDirection | source/internals/wireframes.py:120-129 | a direction rotated about the position and shifted back is the direction turned about the origin |
| LegacyTransforms.Transform.constructor | source/internals/transform.py:30-80 | position, rotation and scale are stored as given |
| LegacyTransforms.Transform.Translate | source/internals/transform.py:195-217 | every coordinate moves by the direction; the position moves as well exactly when the update flag is set; rotation and scale are unchanged |
| LegacyTransforms.Transform.Rescale | source/internals/transform.py:219-249 | every coordinate scales about the anchor (the position by default); the recorded scale is multiplied per axis exactly when the update flag is set |
| LegacyTransforms.Transform.Rotate | source/internals/transform.py:251-308 | every coordinate turns by Rx·Ry·Rz about the anchor; with the update flag the angles accumulate mod 360 and the position is turned along and stored back; about its own position the position stays put |
| LegacyTransforms.Transform.Normalize | source/internals/transform.py:310-340 | every coordinate goes through the filled-in normalization matrix |
| LegacyTransforms.Transform.Project | source/internals/transform.py:342-409 | the result is the later transform's projection: the window's corners through the projection matrix, and for objects the points in front divided onto the plane z = cop distance |
| LegacyShapes.CycleSegments | source/internals/wireframes.py:246-256 | the closed outline has one segment per point |
| LegacyShapes.ChainSegments | source/internals/wireframes.py:394-401 | the open outline has one segment fewer than there are points, none for no points |
| LegacyShapes.CycleAgrees | source/internals/wireframes.py:246-256 | the closed outline is the later index cycle resolved against the same points |
| LegacyShapes.ChainAgrees | source/internals/wireframes.py:394-401 | the open outline is the later index chain resolved against the same points |
| LegacyShapes.CycleCloses | source/internals/wireframes.py:246-256 | each segment of the closed outline starts where the previous one ends, and the last ends where the first starts |
| LegacyShapes.CycleLoop | source/internals/wireframes.py:246-256 | the loop builds exactly the closed outline |
| LegacyShapes.ChainLoop | source/internals/wireframes.py:394-401 | the loop builds exactly the open outline |
| LegacyShapes.IndexLoop | source/internals/wireframes.py:626-636 | the loop resolves the index pairs against the points, skipping pairs out of range |
| LegacyShapes.NormalizedPolygonCloses | source/internals/wireframes.py:246-256 | a triangle, rectangle, polygon or closed spline gets the closed outline of its normalized points, one segment per point |
| LegacyShapes.Normalized3DAgrees | source/internals/wireframes.py:626-636 | a 3D shape's lines are what the later `generate_vector_lines` builds from the same pairs, never more than the pairs |
| LegacyShapes.StaleLines | source/internals/wireframes.py:186-227 | a point or line whose normalized coordinates fit gets one segment; one whose coordinates do not fit keeps its previous lines |
| LegacyShapes.Object.constructor | source/internals/wireframes.py:54-75 | the three coordinate lists start equal; the transform sits at the centre with no rotation and unit scale; the lines are built at once |
| LegacyShapes.Object.GenerateLines | source/internals/wireframes.py:102-105 | the lines become the shape's outline of its normalized points; the coordinate lists are unchanged |
| LegacyShapes.Object.Translate | source/internals/wireframes.py:120-129 | the points and the position move by the direction, first turned by the object's rotation when `normalized`; everything else is unchanged |
| LegacyShapes.Object.Rescale | source/internals/wireframes.py:131-136 | the points scale about the position, which stays; the recorded scale is multiplied per axis |
| LegacyShapes.Object.Rotate | source/internals/wireframes.py:138-143 | the points and the stored position turn about the anchor (the position by default, which then stays) and the angles accumulate mod 360 |
| LegacyShapes.Object.Normalize | source/internals/wireframes.py:145-158 | the normalized points are the projected points through the normalization with the reciprocal window scale, and the lines are rebuilt from them |
| LegacyShapes.Object.Project | source/internals/wireframes.py:160-165 | only the projected points change, to the projection of the points |
| LegacyShapes.Window.constructor | source/internals/wireframes.py:782-793 | the corners are the rectangle's, unfilled and closed; the transform sits at their centre; cop and projected cop are the given cop |
| LegacyShapes.Window.Translate | source/internals/wireframes.py:859-866 | the corners, the cop and the position move by the (optionally turned) direction; the projected data are unchanged |
| LegacyShapes.Window.Rescale | source/internals/wireframes.py:868-871 | the corners and the cop scale about the position, which stays; the recorded scale is multiplied per axis |
| LegacyShapes.Window.Rotate | source/internals/wireframes.py:873-876 | the corners, the cop and the stored position turn about the anchor (the position by default, which then stays); the angles accumulate mod 360 |
| LegacyShapes.Window.Project | source/internals/wireframes.py:878-882 | the corners, the cop and the position are projected as a window (nothing dropped); the projected cop lands at the origin |
| AxisTransforms.MapThrough | source/backend/transform.py:106-113 | every stored vector goes through the matrix, in order, and comes back as a fresh vector of weight 1 |
| AxisTransforms.WeightedTranslation | source/backend/transform.py:99-125 | a translation moves a stored vector by its weight times the offset and keeps the weight |
| AxisTransforms.PivotWeighted | source/backend/transform.py:127-164 | a stored vector of weight w through T(o)·m·T(−o) has the pivot subtracted and added back w times |
| AxisTransforms.FreshPointThroughPivot | source/backend/transform.py:127-164 | for a fresh vector the pivot matrix moves the point exactly as the older anchored transform does |
| AxisTransforms.MixFixes | source/backend/transform.py:127-164 | (1 − w)·l + w·p equals p exactly when w = 1 or l = p |
| AxisTransforms.OwnPivotFixes | source/backend/transform.py:127-164 | a stored vector rotated about its own x, y, z stays in place exactly when its weight is 1 or the rotation already fixes it |
| AxisTransforms.DoubledAxisThroughPivot | source/backend/transform.py:25-30 | an axis point built as the sum of two fresh vectors (weight 2) lands at m(e − p) + 2p under the pivot, not at p + m·e |
| AxisTransforms.RescaledDoubledAxis | source/backend/transform.py:166-198 | rescaling as written turns the local x axis into S(e_x − p) + p rather than S·e_x |
| AxisTransforms.RescaleMisreadsScale | source/backend/transform.py:85-97 | with the position at (1, 0, 0) every rescale leaves the local x axis at (1, 0, 0), so the scale readback stays 1 |
| AxisTransforms.PointMarkerMovesTwice | source/backend/wireframes.py:181 | the `Point` marker `position + Vector(1.0, 0.0)` stores w = 2, so the first translation by d moves it by 2 d, not by d, whenever d is non-zero |
| AxisTransforms.SummedCoordThroughPivot | source/backend/wireframes.py:540-542 | a coordinate built as the sum of two vectors (the `Point` marker, `Parallelepiped` corners 4 and 6) lands at m (c − 2 o) + 2 o under a rotation or rescale about o, which is where a plain point lands exactly when m fixes o |
| AxisTransforms.AxisTransform.constructor | source/backend/transform.py:25-30 | each axis point is the position plus a fresh unit vector, all four components added |
| AxisTransforms.AxisTransform.Translate | source/backend/transform.py:99-125 | position and axis points gain the direction in all four components; a coordinate of weight w moves by w times the direction; the squared scale readback is unchanged |
| AxisTransforms.AxisTransform.Rotate | source/backend/transform.py:127-164 | position, axis points and coordinates go through the rotation about the pivot (the position by default); about its own position a position of weight 1 stays put |
| AxisTransforms.AxisTransform.Rescale | source/backend/transform.py:166-198 | the axis points and coordinates go through the scaling about the position, which does not move |
| AxisTransforms.NormalizeStored | source/backend/transform.py:200-217 | every stored vector goes through the normalization matrix, and a fresh copy of the window centre lands on the origin |
| AxisTransforms.ProjectStored | source/backend/transform.py:219-249 | the projection reads only x, y, z, follows the later drop rule, keeps every window corner and never adds points |
| AxisTransforms.Centre4 | source/backend/wireframes.py:104-114 | the centre is the plain mean of the points, whatever their stored weights |
| AxisTransforms.RescaledOffset | source/backend/transform.py:166-198 | scaling about p scales an axis point's offset from p per axis |
| AxisTransforms.RestAxisReadback | source/backend/transform.py:166-198 | from the rest pose each local axis becomes the unit axis scaled by s |
| AxisTransforms.RestScaleReadback | source/backend/transform.py:85-97 | from the rest pose, scaling by s makes the squared scale readback (s.x², s.y², s.z²) |
| AxisTransforms.PointFrame.constructor | source/backend/transform.py:25-30 | the axis points sit one unit from the position along each axis |
| AxisTransforms.PointFrame.Translate | source/backend/transform.py:99-125 | position, axis points and coordinates move by the direction; the readback and the rest pose are kept |
| AxisTransforms.PointFrame.Rotate | source/backend/transform.py:127-164 | everything turns about the pivot, and with the default pivot the position never moves |
| AxisTransforms.PointFrame.Rescale | source/backend/transform.py:166-198 | the local axes scale per axis about the fixed position; from the rest pose the squared readback is the squared scale |
| AxisTransforms.AxisObject.constructor | source/backend/wireframes.py:54-78 | the three coordinate lists start equal, the transform sits at rest on the centre, and the vector lines are resolved |
| AxisTransforms.AxisObject.GenerateVectorLines | source/backend/wireframes.py:159-170 | the vector lines are rebuilt from the normalized points, skipping index pairs out of range |
| AxisTransforms.AxisObject.Translate | source/backend/wireframes.py:117-122 | the points and the position move by the direction; the scale readback is unchanged |
| AxisTransforms.AxisObject.Rotate | source/backend/wireframes.py:124-129 | the points, the transform's position and its three axis points turn about the pivot (the position by default, which then stays) |
| AxisTransforms.AxisObject.Rescale | source/backend/wireframes.py:131-136 | the points and the transform's axis points scale about the position, which stays; from the rest pose the squared scale readback is the squared scale |
| AxisTransforms.AxisObject.Normalize | source/backend/wireframes.py:138-150 | the normalized points are the projected points normalized with the reciprocal window scale |
| AxisTransforms.AxisObject.Project | source/backend/wireframes.py:152-157 | the projected points are the points projected with the object drop rule |
| Sketches.Consecutive | source/wireframe.py:124-136 | the segments number one fewer than the coordinates, none for no coordinates |
| Sketches.ConsecutiveIsChain | source/wireframe.py:124-136 | the oldest segments are the open chain of the later generations, resolved from index pairs |
| Sketches.ConsecutiveJoined | source/wireframe.py:124-136 | each segment starts where the previous one ends |
| Sketches.Sketch.Point | source/wireframe.py:68-70 | the coordinate list holds the one position; name, colour and line width are stored |
| Sketches.Sketch.Line | source/wireframe.py:86-93 | the coordinate list holds the two end points in order |
| Sketches.Sketch.Wireframe | source/wireframe.py:116-122 | the coordinate list holds the points in order |
| Sketches.Sketch.Triangle | source/wireframe.py:145-153 | the coordinate list holds the three corners in order |
| Sketches.Sketch.Rectangle | source/wireframe.py:162-171 | the coordinate list holds bottom left, bottom right, top left, top right |
| Sketches.Sketch.SetCoordList | source/wireframe.py:46-52 | the coordinate list is replaced wholesale |
| Sketches.Sketch.GetLines | source/wireframe.py:124-136 | the loop returns each coordinate joined to the next, with no closing segment |
| Sketches.ShapeLineCounts | source/wireframe.py:139-171 | a triangle yields its two sides from the first corner and a rectangle three; neither closes |
| SceneFiles.PyIndex | source/file_system.py:44 | a list lookup succeeds exactly for an index in [−n, n), negative indexes counting from the end |
| SceneFiles.FloatAt | source/file_system.py:40 | reading a number succeeds exactly when the token exists and is a float |
| SceneFiles.Triple | source/file_system.py:40 | the three numbers of `v` and `Kd` are read exactly when tokens 1 to 3 exist and are floats, and then form the vector |
| SceneFiles.Integers | source/file_system.py:66-69 | the line converts exactly when every token is an integer, and then keeps every value in order |
| SceneFiles.Lookups | source/file_system.py:72-75 | the 1-based lookups succeed exactly when every index minus one is a valid list index, and then give those vertices in order |
| SceneFiles.WithVertices | source/file_system.py:107-112 | only the last object changes, and its vertex list is replaced, not extended |
| SceneFiles.WithMaterial | source/file_system.py:114-119 | only the last object changes, and its material is replaced |
| SceneFiles.SkipsBlankAndComment | source/file_system.py:31-36 | a blank line or a line starting with `#` changes nothing |
| SceneFiles.IgnoresFacesAndLibraries | source/file_system.py:45-50 | `f`, `w` and `mtllib` lines change nothing |
| SceneFiles.SkipsUndefined | source/file_system.py:61-79 | a line with no keyword and a non-integer token is skipped |
| SceneFiles.VertexAppends | source/file_system.py:39-40 | `v x y z` appends the vertex (x, y, z) to the table and leaves the objects alone |
| SceneFiles.ObjectStarts | source/file_system.py:41-42 | `o name` appends an empty white object of that name |
| SceneFiles.PointReplaces | source/file_system.py:43-44 | `p k` makes the k-th vertex the current object's only vertex, touching no other object |
| SceneFiles.PointNeedsObject | source/file_system.py:43-44 | a `p` line before any object raises IndexError |
| SceneFiles.IndexLineReplaces | source/file_system.py:61-77 | a line of in-range integers replaces the current object's vertex list by those vertices, in order |
| SceneFiles.UnknownMaterialKept | source/file_system.py:54-58 | `usemtl` with an unregistered name leaves the scene unchanged |
| SceneFiles.MaterialApplied | source/file_system.py:51-60 | `newmtl n`, `Kd r g b`, `usemtl n` gives the current object the colour (r, g, b) |
| SceneFiles.Names | source/file_system.py:81-84 | there is one name per object |
| SceneFiles.StepNames | source/file_system.py:29-79 | one line adds an object name exactly on an `o` line and keeps the other names |
| SceneFiles.ObjectsFollowObjectLines | source/file_system.py:29-79 | a successful load yields one object per `o` line, in order and under the same names |
| SceneFiles.BuildObject | source/file_system.py:121-133 | one vertex builds a point, two a line, any other count a polyline, each with the object's vertices, name and material |
| SceneFiles.LookupLoop | source/file_system.py:72-75 | the lookup loop returns the vertices looked up, or IndexError at the first index out of range |
| SceneFiles.FailureLookups | source/file_system.py:72-75 | once a prefix of the indexes fails, the whole lookup fails with IndexError |
| SceneFiles.LookupsFailsWithIndexError | source/file_system.py:72-75 | a failed lookup always fails with IndexError |
| SceneFiles.LoadScene | source/file_system.py:16-84 | the load succeeds exactly when every line steps, fails with the first error otherwise, and builds one shape per object in order |
| SceneFiles.FailureKept | source/file_system.py:29-79 | once a prefix of the lines fails, the whole load fails with the same error |
| SceneFiles.LineStep | source/file_system.py:31-79 | the loop body does exactly one line's step |
| SceneFiles.Step | source/file_system.py:31-79 | the effect of one line of the file on the loader's state, or the error it raises; the SkipsBlankAndComment … MaterialApplied lemmas state its cases |
| SceneFiles.Run | source/file_system.py:29-79 | the loader's loop over all lines, stopping at the first error; LoadScene is proved against it |

## Left out

- Trigonometry and square roots: degrees are not converted to radians and no sine, cosine, arc cosine, arc tangent or square root is computed. Rotations take (cos, sin) pairs; magnitudes are parameters tied to the squared norm. The projection, normalization and roll angles that the frame generator and the older projection derive from the window's normal and up vector are therefore parameters too.
- The Euler-angle readback of backend/math/transform.py:39-70 and backend/transform.py:46-83 uses `atan2`. The rotation a transform reports is not modelled; callers pass the (cos, sin) pairs of the angles instead.
- The scale readbacks (backend/math/transform.py:72-84 and backend/transform.py:85-97) are square roots of squared lengths. The model states the squared lengths.
- Matrices: the composed rotation is not shown to be the product of the single-axis rotations for the cases where the normalization and projection builders use one or two axes. Those builders are modelled directly from their single-axis factors.
- Floating point: infinities, NaN and rounding are not modelled.
  - For a vertical segment source/backend/rendering/clipper.py stores an `inf` slope. The model has no infinity: `Clipping.InverseSlope` gives 0 for a vertical segment, which is the program's 1 / inf, and the left/right branch that would divide by the slope is never reached with a vertical segment (`Clipping.Admissible`).
  - A zero window scale, a zero cop distance and a zero perspective weight would divide by zero. Callers are required to avoid them.
- Objects.Object.constructor, AxisTransforms.AxisObject.constructor, LegacyShapes.Object.constructor and Objects.Centre require at least one coordinate: `calculate_center` divides by the number of points.
- Wireframes2D.BezierCoords and Wireframes2D.BezierCurve require 0 or 3k + 1 control points. For other counts the source indexes past the end of the list and raises.
- Wireframes2D.SplineCoordsForward and Wireframes2D.SplineCurve require steps > 0 for forward differences: `1 / steps` raises on zero.
- Wireframes3D.SurfaceCoords and Wireframes3D.Surface require at most sixteen control points. With more, the geometry matrices are misshapen and the numpy products fail.
- Clipping: the patch step compares points by value where the source compares Vector objects by identity. A connector is therefore not inserted between two distinct but equal points. The chain closes either way.
- Clipping: Cohen–Sutherland is modelled for every window, inverted ones included. The lemmas that place its results inside the closed window (CohenSutherlandInside and the lemmas it uses) assume the origin is below and left of the extension: on an inverted window that rectangle is empty, and CohenSutherlandInvertedExample shows a result outside it.
- Frames.GenerateFrame takes the cop distance as a parameter, required to be the magnitude of the projected position minus the projected cop, because the model has no square root. As written, backend/objects/window.py:110 hands the uncalled bound method to the projection, which raises TypeError in every frame; see Findings.
- backend/wireframes.py:173-650 repeats the shapes of backend/objects/wireframes_2d.py and wireframes_3d.py with the same sampling, edges and corner positions. Its shapes are not modelled separately: `Wireframes2D` and `Wireframes3D` give their coordinates as plain points. They do not behave the same under that generation's transform: three of their coordinates are sums of two vectors, which store w = 2 (see the next line).
- AxisTransforms.AxisObject holds plain points, so it does not carry the stored weight 2 of the `Point` marker `position + Vector(1.0, 0.0)` (backend/wireframes.py:181) and of `Parallelepiped` corners 4 and 6 (backend/wireframes.py:540, 542). As written, the first translation moves those points twice as far, and a rotation or rescale about a pivot o puts them at m (c − 2 o) + 2 o. AxisTransforms.PointMarkerMovesTwice and AxisTransforms.SummedCoordThroughPivot state this; see Findings.
- internals/wireframes.py:371-603 and 689-769 repeat the same Bézier, B-spline and surface sampling. Those samples are also modelled once; `LegacyShapes` covers only how that generation turns points into segments.
- managers/viewport_manager.py:184-359 repeats `intersection`, `cohen_sutherland` and `liang_barsky` from backend/rendering/clipper.py line for line. `Viewport` uses `Clipping` for them.
- managers/viewport_manager.py:361-408 (`draw_frame`), the GTK and cairo interface, the handlers and the managers' mediator are not part of this model.
- The static helpers `translate_vector`, `reescale_vector` and `rotate_vector` (internals/transform.py:129-193) are not modelled. The only call, at internals/transform.py:363, derives the projection angles from the window normal, and those angles are parameters here. `reescale_vector` also passes the numpy product where the anchor belongs (internals/transform.py:157).
- The `Transform2D` of source/transform.py has no `translate`, so `translate` in wireframe.py:54-59 always fails. `Sketches` leaves it out.
- Names, colours and line widths are stored only by `Sketches`. Identifiers (uuid, wireframe.py:30) are not modelled, and neither are the names, colours and line widths of the other generations' objects (`Objects`, `LegacyShapes`, `AxisTransforms`): no operation modelled here reads them.
- file_system.py: opening and reading the file are not modelled, and `write_scene` has an empty body.
  - The loader works on lines already split into tokens. Each token carries the integer and the float Python would read from it, or None where the conversion raises.
  - The "Material not found" and "Undefined OBJ argument" messages are not modelled; only the skip is.
  - The Wireframe2D and Vector imports of file_system.py do not resolve among these files. The built objects are modelled as the `Sketches` shapes.
- Negative edge indices are not modelled: edges are pairs of naturals. Python would read a negative index from the end of the list.
- The window getters (origin, extension and their normalized versions, the axes and the cop distance) are functions that other members' contracts use. They have no rows of their own.
- The module source.backend.matrix that backend/transform.py imports is not part of this model. The builders of backend/math/matrix.py are used in its place.
- AxisTransforms.AxisObject uses the corrected `PointFrame` transform (see Findings). The as-written `AxisTransform` is modelled beside it.

## Findings

| source | as written | input that shows it | evidently intended | confidence | as-written member | corrected member |
|---|---|---|---|---|---|---|
| source/managers/viewport_manager.py:431-436 | `reset_window_rotation` rotates the window by the negated recorded angles. `rotate` applies them in the same order, Rx·Ry·Rz, so a rotation about two axes is not undone. | Quarter turns about x and y (rotation (90, 90, 0)) send the corner offset (1, 0, 0) to (0, 1, 0). The reset then sends (0, 1, 0) to (0, 0, −1) instead of back to (1, 0, 0). | Undo the rotation: turn by the negated angles in the reverse order, Rz·Ry·Rx, which restores every corner and the cop. | medium, not executed | Viewport.ViewportManager.ResetWindowRotation, Viewport.RotateQuarterTurns, Viewport.ResetRotationMisses | Viewport.ViewportManager.UndoWindowRotation, Viewport.ReversedTurnUndoes, Viewport.UndoRestores |
| source/backend/transform.py:25-30 | Each axis point is built as `position + Vector(1, 0, 0)` and so on. Both operands store w = 1 and `+` adds all four components, so every axis point stores w = 2. The pivot matrices of `rescale` (166-198) and `rotate` (127-164) then subtract and add back the pivot twice. `translate` (99-125) also adds the direction's w = 1 to the position. | Position (1, 0, 0), rescale by s = (2, 1, 1): the local x axis stays (1, 0, 0), so the squared scale readback is 1 instead of 4. After one translation the position stores w = 2, and a rotation about the default pivot moves it. The same holds for the shape coordinates built as sums in backend/wireframes.py (181, 540, 542): a `Point` at p translated by d puts its marker at p + (1, 0, 0) + 2 d. | Axis points and shape coordinates are plain points (w = 1). Rescaling by s from rest gives the squared readback (s.x², s.y², s.z²), and a rotation about the own position leaves the position fixed. | high, not executed | AxisTransforms.RescaleMisreadsScale, AxisTransforms.RescaledDoubledAxis, AxisTransforms.OwnPivotFixes, AxisTransforms.AxisTransform.Rescale, AxisTransforms.PointMarkerMovesTwice, AxisTransforms.SummedCoordThroughPivot | AxisTransforms.PointFrame.Rescale, AxisTransforms.PointFrame.Rotate, AxisTransforms.RestScaleReadback, AxisTransforms.FreshPointThroughPivot, AxisTransforms.AxisObject.Translate |
| source/backend/objects/window.py:110 | `calculate_cop_distance` returns `(self.projected_position - self.projected_cop).magnitude` without calling it. `magnitude` is a method of backend/math/vector.py, so the bound method itself reaches `build_perspective_matrix`, which computes `1.0 / cop_distance` (backend/math/matrix.py:121, called from backend/math/transform.py:190). | Any frame: `generate_frame` projects every object with coordinates and then the window, whose four corners are never empty, so `1.0 /` a bound method raises TypeError before anything is drawn. | Call the method, so the distance is the length of the projected position minus the projected cop, and project with it. | high, not executed | Frames.ProjectStep, Frames.FrameAsWrittenRaises | Frames.CopDistanceCalled, Frames.DistancePositive, Frames.GenerateFrame |
