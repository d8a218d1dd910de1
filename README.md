# cad-mockup tool-path core in Dafny

This project models the geometric core of the cad-mockup quoting tool, which
prices the cutting of a planar tool path on a CNC machine. The core is made of
five parts:

- **Builder.** The `ToolPath` constructor turns a decoded JSON document into
  a tool path: a vertex vector, line segments and circular arcs. It looks each
  field up with `GetRequired`.
- **Arc orientation.** While building, the constructor fixes which end of an
  arc comes first.
- **Bounding box.** `ComputeBounds` returns the size of the axis-aligned box
  around the path.
- **Travel heuristic.** `ComputeTravelHeuristic` returns the distance the tool
  travels.
- **Cost.** `ComputeCost` turns the bounds and the cut time into a price.

The model has these modules:

- `Numerics`: the `<cmath>`/`<limits>` constants and `std::min`/`std::max`.
  It also holds `MathLib`, a record of the C library functions `sqrt`,
  `acos`, `exp`, `atan2`, `cos` and `sin`, which every geometric operation
  receives as a parameter.
- `Vectors`: `Vector2` and its inline operations, over exact reals.
- `Machines`: the machine profile and the cost formula.
- `Documents`: the decoded document, the build errors and `GetRequired`.
  - A JSON field the builder asks for by type is a `Field`: missing,
    mistyped or given.
  - A field it only asks for by presence is an `Option`.
  - An object is a sequence of keyed entries in iteration order.
- `ToolPaths`: the tool path and its builder.
  - `Build` follows the constructor loop by loop: the vertex loop, the local
    `vertexIndexes` map, and the per-edge swap of `v0`/`v1`.
  - `Build` is proved equal to the functional specification `FromDocument`,
    which the lemmas reason about.
  - Edges refer to vertices by index, where the source stores pointers into
    the vertex vector.
- `Bounds`: the bounding box.
  - `BoundsBySampling` updates `minPoint` and `maxPoint` field by field, as
    the source does. It is proved to compute the fold `Cover` of one widening
    step over the points it takes in.
  - The run of cardinal directions each arc is sampled at is a parameter
    (`Cardinals`). `ComputeBounds` uses the source's run: 0, pi/2, pi and
    3pi/2. `CorrectedComputeBounds` uses the corrected run from -pi to 3pi
    (see Findings).
- `Travel`: `ComputeTravelHeuristic` accumulates `sumDistance` in two loops.
  It is proved equal to a sum of one term per edge.
- The arc helpers `Radius` and `Measurable` live in `ToolPaths`, because both
  the bounds and the heuristic use them.

## Model

| member | source | states |
|---|---|---|
| Documents.GetRequired | source/ToolPath.cpp:6-18 | succeeds exactly when the field is present with the requested type, returning its value; a missing field is FieldNotFound(name) and a mistyped one UnexpectedType(name), each if and only if |
| Documents.GetRequiredValue | source/ToolPath.cpp:19-25 | the untyped overload: succeeds exactly when the field is present, returning it; otherwise FieldNotFound(name), never a type error |
| ToolPaths.VertexPositions | source/ToolPath.cpp:32-39 | the vertex vector succeeds exactly when every vertex record has a Position; it then has one point per record, the i-th record's position at index i; otherwise the error is FieldNotFound("Position") |
| ToolPaths.VertexIndexes | source/ToolPath.cpp:31-35 | every key in the map points at a record with that key, below the record count; every record's key is in the map, at or after that record (a later duplicate wins) |
| ToolPaths.DeclaredKeyResolvesToItsIndex | source/ToolPath.cpp:32-34 | with distinct keys, the key of the i-th vertex record resolves to vertex i |
| ToolPaths.ResolveKey | source/ToolPath.cpp:49-50 | `vertexIndexes[key]` as a read: a declared key gives the index stored for it, an undeclared key gives 0, the value `operator[]` default-inserts, instead of an error; so the result is always 0 or one of the indexes the map holds |
| ToolPaths.UndeclaredKeyResolvesToZero | source/ToolPath.cpp:49-50 | a key no vertex record declares is not an error: the default-inserting map lookup resolves it to vertex 0 |
| ToolPaths.ResolveEdge | source/ToolPath.cpp:43-68 | one edge entry: on success the entry has Vertices; the edge is a line segment exactly when Type is "LineSegment" and an arc exactly when Type is "CircularArc" |
| ToolPaths.EdgeErrors | source/ToolPath.cpp:44-68 | the edge checks in order: no Vertices gives NoEdgeVertices; a missing or mistyped Type gives FieldNotFound/UnexpectedType("Type"); another tag gives UnknownEdgeType(tag); an arc without ClockwiseFrom gives FieldNotFound("ClockwiseFrom") even without a Center; an arc with ClockwiseFrom but no Center gives NoArcCenter; and an entry resolves exactly when none of these applies |
| ToolPaths.LineSegmentKeepsOrder | source/ToolPath.cpp:53-55 | a line segment stores the resolved Vertices[0] and Vertices[1] in the listed order |
| ToolPaths.ArcOrientation | source/ToolPath.cpp:56-65 | a complete arc keeps the listed order exactly when ClockwiseFrom equals Vertices[1], and is stored with its ends swapped otherwise |
| ToolPaths.ArcEndsAtClockwiseFrom | source/ToolPath.cpp:57-60 | when ClockwiseFrom names one of the two listed vertices, the stored arc ends at that vertex and starts at the other |
| ToolPaths.ArcListingOrderIrrelevant | source/ToolPath.cpp:57-60 | listing an arc's two vertex keys in the other order, with ClockwiseFrom naming the same vertex, builds the same arc |
| ToolPaths.CollectEdges | source/ToolPath.cpp:43-69 | the edge loop succeeds exactly when every entry resolves; it then holds as many line segments as entries tagged "LineSegment" and as many arcs as entries tagged "CircularArc" |
| ToolPaths.CollectEdgesFailurePersists | source/ToolPath.cpp:43-69 | once a prefix of the entries fails, the whole loop fails with the same error |
| ToolPaths.CollectEdgesFirstFailure | source/ToolPath.cpp:43-69 | a failing loop fails with the error of an entry all of whose predecessors resolve: the first failing entry |
| ToolPaths.CollectEdgesKeepsEveryEdge | source/ToolPath.cpp:53-65 | on success each entry's edge is in the list of its kind, and each listed edge is the edge of some entry |
| ToolPaths.CollectedIndicesBelow | source/ToolPath.cpp:49-50 | when every known key maps below n > 0, every collected edge refers to a vertex below n |
| ToolPaths.LoadVertices | source/ToolPath.cpp:31-39 | the vertex loop with its push_back and map insertion computes VertexPositions and, on success, VertexIndexes |
| ToolPaths.LoadEdge | source/ToolPath.cpp:44-68 | one iteration with the default-inserting lookups and the in-place swap computes ResolveEdge, and the map it leaves resolves every key as before |
| ToolPaths.LoadEdges | source/ToolPath.cpp:43-69 | the edge loop computes CollectEdges |
| ToolPaths.FromDocument | source/ToolPath.cpp:27-70 | a built tool path comes from a document that has both Vertices and Edges; it has one vertex per vertex record, and the i-th record's Position is the i-th vertex |
| ToolPaths.Build | source/ToolPath.cpp:27-70 | the constructor computes FromDocument: the tool path, or the first error in the order the constructor meets it |
| ToolPaths.BuildSucceedsIff | source/ToolPath.cpp:27-70 | a build succeeds exactly when Vertices is an object, every vertex has a Position, Edges is an object and every edge entry resolves |
| ToolPaths.BuildErrorOrder | source/ToolPath.cpp:27-70 | the document-level errors in order: Vertices missing or mistyped, then a missing Position, then Edges missing or mistyped, then the first failing edge entry's error |
| ToolPaths.BuildShape | source/ToolPath.cpp:32-69 | a built path has one vertex per vertex record with the i-th position at index i, one line segment per "LineSegment" entry, one arc per "CircularArc" entry, and exactly one edge per edge entry |
| ToolPaths.EveryTypeCounted | source/ToolPath.cpp:52-68 | when every edge entry resolves, each one is tagged "LineSegment" or "CircularArc" |
| ToolPaths.BuiltToolPathValid | source/ToolPath.cpp:49-50 | with at least one vertex, every edge of a built path refers to an existing vertex, undeclared keys included |
| ToolPaths.EdgesWithoutVerticesDangle | source/ToolPath.cpp:49-50 | with no vertex, a built path that has an edge refers to a vertex that does not exist |
| Vectors.Sub | source/Vector2.h:10-12 | v0 - v1 is the vector that, added to v1, gives v0 |
| Vectors.Add | source/Vector2.h:14-16 | subtracting either operand from v0 + v1 gives back the other operand |
| Vectors.Mul | source/Vector2.h:18-20 | each component of the product is zero exactly when one of its two factors is zero |
| Vectors.Div | source/Vector2.h:22-24 | the origin divided by any vector with non-zero components is the origin, and such a vector divided by itself is {1, 1} |
| Vectors.Dot | source/Vector2.h:26-28 | the dot product is 0 when either side is the origin |
| Vectors.Distance | source/Vector2.h:30-33 | the distance from a point to itself is sqrt(0) |
| Vectors.DivScalar | source/ToolPath.cpp:120-121 | dividing a vector by a radius is operator/ with that radius in both components |
| Vectors.Normalized | source/Vector2.h:35-39 | for a non-zero magnitude, each component of the result times Distance(v, zero) gives back the component of v |
| Vectors.ComponentWise | source/Vector2.h:10-24 | operator-, +, * and / compute the x component from the operands' x components alone, and the y component from their y components alone |
| Vectors.SubAddInverse | source/Vector2.h:10-16 | (v0 - v1) + v1 == v0 and (v0 + v1) - v1 == v0 |
| Vectors.DivMulInverse | source/Vector2.h:18-24 | dividing and then multiplying by the same vector with non-zero components gives back the original |
| Vectors.DotSymmetric | source/Vector2.h:26-28 | Dot(v0, v1) == Dot(v1, v0) |
| Vectors.DotSelf | source/Vector2.h:26-28 | Dot(v, v) is never negative, and is 0 at the origin |
| Vectors.DistanceSymmetric | source/Vector2.h:30-33 | the quantity under sqrt is the same for (v0, v1) and (v1, v0), so Distance is symmetric for any sqrt; it is 0 when v0 == v1 |
| Vectors.NormalizedIsUnit | source/Vector2.h:35-39 | when sqrt returns the positive root of the squared length, the normalised vector has squared length 1 |
| Machines.PaddedArea | source/MachineInfo.cpp:5 | the padded area is not negative when both padded sides are not |
| Machines.ComputeCost | source/MachineInfo.cpp:3-8 | the cost is not negative when the padded area, the cut time and both prices are not; it is 0 for zero area and zero cut time |
| Machines.CostMonotoneInCutTime | source/MachineInfo.cpp:7 | with a non-negative price per second, a longer cut never costs less |
| Machines.CostIndependentOfCutTime | source/MachineInfo.cpp:7 | with a zero price per second, the cut time does not change the cost |
| Machines.CostMonotoneInTimePrice | source/MachineInfo.cpp:7 | for a non-negative cut time, a higher price per second never lowers the cost |
| Machines.CostMonotoneInAreaPrice | source/MachineInfo.cpp:5-7 | for a non-negative padded area, a higher price per square inch never lowers the cost |
| Machines.CostMonotoneInPadding | source/MachineInfo.cpp:5-7 | with non-negative padded sides and area price, more padding never lowers the cost |
| Machines.ZeroCost | source/MachineInfo.cpp:5-7 | with both prices positive and a non-negative padded area and cut time, the cost is 0 exactly when the padded area and the cut time are both 0 |
| Bounds.CoverExtremes | source/ToolPath.cpp:104-144 | after the fold each corner coordinate has only moved outwards, lies beyond every point taken in, and equals its start value or the coordinate of one of the points |
| Bounds.CoverAppend | source/ToolPath.cpp:104-144 | taking in one sequence of points and then another is taking in their concatenation |
| Bounds.CoverBelow | source/ToolPath.cpp:104-144 | taking in a superset of points reaches at least as far on every corner coordinate |
| Bounds.CoverSameSet | source/ToolPath.cpp:104-144 | the corners depend only on the set of points taken in: not on their order or repetition |
| Bounds.LinearPoints | source/ToolPath.cpp:104-112 | the linear loop takes in exactly v0 and v1 of each segment, two points per segment |
| Bounds.LinearPointsMembers | source/ToolPath.cpp:104-112 | a point is taken in by the linear loop exactly when it is an endpoint of some segment |
| Bounds.SweepEnd | source/ToolPath.cpp:128-130 | the end angle is a1 or a1 + 2*pi; when a1 lies within a full turn of a0 (a0 - 2*pi < a1 <= a0 + 2*pi) the end lies strictly after a0 and at most a full turn past it |
| Bounds.SweepIncreasing | source/ToolPath.cpp:125-130 | for angles in atan2's range (-pi, pi], the normalised sweep has a0 < a1 <= a0 + 2*pi |
| Bounds.Clamp | source/ToolPath.cpp:135 | the clamped angle lies in [a0, a1]; an angle already inside is unchanged; one below gives a0 and one above gives a1 |
| Bounds.SampleAngles | source/ToolPath.cpp:133-135 | one angle per cardinal of the run, in order; for a0 <= a1 every angle lies in [a0, a1], a cardinal inside [a0, a1] is sampled as itself, one below a0 as a0 and one above a1 as a1; the source's run gives the four cardinals 0, pi/2, pi and 3pi/2 |
| Bounds.SourceSamplingMissesStart | source/ToolPath.cpp:133-135 | for the arc from -pi/4 to pi/4 the source's four samples never include the start angle |
| Bounds.SampleAnglesCoverArc | source/ToolPath.cpp:123-135 | for a normalised sweep the corrected samples start at a0, end at a1, stay inside [a0, a1] and include every cardinal direction the arc passes |
| Bounds.ArcSamples | source/ToolPath.cpp:119-138 | an arc contributes one point per cardinal of the run, four with the source's run, each the circle around the center at a sample angle; when cos^2 + sin^2 = 1, every point lies at distance Radius (Distance(center, v0)) from the center |
| Bounds.ArcPoints | source/ToolPath.cpp:114-145 | the arc loop contributes the points of every arc, arc by arc, and at least one run's worth once there is an arc |
| Bounds.ArcPointsFrom | source/ToolPath.cpp:114-145 | every point the arc loop takes in is a sample point of one of the arcs |
| Bounds.ArcSamplesIncluded | source/ToolPath.cpp:114-145 | every sample point of every arc is taken in by the arc loop |
| Bounds.ArcPointsSubset | source/ToolPath.cpp:114-145 | when every arc of one list is in another, every point the first contributes is contributed by the second |
| Bounds.ComputeBounds | source/ToolPath.cpp:100-148 | the bounds as written: the maximum corner minus the minimum corner of the fold, from the sentinel corners, over every segment endpoint and the four clamped cardinal points of every arc |
| Bounds.CorrectedComputeBounds | source/ToolPath.cpp:100-148 | the corrected bounds: the same two loops with each arc sampled at the cardinals from -pi to 3pi, clamped |
| Bounds.BoundsBySampling | source/ToolPath.cpp:100-148 | the two loops with their field-by-field min/max updates, for any run of cardinals, return the maximum corner minus the minimum corner of the fold over all points taken in |
| Bounds.TakeInArc | source/ToolPath.cpp:115-144 | one arc iteration, from the radius and the atan2 angles through `for(int i = 0; i < 4; ++i)` with the source's run, takes in exactly that arc's sample points |
| Bounds.TakeInPair | source/ToolPath.cpp:108-111 | the linear update with the min/max of both endpoints equals taking in v0 and then v1 |
| Bounds.BoundsNonNegative | source/ToolPath.cpp:100-147 | once there is an edge, the size is non-negative on both axes, for the source's sampling and for any other non-empty run |
| Bounds.EmptyToolPathBounds | source/ToolPath.cpp:100-147 | without edges the size is DBL_MIN - DBL_MAX on both axes, whatever the sampling |
| Bounds.BoundsIgnoreEdgeOrder | source/ToolPath.cpp:104-145 | two paths over the same vertices whose edge lists hold the same edges, in any order, have the same bounds, for the source's sampling and any other |
| Bounds.SingleSegmentBounds | source/ToolPath.cpp:100-112 | for one line segment the size on each axis is max(DBL_MIN, larger coordinate) - min(DBL_MAX, smaller coordinate) |
| Bounds.NegativeGeometryMeasuredFromZero | source/ToolPath.cpp:102 | when every point taken in lies left of the y axis, the maximum x is DBL_MIN, not the largest x of the geometry, for the source's sampling and any other |
| Bounds.QuarterArcGeometry | source/ToolPath.cpp:119-130 | for the quarter arc from (0, -1) to (1, 0) around the origin, with sqrt(1) = 1 and atan2 exact at its ends, the radius is 1 and the sweep runs from -pi/2 to 0 |
| Bounds.SourceBoundsMissArcStart | source/ToolPath.cpp:114-147 | on that quarter arc the bounds as written take in only (1, 0): the box leaves the start vertex (0, -1) outside and the size is {0, DBL_MIN} |
| Bounds.CorrectedBoundsKeepArcStart | source/ToolPath.cpp:114-147 | on the same arc the corrected sampling encloses both vertices and the size is {1, 1 + DBL_MIN} |
| Bounds.CorrectedBoundsTakeInArcEnds | source/ToolPath.cpp:123-145 | with atan2 in (-pi, pi], the corrected box of any path encloses, for every arc, its circle at the start angle and at the end of the sweep |
| Travel.ComputeTravelHeuristic | source/ToolPath.cpp:74-98 | the two accumulation loops return the sum of the line-segment distances plus the sum of the arc terms |
| Travel.TravelHeuristic | source/ToolPath.cpp:74-98 | the heuristic of a path without edges is 0 |
| Travel.ArcTerm | source/ToolPath.cpp:82-95 | an arc's term times exp(-1 / radius) is its angle times its radius: the arc length scaled by 1 / exp(-1 / radius) |
| Travel.EffectiveLength | source/ToolPath.cpp:89-93 | the effective length times exp(-1 / radius) gives back the arc length |
| Travel.SumAppend | source/ToolPath.cpp:75-97 | the sum over two edge lists one after the other is the sum of the two sums |
| Travel.SumPermutation | source/ToolPath.cpp:75-97 | the sum of per-edge terms does not depend on the order of the edges |
| Travel.LinearTravelPermutation | source/ToolPath.cpp:77-80 | reordering the line segments does not change their total distance |
| Travel.ArcTravelPermutation | source/ToolPath.cpp:82-95 | reordering the arcs does not change their total effective length |
| Travel.LinearTermDirectionFree | source/ToolPath.cpp:78 | a segment contributes the same distance whichever end is v0 |
| Travel.LinearTravelNonNegative | source/ToolPath.cpp:77-80 | with a sqrt that is never negative, the line-segment sum is never negative |
| Travel.ArcTravelNonNegative | source/ToolPath.cpp:82-95 | with sqrt and acos never negative and exp positive, the arc sum is never negative |
| Travel.EffectiveLengthNonNegative | source/ToolPath.cpp:89-93 | an arc length scaled by 1 / exp(...) is non-negative when its angle and radius are and exp is positive |
| Travel.QuarterArcTravel | source/ToolPath.cpp:82-95 | the unit quarter circle from (1, 0) to (0, 1) contributes (pi/2) / exp(-1), given sqrt(1) = 1 and acos(0) = pi/2 |

## Left out

- Decoding is not modelled. JSON parsing, picojson's `contains`/`get`/`is`, and `ParseVector`/`ParseVertex` (source/JsonSerialization.cpp) are left out. Positions and centers arrive already decoded as `Vector2`. An error that `ParseVector` might raise is not modelled.
- An edge's `Vertices` array is assumed to hold at least two string keys (`ListsTwoVertices`). The source reads `[0]` and `[1]` and calls `to_str()` without checking the array; a shorter array or a non-string element is outside the model.
- `ClockwiseFrom` is compared with `Vertices[1]` as a JSON value. The model keeps only whether it is a string and which key it holds (`JsonRef`).
- JSON objects are iterated in the order of their keys. The model takes entries in whatever order the object yields them and does not assume sorted keys. `DeclaredKeyResolvesToItsIndex` assumes distinct keys, which a JSON object has.
- Floating point is replaced by exact reals. Rounding, infinities, NaN, signed zero and integer width are not modelled. As a result `atan2` is taken to return values in (-pi, pi] and never -pi.
- `sqrt`, `acos`, `exp`, `atan2`, `cos` and `sin` are uninterpreted. They are parameters of type `MathLib`. No arc length, angle or extremum is computed numerically. Lemmas that need a value of one of them name it as a hypothesis.
- Vectors.Div and Vectors.DivScalar require non-zero divisors. For an arc, this means a non-zero radius (`Measurable`). The source divides by a zero radius in floating point; that case is out of the model.
- Travel.ArcTerm requires `exp(-1 / radius)` to be non-zero. That always holds for the real `exp`, but `exp` is uninterpreted here.
- Vectors.DotSelf states only that `Dot(v, v)` is non-negative and zero at the origin. It does not state the converse (zero only at the origin).
- Raw pointers into `m_vertices` become indices. Pointer stability is not modelled: the source relies on every vertex being pushed before any edge takes an address.
- The constructor cannot fail in Dafny, so it becomes `ToolPaths.Build`, which returns a `Result`. A thrown exception becomes `Failure`, so no tool path is produced.
- No caller in the source computes the cut time: `ComputeCost` takes it as a parameter, and so does `Machines.ComputeCost`. source/main.cpp only checks its arguments, reads and decodes the file and prints it; it is not part of this model.
- source/ToolPath.h and source/MachineInfo.h hold no logic. `MachineInfo` is the record `Machines.MachineInfo`.
- The heuristic uses `acos` of the dot product, which lies in [0, pi]. It therefore cannot tell a minor arc from a major one, unlike the bounds computation. The model keeps this as written.
- Behaviour kept as the code has it:
  - An arc's ends are swapped when `Vertices[1]` differs from `ClockwiseFrom`, and kept when they are equal.
  - An undeclared vertex key does not fail: `operator[]` resolves it to vertex 0. With no vertices, that index does not exist (`EdgesWithoutVerticesDangle`).
  - A missing arc `Center` fails with its own error (`NoArcCenter`), which differs from the missing-field error of the other fields.
  - `Vector2.h` declares no vector-by-scalar division, although the bounds and heuristic code divide a vector by the radius. `DivScalar` models the evident meaning: divide both components.

## Findings

| source | as written | input that shows it | evidently intended | confidence | as-written member | corrected member |
|---|---|---|---|---|---|---|
| source/ToolPath.cpp:133-135 | each arc samples only the cardinal angles 0, pi/2, pi and 3pi/2, clamped to [a0, a1]; the start angle a0 is sampled only when some cardinal lies at or below it, which never happens for a0 < 0, and cardinals above 3pi/2 in the swept range are skipped | the arc from angle -pi/4 to pi/4 gives samples 0, pi/4, pi/4, pi/4 (`SourceSamplingMissesStart`); the quarter arc around the origin from (0, -1) to (1, 0) gives four samples at angle 0, so the box holds only (1, 0) and leaves the start vertex outside (`SourceBoundsMissArcStart`) | every cardinal direction the arc passes plus both ends of the arc: the cardinals from -pi to 3pi, clamped (`SampleAnglesCoverArc`, `CorrectedBoundsKeepArcStart`, `CorrectedComputeBounds`) | not executed | Bounds.SourceBoundsMissArcStart | Bounds.CorrectedBoundsTakeInArcEnds |
