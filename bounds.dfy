/**
 * ToolPath::ComputeBounds of source/ToolPath.cpp: the size of the axis-aligned
 * box around the endpoints of the linear edges and sample points of the arcs.
 *
 * The specification is a fold (Cover) of one widening step over a sequence of
 * points (AllPoints); the method ComputeBounds walks the edges and updates the
 * two corners field by field, and is proved to compute that fold.
 */
module Bounds {
  import opened Numerics
  import opened Vectors
  import opened ToolPaths

  /** The running corners minPoint and maxPoint. */
  datatype Box = Box(minPoint: Vector2, maxPoint: Vector2)

  /**
   * The starting corners: DBL_MAX for the minimum and DBL_MIN for the maximum.
   * DBL_MIN is positive, so the maximum corner never drops below it.
   */
  const Sentinel: Box := Box(Vector2(DblMax, DblMax), Vector2(DblMin, DblMin))

  predicate Encloses(b: Box, p: Vector2)
  {
    b.minPoint.x <= p.x <= b.maxPoint.x && b.minPoint.y <= p.y <= b.maxPoint.y
  }

  /** One accumulation step: each corner coordinate moves to take in p. */
  function Widen(b: Box, p: Vector2): Box
  {
    Box(Vector2(Min(b.minPoint.x, p.x), Min(b.minPoint.y, p.y)),
        Vector2(Max(b.maxPoint.x, p.x), Max(b.maxPoint.y, p.y)))
  }

  /** The corners after taking in every point of ps, one at a time, starting from b. */
  function Cover(b: Box, ps: seq<Vector2>): Box
  {
    if ps == [] then b
    else Widen(Cover(b, ps[..|ps| - 1]), ps[|ps| - 1])
  }

  /**
   * Each corner coordinate only moves outwards, ends up beyond every point
   * taken in, and is either its start value or the coordinate of one of the
   * points.
   */
  lemma {:induction false} CoverExtremes(b: Box, ps: seq<Vector2>)
    ensures var r := Cover(b, ps);
      && (forall i :: 0 <= i < |ps| ==> Encloses(r, ps[i]))
      && r.minPoint.x <= b.minPoint.x && r.minPoint.y <= b.minPoint.y
      && r.maxPoint.x >= b.maxPoint.x && r.maxPoint.y >= b.maxPoint.y
      && (r.minPoint.x == b.minPoint.x || exists i :: 0 <= i < |ps| && r.minPoint.x == ps[i].x)
      && (r.minPoint.y == b.minPoint.y || exists i :: 0 <= i < |ps| && r.minPoint.y == ps[i].y)
      && (r.maxPoint.x == b.maxPoint.x || exists i :: 0 <= i < |ps| && r.maxPoint.x == ps[i].x)
      && (r.maxPoint.y == b.maxPoint.y || exists i :: 0 <= i < |ps| && r.maxPoint.y == ps[i].y)
  {
    if ps != [] {
      var init := ps[..|ps| - 1];
      CoverExtremes(b, init);
      assert forall i :: 0 <= i < |init| ==> init[i] == ps[i];
    }
  }

  /** Taking in ps and then qs is taking in ps + qs. */
  lemma {:induction false} CoverAppend(b: Box, ps: seq<Vector2>, qs: seq<Vector2>)
    ensures Cover(b, ps + qs) == Cover(Cover(b, ps), qs)
  {
    if qs == [] {
      assert ps + qs == ps;
    } else {
      var init := qs[..|qs| - 1];
      CoverAppend(b, ps, init);
      assert (ps + qs)[..|ps + qs| - 1] == ps + init;
    }
  }

  /**
   * The corners depend only on the set of points taken in: not on their order,
   * nor on how often each occurs.
   */
  lemma CoverSameSet(b: Box, ps: seq<Vector2>, qs: seq<Vector2>)
    requires forall p :: p in ps <==> p in qs
    ensures Cover(b, ps) == Cover(b, qs)
  {
    CoverBelow(b, ps, qs);
    CoverBelow(b, qs, ps);
  }

  /** When every point of ps is in qs, taking in qs reaches at least as far. */
  lemma CoverBelow(b: Box, ps: seq<Vector2>, qs: seq<Vector2>)
    requires forall p :: p in ps ==> p in qs
    ensures Cover(b, qs).minPoint.x <= Cover(b, ps).minPoint.x
    ensures Cover(b, qs).minPoint.y <= Cover(b, ps).minPoint.y
    ensures Cover(b, qs).maxPoint.x >= Cover(b, ps).maxPoint.x
    ensures Cover(b, qs).maxPoint.y >= Cover(b, ps).maxPoint.y
  {
    var r, s := Cover(b, ps), Cover(b, qs);
    CoverExtremes(b, ps);
    CoverExtremes(b, qs);
    forall i | 0 <= i < |ps|
      ensures Encloses(s, ps[i])
    {
      assert ps[i] in ps;
      var j :| 0 <= j < |qs| && qs[j] == ps[i];
      assert Encloses(s, qs[j]);
    }
  }


  // ---------------------------------------------------------------------------
  // The points that ComputeBounds takes in

  /** The endpoints of the linear edges, v0 then v1 for each edge in order. */
  function LinearPoints(vs: seq<Vector2>, es: seq<LinearEdge>): (r: seq<Vector2>)
    requires LinearEdgesIn(|vs|, es)
    ensures |r| == 2 * |es|
    ensures forall i :: 0 <= i < |es| ==> r[2 * i] == vs[es[i].v0] && r[2 * i + 1] == vs[es[i].v1]
  {
    if es == [] then []
    else
      var e := es[|es| - 1];
      LinearPoints(vs, es[..|es| - 1]) + [vs[e.v0], vs[e.v1]]
  }

  /** A point is taken in for the linear edges exactly when it is an endpoint of one of them. */
  lemma LinearPointsMembers(vs: seq<Vector2>, es: seq<LinearEdge>, p: Vector2)
    requires LinearEdgesIn(|vs|, es)
    ensures p in LinearPoints(vs, es) <==> exists e :: e in es && (p == vs[e.v0] || p == vs[e.v1])
  {
    var r := LinearPoints(vs, es);
    if p in r {
      var k :| 0 <= k < |r| && r[k] == p;
      var i := k / 2;
      assert k == 2 * i || k == 2 * i + 1;
      assert es[i] in es;
    }
    if exists e :: e in es && (p == vs[e.v0] || p == vs[e.v1]) {
      var e :| e in es && (p == vs[e.v0] || p == vs[e.v1]);
      var i :| 0 <= i < |es| && es[i] == e;
      assert r[2 * i] == vs[e.v0] && r[2 * i + 1] == vs[e.v1];
    }
  }

  /** When every edge of one list is in another, so is every endpoint taken in for it. */
  lemma LinearPointsSubset(vs: seq<Vector2>, es: seq<LinearEdge>, others: seq<LinearEdge>)
    requires LinearEdgesIn(|vs|, es) && LinearEdgesIn(|vs|, others)
    requires forall e :: e in es ==> e in others
    ensures forall p :: p in LinearPoints(vs, es) ==> p in LinearPoints(vs, others)
  {
    forall p | p in LinearPoints(vs, es)
      ensures p in LinearPoints(vs, others)
    {
      LinearPointsMembers(vs, es, p);
      LinearPointsMembers(vs, others, p);
    }
  }

  /** The angle of v relative to the arc's center, from atan2 of the scaled offset. */
  function AngleOf(m: MathLib, vs: seq<Vector2>, a: ArcEdge, v: Vector2): real
    requires Measurable(m, vs, a)
  {
    var arcLine := DivScalar(Sub(v, a.center), Radius(m, vs, a));
    m.atan2(arcLine.y, arcLine.x)
  }

  /** The end angle moved up by a full turn when it does not exceed the start angle. */
  function SweepEnd(a0: real, a1: real): (r: real)
    ensures r == a1 || r == a1 + 2.0 * Pi
    ensures a0 - 2.0 * Pi < a1 <= a0 + 2.0 * Pi ==> a0 < r <= a0 + 2.0 * Pi
  {
    if a1 <= a0 then a1 + 2.0 * Pi else a1
  }

  /** With both angles in atan2's range (-pi, pi], the normalised sweep runs forwards by at most a full turn. */
  lemma SweepIncreasing(a0: real, a1: real)
    requires -Pi < a0 <= Pi && -Pi < a1 <= Pi
    ensures a0 < SweepEnd(a0, a1) <= a0 + 2.0 * Pi
  {
  }

  /** std::min(a1, std::max(a0, theta)). */
  function Clamp(theta: real, a0: real, a1: real): (r: real)
    ensures a0 <= a1 ==> a0 <= r <= a1
    ensures a0 <= theta <= a1 ==> r == theta
    ensures theta < a0 <= a1 ==> r == a0
    ensures a0 <= a1 < theta ==> r == a1
  {
    Min(a1, Max(a0, theta))
  }

  /** The cardinal direction k quarter turns from the positive x axis. */
  function Cardinal(k: int): real
  {
    HalfPi * (k as real)
  }

  /**
   * A run of cardinal directions for the arc loop to sample: count quarter
   * turns, starting first quarter turns from the positive x axis.
   */
  datatype Cardinals = Cardinals(first: int, count: nat)

  /** The run the source samples, M_PI_2 * i for i = 0 .. 3: the directions 0, pi/2, pi and 3pi/2. */
  const SourceCardinals: Cardinals := Cardinals(0, 4)

  /** The corrected run: the nine directions -pi, -pi/2, ..., 3pi. */
  const CorrectedCardinals: Cardinals := Cardinals(-2, 9)

  /** The angles sampled for the arc from a0 to a1: each cardinal of the run, in order, clamped to [a0, a1]. */
  function SampleAngles(c: Cardinals, a0: real, a1: real): (r: seq<real>)
    ensures |r| == c.count
    ensures forall i :: 0 <= i < c.count ==> r[i] == Clamp(Cardinal(c.first + i), a0, a1)
    ensures a0 <= a1 ==> forall i :: 0 <= i < c.count ==> a0 <= r[i] <= a1
    ensures forall i :: 0 <= i < c.count && a0 <= Cardinal(c.first + i) <= a1 ==> r[i] == Cardinal(c.first + i)
    ensures forall i :: 0 <= i < c.count && Cardinal(c.first + i) < a0 <= a1 ==> r[i] == a0
    ensures forall i :: 0 <= i < c.count && a0 <= a1 < Cardinal(c.first + i) ==> r[i] == a1
  {
    var r := seq(c.count, i requires 0 <= i < c.count => Clamp(Cardinal(c.first + i), a0, a1));
    assert forall i :: 0 <= i < c.count ==> r[i] == Clamp(Cardinal(c.first + i), a0, a1);
    r
  }

  /**
   * With the arc from -pi/4 to pi/4, the source samples only the angles 0 and
   * pi/4: the start of the arc, its lowest point, is never taken in.
   */
  lemma SourceSamplingMissesStart()
    ensures var a0, a1 := -Pi / 4.0, Pi / 4.0;
      a0 < a1 && SweepEnd(a0, a1) == a1 && a0 !in SampleAngles(SourceCardinals, a0, a1)
  {
    var a0, a1 := -Pi / 4.0, Pi / 4.0;
    var r := SampleAngles(SourceCardinals, a0, a1);
    assert r[0] == 0.0 && r[1] == a1 && r[2] == a1 && r[3] == a1;
    assert r == [0.0, a1, a1, a1];
  }

  /**
   * For a normalised sweep the corrected samples are the two ends of the arc
   * and every cardinal direction the arc passes, and nothing outside the arc:
   * since a0 > -pi and the sweep ends before 3pi, the first cardinal clamps to
   * a0 and the last to the end.
   */
  lemma SampleAnglesCoverArc(a0: real, a1: real)
    requires -Pi < a0 <= Pi && -Pi < a1 <= Pi
    ensures var s := SampleAngles(CorrectedCardinals, a0, SweepEnd(a0, a1));
      && s[0] == a0 && s[8] == SweepEnd(a0, a1)
      && (forall t :: t in s ==> a0 <= t <= SweepEnd(a0, a1))
      && (forall k :: -2 <= k <= 6 && a0 <= Cardinal(k) <= SweepEnd(a0, a1) ==> Cardinal(k) in s)
  {
    var e := SweepEnd(a0, a1);
    var s := SampleAngles(CorrectedCardinals, a0, e);
    SweepIncreasing(a0, a1);
    assert Cardinal(-2) == -Pi < a0;
    assert Cardinal(6) == 3.0 * Pi && e <= a0 + 2.0 * Pi <= 3.0 * Pi;
    forall k | -2 <= k <= 6 && a0 <= Cardinal(k) <= e
      ensures Cardinal(k) in s
    {
      assert s[k + 2] == Cardinal(k);
    }
  }

  /** The offset {cos(theta) * radius, sin(theta) * radius} from the center, the angleVector of the loop. */
  function AngleVector(m: MathLib, theta: real, radius: real): Vector2
  {
    Vector2(m.cos(theta) * radius, m.sin(theta) * radius)
  }

  /** The point at angle theta on the circle of the given radius around center. */
  function PointAt(m: MathLib, center: Vector2, radius: real, theta: real): Vector2
  {
    Add(center, AngleVector(m, theta, radius))
  }

  /** The points taken in for one arc: its circle at each sample angle of the run c. */
  function ArcSamples(m: MathLib, vs: seq<Vector2>, a: ArcEdge, c: Cardinals): (r: seq<Vector2>)
    requires Measurable(m, vs, a)
    ensures |r| == c.count
    ensures var a0 := AngleOf(m, vs, a, vs[a.v0]);
      var angles := SampleAngles(c, a0, SweepEnd(a0, AngleOf(m, vs, a, vs[a.v1])));
      forall i :: 0 <= i < c.count ==> r[i] == PointAt(m, a.center, Radius(m, vs, a), angles[i])
    ensures UnitCircle(m) ==> forall i :: 0 <= i < |r| ==> OnCircle(a.center, Radius(m, vs, a), r[i])
  {
    var a0 := AngleOf(m, vs, a, vs[a.v0]);
    var angles := SampleAngles(c, a0, SweepEnd(a0, AngleOf(m, vs, a, vs[a.v1])));
    PointsOnCircle(m, a.center, Radius(m, vs, a), angles);
    seq(c.count, i requires 0 <= i < c.count => PointAt(m, a.center, Radius(m, vs, a), angles[i]))
  }

  /** cos and sin satisfy cos(t)^2 + sin(t)^2 = 1 at every angle t. */
  ghost predicate UnitCircle(m: MathLib)
  {
    forall t :: m.cos(t) * m.cos(t) + m.sin(t) * m.sin(t) == 1.0
  }

  /** p lies at the given radius from center: its squared distance is the squared radius. */
  predicate OnCircle(center: Vector2, radius: real, p: Vector2)
  {
    Dot(Sub(p, center), Sub(p, center)) == radius * radius
  }

  /** Where cos and sin satisfy cos^2 + sin^2 = 1, the point at each angle lies on the circle. */
  lemma PointsOnCircle(m: MathLib, center: Vector2, radius: real, angles: seq<real>)
    ensures UnitCircle(m) ==> forall i :: 0 <= i < |angles| ==> OnCircle(center, radius, PointAt(m, center, radius, angles[i]))
  {
    if UnitCircle(m) {
      forall i | 0 <= i < |angles|
        ensures OnCircle(center, radius, PointAt(m, center, radius, angles[i]))
      {
        var co, si := m.cos(angles[i]), m.sin(angles[i]);
        var d := Sub(PointAt(m, center, radius, angles[i]), center);
        assert d == Vector2(co * radius, si * radius);
        calc {
          Dot(d, d);
          (co * radius) * (co * radius) + (si * radius) * (si * radius);
          (co * co + si * si) * (radius * radius);
          { assert co * co + si * si == 1.0; }
          radius * radius;
        }
      }
    }
  }

  /** The sample points of every arc, arc by arc. */
  function ArcPoints(m: MathLib, vs: seq<Vector2>, arcs: seq<ArcEdge>, c: Cardinals): (r: seq<Vector2>)
    requires ArcsMeasurable(m, vs, arcs)
    ensures arcs != [] ==> |r| >= c.count
  {
    if arcs == [] then []
    else ArcPoints(m, vs, arcs[..|arcs| - 1], c) + ArcSamples(m, vs, arcs[|arcs| - 1], c)
  }

  /** Every point taken in for the arcs is a sample point of one of them. */
  lemma {:induction false} ArcPointsFrom(m: MathLib, vs: seq<Vector2>, arcs: seq<ArcEdge>, c: Cardinals, p: Vector2)
    requires ArcsMeasurable(m, vs, arcs) && p in ArcPoints(m, vs, arcs, c)
    ensures exists i :: 0 <= i < |arcs| && p in ArcSamples(m, vs, arcs[i], c)
  {
    var init := arcs[..|arcs| - 1];
    if p in ArcPoints(m, vs, init, c) {
      ArcPointsFrom(m, vs, init, c, p);
      var i :| 0 <= i < |init| && p in ArcSamples(m, vs, init[i], c);
      assert init[i] == arcs[i];
    } else {
      assert p in ArcSamples(m, vs, arcs[|arcs| - 1], c);
    }
  }

  /** Every sample point of every arc is taken in. */
  lemma {:induction false} ArcSamplesIncluded(m: MathLib, vs: seq<Vector2>, arcs: seq<ArcEdge>, c: Cardinals, i: nat)
    requires ArcsMeasurable(m, vs, arcs) && i < |arcs|
    ensures forall p :: p in ArcSamples(m, vs, arcs[i], c) ==> p in ArcPoints(m, vs, arcs, c)
  {
    var init := arcs[..|arcs| - 1];
    if i < |init| {
      ArcSamplesIncluded(m, vs, init, c, i);
      assert init[i] == arcs[i];
    }
  }

  /** When every arc of one list is in another, so is every point taken in for it. */
  lemma ArcPointsSubset(m: MathLib, vs: seq<Vector2>, arcs: seq<ArcEdge>, others: seq<ArcEdge>, c: Cardinals)
    requires ArcsMeasurable(m, vs, arcs) && ArcsMeasurable(m, vs, others)
    requires forall a :: a in arcs ==> a in others
    ensures forall p :: p in ArcPoints(m, vs, arcs, c) ==> p in ArcPoints(m, vs, others, c)
  {
    forall p | p in ArcPoints(m, vs, arcs, c)
      ensures p in ArcPoints(m, vs, others, c)
    {
      ArcPointsFrom(m, vs, arcs, c, p);
      var i :| 0 <= i < |arcs| && p in ArcSamples(m, vs, arcs[i], c);
      assert arcs[i] in arcs;
      var j :| 0 <= j < |others| && others[j] == arcs[i];
      ArcSamplesIncluded(m, vs, others, c, j);
    }
  }

  /** Every point taken in when the arcs are sampled along the run c, linear edges first. */
  function AllPoints(m: MathLib, tp: ToolPath, c: Cardinals): seq<Vector2>
    requires tp.Valid() && ArcsMeasurable(m, tp.vertices, tp.arcEdges)
  {
    LinearPoints(tp.vertices, tp.linearEdges) + ArcPoints(m, tp.vertices, tp.arcEdges, c)
  }

  /** The size returned: the maximum corner minus the minimum corner of the fold over AllPoints. */
  function BoundsOf(m: MathLib, tp: ToolPath, c: Cardinals): Vector2
    requires tp.Valid() && ArcsMeasurable(m, tp.vertices, tp.arcEdges)
  {
    var b := Cover(Sentinel, AllPoints(m, tp, c));
    Sub(b.maxPoint, b.minPoint)
  }

  // ---------------------------------------------------------------------------
  // The imperative loop

  /**
   * ComputeBounds as written: the arcs are sampled at the cardinal directions
   * 0, pi/2, pi and 3pi/2, each clamped to the arc.
   */
  method ComputeBounds(tp: ToolPath, m: MathLib) returns (size: Vector2)
    requires tp.Valid() && ArcsMeasurable(m, tp.vertices, tp.arcEdges)
    ensures size == BoundsOf(m, tp, SourceCardinals)
  {
    size := BoundsBySampling(tp, m, SourceCardinals);
  }

  /**
   * ComputeBounds with the corrected sampling: the cardinal directions from
   * -pi to 3pi, so that both ends of every arc are taken in.
   */
  method CorrectedComputeBounds(tp: ToolPath, m: MathLib) returns (size: Vector2)
    requires tp.Valid() && ArcsMeasurable(m, tp.vertices, tp.arcEdges)
    ensures size == BoundsOf(m, tp, CorrectedCardinals)
  {
    size := BoundsBySampling(tp, m, CorrectedCardinals);
  }

  /**
   * The body of ComputeBounds for a run c of cardinals: one pass over the
   * linear edges taking in both endpoints, then one pass over the arcs taking
   * in the circle at each clamped cardinal angle; the result is the maximum
   * corner minus the minimum corner.
   */
  method BoundsBySampling(tp: ToolPath, m: MathLib, c: Cardinals) returns (size: Vector2)
    requires tp.Valid() && ArcsMeasurable(m, tp.vertices, tp.arcEdges)
    ensures size == BoundsOf(m, tp, c)
  {
    var vs := tp.vertices;
    var minPoint := Vector2(DblMax, DblMax);
    var maxPoint := Vector2(DblMin, DblMin);

    for i := 0 to |tp.linearEdges|
      invariant Box(minPoint, maxPoint) == Cover(Sentinel, LinearPoints(vs, tp.linearEdges[..i]))
    {
      var edge := tp.linearEdges[i];
      var v0, v1 := vs[edge.v0], vs[edge.v1];
      ghost var before := Box(minPoint, maxPoint);
      minPoint := minPoint.(x := Min(minPoint.x, Min(v0.x, v1.x)));
      minPoint := minPoint.(y := Min(minPoint.y, Min(v0.y, v1.y)));
      maxPoint := maxPoint.(x := Max(maxPoint.x, Max(v0.x, v1.x)));
      maxPoint := maxPoint.(y := Max(maxPoint.y, Max(v0.y, v1.y)));
      TakeInPair(before, v0, v1);
      assert Box(minPoint, maxPoint) == Cover(before, [v0, v1]);
      LinearPointsStep(vs, tp.linearEdges, i);
      CoverAppend(Sentinel, LinearPoints(vs, tp.linearEdges[..i]), [v0, v1]);
    }
    assert tp.linearEdges[..|tp.linearEdges|] == tp.linearEdges;
    ghost var linearPoints := LinearPoints(vs, tp.linearEdges);
    ghost var linearBox := Box(minPoint, maxPoint);

    for j := 0 to |tp.arcEdges|
      invariant Box(minPoint, maxPoint) == Cover(linearBox, ArcPoints(m, vs, tp.arcEdges[..j], c))
    {
      var edge := tp.arcEdges[j];
      assert Measurable(m, vs, edge);
      ghost var samples := ArcSamples(m, vs, edge, c);
      var box := TakeInArc(m, vs, edge, Box(minPoint, maxPoint), c);
      minPoint, maxPoint := box.minPoint, box.maxPoint;
      ArcPointsStep(m, vs, tp.arcEdges, c, j);
      CoverAppend(linearBox, ArcPoints(m, vs, tp.arcEdges[..j], c), samples);
    }
    assert tp.arcEdges[..|tp.arcEdges|] == tp.arcEdges;
    CoverAppend(Sentinel, linearPoints, ArcPoints(m, vs, tp.arcEdges, c));

    size := Sub(maxPoint, minPoint);
  }

  /** One more linear edge adds its two endpoints. */
  lemma LinearPointsStep(vs: seq<Vector2>, es: seq<LinearEdge>, i: nat)
    requires LinearEdgesIn(|vs|, es) && i < |es|
    ensures LinearPoints(vs, es[..i + 1]) == LinearPoints(vs, es[..i]) + [vs[es[i].v0], vs[es[i].v1]]
  {
    assert es[..i + 1][..i] == es[..i];
  }

  /** One more arc adds its sample points, after everything taken in before it. */
  lemma ArcPointsStep(m: MathLib, vs: seq<Vector2>, arcs: seq<ArcEdge>, c: Cardinals, j: nat)
    requires ArcsMeasurable(m, vs, arcs) && j < |arcs|
    ensures ArcPoints(m, vs, arcs[..j + 1], c) == ArcPoints(m, vs, arcs[..j], c) + ArcSamples(m, vs, arcs[j], c)
  {
    assert arcs[..j + 1][..j] == arcs[..j];
  }

  /**
   * The body of the arc loop: the corners after taking in the circle at each
   * clamped cardinal angle of the run c for one arc.
   */
  method TakeInArc(m: MathLib, vs: seq<Vector2>, edge: ArcEdge, box: Box, c: Cardinals) returns (r: Box)
    requires Measurable(m, vs, edge)
    ensures r == Cover(box, ArcSamples(m, vs, edge, c))
  {
    var minPoint, maxPoint := box.minPoint, box.maxPoint;
    var v0, v1 := vs[edge.v0], vs[edge.v1];
    var center := edge.center;

    var radius := Distance(m.sqrt, center, v0);
    var arcLine0 := DivScalar(Sub(v0, center), radius);
    var arcLine1 := DivScalar(Sub(v1, center), radius);

    var a0 := m.atan2(arcLine0.y, arcLine0.x);
    var a1 := m.atan2(arcLine1.y, arcLine1.x);
    if a1 <= a0 {
      a1 := a1 + 2.0 * Pi;
    }

    assert radius == Radius(m, vs, edge);
    assert a0 == AngleOf(m, vs, edge, v0);
    assert a1 == SweepEnd(a0, AngleOf(m, vs, edge, v1));
    ghost var samples := ArcSamples(m, vs, edge, c);
    for i := 0 to c.count
      invariant Box(minPoint, maxPoint) == Cover(box, samples[..i])
    {
      var theta := HalfPi * ((c.first + i) as real);
      theta := Min(a1, Max(a0, theta));
      var angleVector := AngleVector(m, theta, radius);
      var arcPoint := Add(center, angleVector);
      ghost var before := Box(minPoint, maxPoint);
      minPoint := minPoint.(x := Min(minPoint.x, arcPoint.x));
      minPoint := minPoint.(y := Min(minPoint.y, arcPoint.y));
      maxPoint := maxPoint.(x := Max(maxPoint.x, arcPoint.x));
      maxPoint := maxPoint.(y := Max(maxPoint.y, arcPoint.y));
      assert Box(minPoint, maxPoint) == Widen(before, arcPoint);
      ArcSampleAt(m, vs, edge, c, i);
      assert samples[i] == arcPoint;
      CoverStep(box, samples, i);
    }
    assert samples[..c.count] == samples;
    r := Box(minPoint, maxPoint);
  }

  /** The i-th sample point of an arc is its circle at the i-th cardinal of the run, clamped to the sweep. */
  lemma ArcSampleAt(m: MathLib, vs: seq<Vector2>, a: ArcEdge, c: Cardinals, i: nat)
    requires Measurable(m, vs, a) && i < c.count
    ensures var a0 := AngleOf(m, vs, a, vs[a.v0]);
      var a1 := SweepEnd(a0, AngleOf(m, vs, a, vs[a.v1]));
      ArcSamples(m, vs, a, c)[i] == PointAt(m, a.center, Radius(m, vs, a), Min(a1, Max(a0, HalfPi * ((c.first + i) as real))))
  {
  }

  /** Taking in one more point of ps widens the box by that point. */
  lemma CoverStep(b: Box, ps: seq<Vector2>, n: nat)
    requires n < |ps|
    ensures Cover(b, ps[..n + 1]) == Widen(Cover(b, ps[..n]), ps[n])
  {
    assert ps[..n + 1][..n] == ps[..n];
  }

  /** The linear step, which takes in the smaller and larger of two coordinates at once, takes in both points. */
  lemma TakeInPair(b: Box, v0: Vector2, v1: Vector2)
    ensures Cover(b, [v0, v1]) == Box(
      Vector2(Min(b.minPoint.x, Min(v0.x, v1.x)), Min(b.minPoint.y, Min(v0.y, v1.y))),
      Vector2(Max(b.maxPoint.x, Max(v0.x, v1.x)), Max(b.maxPoint.y, Max(v0.y, v1.y))))
  {
    assert [v0, v1][..1] == [v0];
    assert [v0][..0] == [];
    assert Cover(b, [v0]) == Widen(b, v0);
    assert Cover(b, [v0, v1]) == Widen(Widen(b, v0), v1);
  }

  // ---------------------------------------------------------------------------
  // Properties of the result, for the sampling as written and the corrected one

  /** Once there is an edge and the run samples at least one angle, the box has a non-negative extent on each axis. */
  lemma BoundsNonNegative(m: MathLib, tp: ToolPath, c: Cardinals)
    requires tp.Valid() && ArcsMeasurable(m, tp.vertices, tp.arcEdges)
    requires tp.EdgeCount() > 0 && c.count > 0
    ensures BoundsOf(m, tp, c).x >= 0.0 && BoundsOf(m, tp, c).y >= 0.0
  {
    var ps := AllPoints(m, tp, c);
    assert |ps| > 0;
    CoverExtremes(Sentinel, ps);
    assert Encloses(Cover(Sentinel, ps), ps[0]);
  }

  /** Without edges the result is DBL_MIN - DBL_MAX on both axes. */
  lemma EmptyToolPathBounds(m: MathLib, tp: ToolPath, c: Cardinals)
    requires tp.Valid() && tp.EdgeCount() == 0
    ensures BoundsOf(m, tp, c) == Vector2(DblMin - DblMax, DblMin - DblMax)
  {
    assert AllPoints(m, tp, c) == [];
  }

  /**
   * Two tool paths over the same vertices whose edge lists hold the same edges,
   * in any order and with any repetition, have the same bounds.
   */
  lemma BoundsIgnoreEdgeOrder(m: MathLib, tp: ToolPath, tq: ToolPath, c: Cardinals)
    requires tp.Valid() && ArcsMeasurable(m, tp.vertices, tp.arcEdges)
    requires tq.Valid() && ArcsMeasurable(m, tq.vertices, tq.arcEdges)
    requires tp.vertices == tq.vertices
    requires forall e :: e in tp.linearEdges <==> e in tq.linearEdges
    requires forall a :: a in tp.arcEdges <==> a in tq.arcEdges
    ensures BoundsOf(m, tp, c) == BoundsOf(m, tq, c)
  {
    var vs := tp.vertices;
    LinearPointsSubset(vs, tp.linearEdges, tq.linearEdges);
    LinearPointsSubset(vs, tq.linearEdges, tp.linearEdges);
    ArcPointsSubset(m, vs, tp.arcEdges, tq.arcEdges, c);
    ArcPointsSubset(m, vs, tq.arcEdges, tp.arcEdges, c);
    assert forall p :: p in AllPoints(m, tp, c) <==> p in AllPoints(m, tq, c);
    CoverSameSet(Sentinel, AllPoints(m, tp, c), AllPoints(m, tq, c));
  }

  /** For a single line segment the size on each axis is max(DBL_MIN, larger) - min(DBL_MAX, smaller). */
  lemma SingleSegmentBounds(m: MathLib, vs: seq<Vector2>, e: LinearEdge, c: Cardinals)
    requires e.v0 < |vs| && e.v1 < |vs|
    ensures var tp := ToolPath(vs, [e], []);
      var p, q := vs[e.v0], vs[e.v1];
      tp.Valid() && BoundsOf(m, tp, c) == Vector2(
        Max(DblMin, Max(p.x, q.x)) - Min(DblMax, Min(p.x, q.x)),
        Max(DblMin, Max(p.y, q.y)) - Min(DblMax, Min(p.y, q.y)))
  {
    var tp := ToolPath(vs, [e], []);
    assert [e][..0] == [];
    assert AllPoints(m, tp, c) == [vs[e.v0], vs[e.v1]];
    TakeInPair(Sentinel, vs[e.v0], vs[e.v1]);
  }

  /**
   * Because the maximum corner starts at the positive DBL_MIN, geometry lying
   * entirely left of the y axis gets a maximum x of DBL_MIN, not its own
   * largest x.
   */
  lemma NegativeGeometryMeasuredFromZero(m: MathLib, tp: ToolPath, c: Cardinals)
    requires tp.Valid() && ArcsMeasurable(m, tp.vertices, tp.arcEdges)
    requires forall p :: p in AllPoints(m, tp, c) ==> p.x < 0.0
    ensures Cover(Sentinel, AllPoints(m, tp, c)).maxPoint.x == DblMin
  {
    var ps := AllPoints(m, tp, c);
    CoverExtremes(Sentinel, ps);
    forall i | 0 <= i < |ps|
      ensures ps[i].x < 0.0
    {
      assert ps[i] in ps;
    }
  }

  /** The quarter arc of radius 1 around the origin from (0, -1) counter-clockwise to (1, 0). */
  const QuarterArc: ToolPath := ToolPath([Vector2(0.0, -1.0), Vector2(1.0, 0.0)], [], [ArcEdge(0, 1, Zero)])

  /** The values of sqrt and atan2 that place QuarterArc's ends at the angles -pi/2 and 0. */
  predicate QuarterArcAngles(m: MathLib)
  {
    m.sqrt(1.0) == 1.0 && m.atan2(-1.0, 0.0) == -HalfPi && m.atan2(0.0, 1.0) == 0.0
  }

  /** With sqrt(1) = 1, QuarterArc's radius is 1. */
  lemma QuarterArcRadius(m: MathLib)
    requires m.sqrt(1.0) == 1.0
    ensures QuarterArc.Valid()
    ensures Radius(m, QuarterArc.vertices, QuarterArc.arcEdges[0]) == 1.0
  {
    var start := Vector2(0.0, -1.0);
    assert QuarterArc.vertices[0] == start && QuarterArc.arcEdges[0].center == Zero;
    assert Sub(start, Zero) == start;
    assert Dot(start, start) == 1.0;
    assert Distance(m.sqrt, Zero, start) == m.sqrt(1.0);
  }

  /** Under QuarterArcAngles the arc's radius is 1 and it sweeps from -pi/2 to 0. */
  lemma QuarterArcGeometry(m: MathLib)
    requires QuarterArcAngles(m)
    ensures QuarterArc.Valid() && ArcsMeasurable(m, QuarterArc.vertices, QuarterArc.arcEdges)
    ensures var vs, a := QuarterArc.vertices, QuarterArc.arcEdges[0];
      && Radius(m, vs, a) == 1.0
      && AngleOf(m, vs, a, vs[0]) == -HalfPi
      && SweepEnd(-HalfPi, AngleOf(m, vs, a, vs[1])) == 0.0
  {
    QuarterArcRadius(m);
    var vs, a := QuarterArc.vertices, QuarterArc.arcEdges[0];
    var start, end := Vector2(0.0, -1.0), Vector2(1.0, 0.0);
    assert vs[0] == start && vs[1] == end && a.center == Zero;
    assert Measurable(m, vs, a);
    assert DivScalar(Sub(start, Zero), 1.0) == start;
    assert DivScalar(Sub(end, Zero), 1.0) == end;
  }

  /** QuarterArc has no line segment, so the points taken in are the samples of its one arc. */
  lemma QuarterArcSamples(m: MathLib, c: Cardinals)
    requires QuarterArcAngles(m)
    ensures QuarterArc.Valid() && ArcsMeasurable(m, QuarterArc.vertices, QuarterArc.arcEdges)
    ensures AllPoints(m, QuarterArc, c) == ArcSamples(m, QuarterArc.vertices, QuarterArc.arcEdges[0], c)
  {
    QuarterArcGeometry(m);
    var vs, a := QuarterArc.vertices, QuarterArc.arcEdges[0];
    assert [a][..0] == [];
    assert ArcPoints(m, vs, [a], c) == ArcSamples(m, vs, a, c);
    assert LinearPoints(vs, []) == [];
  }

  /** For the sweep from -pi/2 to 0 the source's four cardinals all clamp to 0. */
  lemma SourceQuarterAngles()
    ensures SampleAngles(SourceCardinals, -HalfPi, 0.0) == [0.0, 0.0, 0.0, 0.0]
  {
  }

  /** On QuarterArc, with cos(0) = 1 and sin(0) = 0, the source takes in (1, 0) four times. */
  lemma SourceQuarterArcPoints(m: MathLib)
    requires QuarterArcAngles(m) && m.cos(0.0) == 1.0 && m.sin(0.0) == 0.0
    ensures QuarterArc.Valid() && ArcsMeasurable(m, QuarterArc.vertices, QuarterArc.arcEdges)
    ensures var p := Vector2(1.0, 0.0); AllPoints(m, QuarterArc, SourceCardinals) == [p, p, p, p]
  {
    QuarterArcGeometry(m);
    QuarterArcSamples(m, SourceCardinals);
    SourceQuarterAngles();
    var vs, a := QuarterArc.vertices, QuarterArc.arcEdges[0];
    var samples := ArcSamples(m, vs, a, SourceCardinals);
    var a0 := AngleOf(m, vs, a, vs[a.v0]);
    var angles := SampleAngles(SourceCardinals, a0, SweepEnd(a0, AngleOf(m, vs, a, vs[a.v1])));
    assert angles == [0.0, 0.0, 0.0, 0.0];
    var p := Vector2(1.0, 0.0);
    assert PointAt(m, a.center, Radius(m, vs, a), 0.0) == p;
    forall i | 0 <= i < 4
      ensures samples[i] == p
    {
      assert samples[i] == PointAt(m, a.center, Radius(m, vs, a), angles[i]);
    }
  }

  /**
   * On QuarterArc, with cos(0) = 1 and sin(0) = 0, the sampling as written
   * takes in only (1, 0): the box leaves the start vertex (0, -1) outside and
   * has height DBL_MIN, where the arc spans 1 in each direction.
   */
  lemma SourceBoundsMissArcStart(m: MathLib)
    requires QuarterArcAngles(m) && m.cos(0.0) == 1.0 && m.sin(0.0) == 0.0
    ensures QuarterArc.Valid() && ArcsMeasurable(m, QuarterArc.vertices, QuarterArc.arcEdges)
    ensures !Encloses(Cover(Sentinel, AllPoints(m, QuarterArc, SourceCardinals)), QuarterArc.vertices[0])
    ensures BoundsOf(m, QuarterArc, SourceCardinals) == Vector2(0.0, DblMin)
  {
    SourceQuarterArcPoints(m);
    var p := Vector2(1.0, 0.0);
    var ps := [p, p, p, p];
    assert [p][..0] == [];
    CoverSameSet(Sentinel, ps, [p]);
    assert Cover(Sentinel, ps) == Widen(Sentinel, p);
  }

  /**
   * On QuarterArc, with the true cosine and sine at 0 and -pi/2, the corrected
   * sampling takes in both ends: the box encloses both vertices and its height
   * is the arc's span 1 (plus DBL_MIN, as the maximum corner starts there).
   */
  lemma CorrectedBoundsKeepArcStart(m: MathLib)
    requires QuarterArcAngles(m) && m.cos(0.0) == 1.0 && m.sin(0.0) == 0.0
    requires m.cos(-HalfPi) == 0.0 && m.sin(-HalfPi) == -1.0
    ensures QuarterArc.Valid() && ArcsMeasurable(m, QuarterArc.vertices, QuarterArc.arcEdges)
    ensures Encloses(Cover(Sentinel, AllPoints(m, QuarterArc, CorrectedCardinals)), QuarterArc.vertices[0])
    ensures Encloses(Cover(Sentinel, AllPoints(m, QuarterArc, CorrectedCardinals)), QuarterArc.vertices[1])
    ensures BoundsOf(m, QuarterArc, CorrectedCardinals) == Vector2(1.0, DblMin + 1.0)
  {
    QuarterArcGeometry(m);
    QuarterArcSamples(m, CorrectedCardinals);
    var vs, a := QuarterArc.vertices, QuarterArc.arcEdges[0];
    var ps := AllPoints(m, QuarterArc, CorrectedCardinals);
    var p, q := Vector2(0.0, -1.0), Vector2(1.0, 0.0);
    assert PointAt(m, Zero, 1.0, -HalfPi) == p;
    assert PointAt(m, Zero, 1.0, 0.0) == q;
    forall i | 0 <= i < 9
      ensures ps[i] == if i < 2 then p else q
    {
      ArcSampleAt(m, vs, a, CorrectedCardinals, i);
    }
    assert forall r :: r in ps <==> r in [p, q] by {
      assert ps[0] == p && ps[2] == q;
    }
    CoverSameSet(Sentinel, ps, [p, q]);
    TakeInPair(Sentinel, p, q);
  }

  /**
   * For every arc of a path, with atan2 in (-pi, pi], the box of the corrected
   * sampling takes in the arc's circle at its start angle and at the end of
   * its sweep.
   */
  lemma CorrectedBoundsTakeInArcEnds(m: MathLib, tp: ToolPath, j: nat)
    requires tp.Valid() && ArcsMeasurable(m, tp.vertices, tp.arcEdges) && j < |tp.arcEdges|
    requires forall y, x :: -Pi < m.atan2(y, x) <= Pi
    ensures var vs, a := tp.vertices, tp.arcEdges[j];
      var a0 := AngleOf(m, vs, a, vs[a.v0]);
      var a1 := SweepEnd(a0, AngleOf(m, vs, a, vs[a.v1]));
      var b := Cover(Sentinel, AllPoints(m, tp, CorrectedCardinals));
      Encloses(b, PointAt(m, a.center, Radius(m, vs, a), a0)) && Encloses(b, PointAt(m, a.center, Radius(m, vs, a), a1))
  {
    var vs, a := tp.vertices, tp.arcEdges[j];
    assert Measurable(m, vs, a);
    var a0 := AngleOf(m, vs, a, vs[a.v0]);
    SampleAnglesCoverArc(a0, AngleOf(m, vs, a, vs[a.v1]));
    var samples := ArcSamples(m, vs, a, CorrectedCardinals);
    ArcSamplesIncluded(m, vs, tp.arcEdges, CorrectedCardinals, j);
    var ps := AllPoints(m, tp, CorrectedCardinals);
    var lin := LinearPoints(vs, tp.linearEdges);
    assert samples[0] in ps && samples[8] in ps;
    CoverExtremes(Sentinel, ps);
    var i0 :| 0 <= i0 < |ps| && ps[i0] == samples[0];
    var i8 :| 0 <= i8 < |ps| && ps[i8] == samples[8];
    assert Encloses(Cover(Sentinel, ps), ps[i0]) && Encloses(Cover(Sentinel, ps), ps[i8]);
  }
}
