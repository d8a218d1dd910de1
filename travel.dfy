/**
 * ToolPath::ComputeTravelHeuristic of source/ToolPath.cpp: the distance the
 * tool travels, as the sum of one term per edge. A linear edge contributes the
 * distance between its endpoints; an arc contributes its length scaled up by
 * 1 / exp(-1 / radius).
 */
module Travel {
  import opened Numerics
  import opened Vectors
  import opened ToolPaths

  /** The term of a linear edge: the distance between its endpoints. */
  function LinearTerm(m: MathLib, vs: seq<Vector2>, e: LinearEdge): real
    requires e.v0 < |vs| && e.v1 < |vs|
  {
    Distance(m.sqrt, vs[e.v0], vs[e.v1])
  }

  /** Arcs whose term the model can evaluate: a non-zero radius and a non-zero exp(-1 / radius). */
  predicate TravelDefined(m: MathLib, vs: seq<Vector2>, a: ArcEdge)
  {
    Measurable(m, vs, a) && m.exp(-1.0 / Radius(m, vs, a)) != 0.0
  }

  predicate ArcsTravelDefined(m: MathLib, vs: seq<Vector2>, arcs: seq<ArcEdge>)
  {
    forall i :: 0 <= i < |arcs| ==> TravelDefined(m, vs, arcs[i])
  }

  /** The angle between the two radii, from acos of the dot product of the scaled offsets. */
  function ArcAngle(m: MathLib, vs: seq<Vector2>, a: ArcEdge): real
    requires Measurable(m, vs, a)
  {
    var radius := Radius(m, vs, a);
    var arcLine0 := DivScalar(Sub(vs[a.v0], a.center), radius);
    var arcLine1 := DivScalar(Sub(vs[a.v1], a.center), radius);
    m.acos(Dot(arcLine0, arcLine1))
  }

  /** The arc length scaled by 1 / exp(-1 / radius), for the stepper's arc traversal. */
  function EffectiveLength(arcAngle: real, radius: real, decay: real): (r: real)
    requires decay != 0.0
    ensures r * decay == arcAngle * radius
  {
    (arcAngle * radius) * (1.0 / decay)
  }

  /** The term of an arc: its length, the angle times the radius, divided by exp(-1 / radius). */
  function ArcTerm(m: MathLib, vs: seq<Vector2>, a: ArcEdge): (r: real)
    requires TravelDefined(m, vs, a)
    ensures r * m.exp(-1.0 / Radius(m, vs, a)) == ArcAngle(m, vs, a) * Radius(m, vs, a)
  {
    var radius := Radius(m, vs, a);
    EffectiveLength(ArcAngle(m, vs, a), radius, m.exp(-1.0 / radius))
  }

  /** The sum of one term per element, element by element. */
  function SumOf<T>(f: T --> real, xs: seq<T>): real
    requires forall i :: 0 <= i < |xs| ==> f.requires(xs[i])
  {
    if xs == [] then 0.0
    else SumOf(f, xs[..|xs| - 1]) + f(xs[|xs| - 1])
  }

  /** LinearTerm as a function of the edge alone. */
  function LinearTermOf(m: MathLib, vs: seq<Vector2>): LinearEdge --> real
  {
    (e: LinearEdge) requires e.v0 < |vs| && e.v1 < |vs| => LinearTerm(m, vs, e)
  }

  /** ArcTerm as a function of the arc alone. */
  function ArcTermOf(m: MathLib, vs: seq<Vector2>): ArcEdge --> real
  {
    (a: ArcEdge) requires TravelDefined(m, vs, a) => ArcTerm(m, vs, a)
  }

  /** The sum of the linear terms. */
  function LinearTravel(m: MathLib, vs: seq<Vector2>, es: seq<LinearEdge>): real
    requires LinearEdgesIn(|vs|, es)
  {
    SumOf(LinearTermOf(m, vs), es)
  }

  /** The sum of the arc terms. */
  function ArcTravel(m: MathLib, vs: seq<Vector2>, arcs: seq<ArcEdge>): real
    requires ArcsTravelDefined(m, vs, arcs)
  {
    SumOf(ArcTermOf(m, vs), arcs)
  }

  /** The heuristic: the linear sum plus the arc sum. */
  function TravelHeuristic(m: MathLib, tp: ToolPath): (r: real)
    requires tp.Valid() && ArcsTravelDefined(m, tp.vertices, tp.arcEdges)
    ensures tp.EdgeCount() == 0 ==> r == 0.0
  {
    LinearTravel(m, tp.vertices, tp.linearEdges) + ArcTravel(m, tp.vertices, tp.arcEdges)
  }

  /** ComputeTravelHeuristic: accumulate sumDistance over the linear edges, then over the arcs. */
  method ComputeTravelHeuristic(tp: ToolPath, m: MathLib) returns (sumDistance: real)
    requires tp.Valid() && ArcsTravelDefined(m, tp.vertices, tp.arcEdges)
    ensures sumDistance == TravelHeuristic(m, tp)
  {
    var vs := tp.vertices;
    sumDistance := 0.0;

    for i := 0 to |tp.linearEdges|
      invariant sumDistance == LinearTravel(m, vs, tp.linearEdges[..i])
    {
      var edge := tp.linearEdges[i];
      var dist := Distance(m.sqrt, vs[edge.v0], vs[edge.v1]);
      sumDistance := sumDistance + dist;
      assert tp.linearEdges[..i + 1][..i] == tp.linearEdges[..i];
    }
    assert tp.linearEdges[..|tp.linearEdges|] == tp.linearEdges;
    ghost var linearSum := sumDistance;

    for j := 0 to |tp.arcEdges|
      invariant sumDistance == linearSum + ArcTravel(m, vs, tp.arcEdges[..j])
    {
      var arc := tp.arcEdges[j];
      assert TravelDefined(m, vs, arc);
      var v0, v1 := vs[arc.v0], vs[arc.v1];

      var radius := Distance(m.sqrt, arc.center, v0);
      var arcLine0 := DivScalar(Sub(v0, arc.center), radius);
      var arcLine1 := DivScalar(Sub(v1, arc.center), radius);
      var arcAngle := m.acos(Dot(arcLine0, arcLine1));
      var arcEffectiveLength := EffectiveLength(arcAngle, radius, m.exp(-1.0 / radius));
      sumDistance := sumDistance + arcEffectiveLength;
      assert arcEffectiveLength == ArcTerm(m, vs, arc);
      assert tp.arcEdges[..j + 1][..j] == tp.arcEdges[..j];
    }
    assert tp.arcEdges[..|tp.arcEdges|] == tp.arcEdges;
  }

  /** The sum over two lists one after the other is the sum of the two sums. */
  lemma {:induction false} SumAppend<T>(f: T --> real, xs: seq<T>, ys: seq<T>)
    requires forall i :: 0 <= i < |xs| ==> f.requires(xs[i])
    requires forall i :: 0 <= i < |ys| ==> f.requires(ys[i])
    ensures forall i :: 0 <= i < |xs + ys| ==> f.requires((xs + ys)[i])
    ensures SumOf(f, xs + ys) == SumOf(f, xs) + SumOf(f, ys)
  {
    if ys == [] {
      assert xs + ys == xs;
    } else {
      var init := ys[..|ys| - 1];
      SumAppend(f, xs, init);
      assert (xs + ys)[..|xs + ys| - 1] == xs + init;
    }
  }

  /** Taking one element out of the middle of a list takes its term out of the sum. */
  lemma SumMiddle<T>(f: T --> real, front: seq<T>, x: T, back: seq<T>)
    requires forall i :: 0 <= i < |front| ==> f.requires(front[i])
    requires forall i :: 0 <= i < |back| ==> f.requires(back[i])
    requires f.requires(x)
    ensures SumOf(f, front + [x] + back) == SumOf(f, front + back) + f(x)
  {
    assert [x][..0] == [];
    SumAppend(f, front, [x]);
    SumAppend(f, front + [x], back);
    SumAppend(f, front, back);
  }

  /** Removing the same element from two equal multisets leaves equal multisets. */
  lemma RemoveOne<T>(front: seq<T>, x: T, ys: seq<T>, j: nat)
    requires j < |ys| && ys[j] == x && multiset(front + [x]) == multiset(ys)
    ensures multiset(front) == multiset(ys[..j] + ys[j + 1..])
  {
    assert ys == ys[..j] + [x] + ys[j + 1..];
    assert multiset(ys) == multiset(ys[..j]) + multiset([x]) + multiset(ys[j + 1..]);
    assert multiset(front + [x]) == multiset(front) + multiset([x]);
    var a, b := multiset(front), multiset(ys[..j] + ys[j + 1..]);
    assert b == multiset(ys[..j]) + multiset(ys[j + 1..]);
    assert a + multiset([x]) == b + multiset([x]);
    forall z
      ensures a[z] == b[z]
    {
      assert (a + multiset([x]))[z] == a[z] + multiset([x])[z];
      assert (b + multiset([x]))[z] == b[z] + multiset([x])[z];
    }
  }

  /** The sum does not depend on the order of the elements. */
  lemma {:induction false} SumPermutation<T>(f: T --> real, xs: seq<T>, ys: seq<T>)
    requires forall i :: 0 <= i < |xs| ==> f.requires(xs[i])
    requires forall i :: 0 <= i < |ys| ==> f.requires(ys[i])
    requires multiset(xs) == multiset(ys)
    ensures SumOf(f, xs) == SumOf(f, ys)
  {
    if xs != [] {
      var n := |xs| - 1;
      var last := xs[n];
      assert xs == xs[..n] + [last];
      assert last in multiset(ys);
      var j :| 0 <= j < |ys| && ys[j] == last;
      var rest := ys[..j] + ys[j + 1..];
      assert ys == ys[..j] + [last] + ys[j + 1..];
      RemoveOne(xs[..n], last, ys, j);
      assert forall i :: 0 <= i < |rest| ==> f.requires(rest[i]) by {
        forall i | 0 <= i < |rest|
          ensures f.requires(rest[i])
        {
          if i < j {
            assert rest[i] == ys[i];
          } else {
            assert rest[i] == ys[i + 1];
          }
        }
      }
      SumPermutation(f, xs[..n], rest);
      SumMiddle(f, ys[..j], last, ys[j + 1..]);
    }
  }

  /** The linear sum does not depend on the order of the edges. */
  lemma LinearTravelPermutation(m: MathLib, vs: seq<Vector2>, es: seq<LinearEdge>, fs: seq<LinearEdge>)
    requires LinearEdgesIn(|vs|, es) && LinearEdgesIn(|vs|, fs)
    requires multiset(es) == multiset(fs)
    ensures LinearTravel(m, vs, es) == LinearTravel(m, vs, fs)
  {
    SumPermutation(LinearTermOf(m, vs), es, fs);
  }

  /** The arc sum does not depend on the order of the arcs. */
  lemma ArcTravelPermutation(m: MathLib, vs: seq<Vector2>, arcs: seq<ArcEdge>, others: seq<ArcEdge>)
    requires ArcsTravelDefined(m, vs, arcs) && ArcsTravelDefined(m, vs, others)
    requires multiset(arcs) == multiset(others)
    ensures ArcTravel(m, vs, arcs) == ArcTravel(m, vs, others)
  {
    SumPermutation(ArcTermOf(m, vs), arcs, others);
  }

  /** Whatever sqrt is, a linear edge contributes the same when traversed in either direction. */
  lemma LinearTermDirectionFree(m: MathLib, vs: seq<Vector2>, e: LinearEdge)
    requires e.v0 < |vs| && e.v1 < |vs|
    ensures LinearTerm(m, vs, e) == LinearTerm(m, vs, LinearEdge(e.v1, e.v0))
  {
    DistanceSymmetric(m.sqrt, vs[e.v0], vs[e.v1]);
  }

  /** With a sqrt that never returns a negative value, the linear sum is never negative. */
  lemma {:induction false} LinearTravelNonNegative(m: MathLib, vs: seq<Vector2>, es: seq<LinearEdge>)
    requires LinearEdgesIn(|vs|, es)
    requires forall x :: m.sqrt(x) >= 0.0
    ensures LinearTravel(m, vs, es) >= 0.0
  {
    if es != [] {
      LinearTravelNonNegative(m, vs, es[..|es| - 1]);
    }
  }

  /**
   * With acos never negative and exp always positive (as in the C library),
   * every arc term and so the arc sum are never negative.
   */
  lemma {:induction false} ArcTravelNonNegative(m: MathLib, vs: seq<Vector2>, arcs: seq<ArcEdge>)
    requires ArcsTravelDefined(m, vs, arcs)
    requires forall x :: m.sqrt(x) >= 0.0
    requires forall x :: m.acos(x) >= 0.0
    requires forall x :: m.exp(x) > 0.0
    ensures ArcTravel(m, vs, arcs) >= 0.0
  {
    if arcs != [] {
      var a := arcs[|arcs| - 1];
      ArcTravelNonNegative(m, vs, arcs[..|arcs| - 1]);
      assert TravelDefined(m, vs, a);
      EffectiveLengthNonNegative(ArcAngle(m, vs, a), Radius(m, vs, a), m.exp(-1.0 / Radius(m, vs, a)));
    }
  }

  /** A product of non-negative factors with a positive divisor is not negative. */
  lemma EffectiveLengthNonNegative(arcAngle: real, radius: real, decay: real)
    requires arcAngle >= 0.0 && radius >= 0.0 && decay > 0.0
    ensures EffectiveLength(arcAngle, radius, decay) >= 0.0
  {
    var length := arcAngle * radius;
    assert length >= 0.0 by {
      if arcAngle > 0.0 && radius > 0.0 {
        assert length > 0.0;
      }
    }
    assert 1.0 / decay > 0.0;
    var scaled := length * (1.0 / decay);
    assert scaled >= 0.0 by {
      if length > 0.0 {
        assert scaled > 0.0;
      }
    }
  }

  /**
   * The quarter circle of radius 1 from (1, 0) counter-clockwise to (0, 1)
   * around the origin: when sqrt(1) is 1 and acos(0) is pi/2, its term is
   * pi/2 divided by exp(-1), that is pi/2 times e.
   */
  lemma QuarterArcTravel(m: MathLib)
    requires m.sqrt(1.0) == 1.0 && m.acos(0.0) == HalfPi && m.exp(-1.0) != 0.0
    ensures var vs := [Vector2(1.0, 0.0), Vector2(0.0, 1.0)];
      var a := ArcEdge(0, 1, Zero);
      TravelDefined(m, vs, a) && ArcTerm(m, vs, a) == HalfPi / m.exp(-1.0)
  {
    var vs := [Vector2(1.0, 0.0), Vector2(0.0, 1.0)];
    var a := ArcEdge(0, 1, Zero);
    assert Dot(Sub(vs[0], Zero), Sub(vs[0], Zero)) == 1.0;
    assert Radius(m, vs, a) == 1.0;
    assert ArcAngle(m, vs, a) == HalfPi;
  }
}
