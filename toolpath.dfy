/**
 * The tool-path geometry and its builder, the ToolPath constructor of
 * source/ToolPath.cpp.
 *
 * Edges refer to vertices by their position in the vertex sequence, where the
 * source keeps pointers into its vertex vector.
 */
module ToolPaths {
  import opened Numerics
  import opened Vectors
  import opened Documents

  datatype LinearEdge = LinearEdge(v0: nat, v1: nat)

  /** An arc from v0 counter-clockwise to v1 around center. */
  datatype ArcEdge = ArcEdge(v0: nat, v1: nat, center: Vector2)

  /** What one edge entry of the document becomes. */
  datatype Edge = Linear(linear: LinearEdge) | Arc(arc: ArcEdge)

  datatype ToolPath = ToolPath(
    vertices: seq<Vector2>,
    linearEdges: seq<LinearEdge>,
    arcEdges: seq<ArcEdge>)
  {
    /** Every edge refers to a vertex that exists. */
    predicate Valid()
    {
      && (forall i :: 0 <= i < |linearEdges| ==> linearEdges[i].v0 < |vertices| && linearEdges[i].v1 < |vertices|)
      && (forall i :: 0 <= i < |arcEdges| ==> arcEdges[i].v0 < |vertices| && arcEdges[i].v1 < |vertices|)
    }

    function EdgeCount(): nat
    {
      |linearEdges| + |arcEdges|
    }
  }

  /** Every line segment of es refers to one of n vertices. */
  predicate LinearEdgesIn(n: nat, es: seq<LinearEdge>)
  {
    forall i :: 0 <= i < |es| ==> es[i].v0 < n && es[i].v1 < n
  }

  /** The radius of an arc: the distance from its center to its start vertex. */
  function Radius(m: MathLib, vs: seq<Vector2>, a: ArcEdge): real
    requires a.v0 < |vs|
  {
    Distance(m.sqrt, a.center, vs[a.v0])
  }

  /**
   * An arc whose geometry the model can evaluate: its vertices exist and the
   * radius, which the bounds and the heuristic divide by, is not zero.
   */
  predicate Measurable(m: MathLib, vs: seq<Vector2>, a: ArcEdge)
  {
    a.v0 < |vs| && a.v1 < |vs| && Radius(m, vs, a) != 0.0
  }

  predicate ArcsMeasurable(m: MathLib, vs: seq<Vector2>, arcs: seq<ArcEdge>)
  {
    forall i :: 0 <= i < |arcs| ==> Measurable(m, vs, arcs[i])
  }

  // ---------------------------------------------------------------------------
  // Vertex phase

  /**
   * The vertex vector: one point per vertex record, in iteration order; the
   * first record without a Position stops the build.
   */
  function VertexPositions(es: seq<VertexEntry>): (r: Result<seq<Vector2>, BuildError>)
    ensures r.Success? <==> forall i :: 0 <= i < |es| ==> es[i].record.position.Some?
    ensures r.Success? ==> |r.value| == |es|
    ensures r.Success? ==> forall i :: 0 <= i < |es| ==> r.value[i] == es[i].record.position.value
    ensures r.Failure? ==> r.error == FieldNotFound("Position")
  {
    if es == [] then Success([])
    else
      var positions :- VertexPositions(es[..|es| - 1]);
      var position :- GetRequiredValue(es[|es| - 1].record.position, "Position");
      Success(positions + [position])
  }

  /**
   * The temporary vertexIndexes map: each key seen maps to the position of its
   * last record (a later record with the same key overwrites the entry).
   */
  function VertexIndexes(es: seq<VertexEntry>): (index: map<Key, nat>)
    ensures forall k :: k in index ==> index[k] < |es| && es[index[k]].key == k
    ensures forall i :: 0 <= i < |es| ==> es[i].key in index && i <= index[es[i].key]
  {
    if es == [] then map[] else VertexIndexes(es[..|es| - 1])[es[|es| - 1].key := |es| - 1]
  }

  /** The keys of a JSON object are distinct. */
  predicate DistinctKeys(es: seq<VertexEntry>)
  {
    forall i, j :: 0 <= i < j < |es| ==> es[i].key != es[j].key
  }

  /**
   * vertexIndexes[key] as an rvalue: operator[] of the map default-inserts 0
   * for a key it does not hold, so an undeclared key reads as vertex 0.
   */
  function ResolveKey(index: map<Key, nat>, key: Key): (i: nat)
    ensures key in index ==> i == index[key]
    ensures key !in index ==> i == 0
    ensures i == 0 || i in index.Values
  {
    if key in index then index[key] else 0
  }

  /** With distinct keys, the i-th vertex record's key resolves to index i. */
  lemma DeclaredKeyResolvesToItsIndex(es: seq<VertexEntry>, i: nat)
    requires DistinctKeys(es) && i < |es|
    ensures ResolveKey(VertexIndexes(es), es[i].key) == i
  {
  }

  /** A key no vertex record declares is not an error: it resolves to vertex 0. */
  lemma UndeclaredKeyResolvesToZero(es: seq<VertexEntry>, key: Key)
    requires forall i :: 0 <= i < |es| ==> es[i].key != key
    ensures ResolveKey(VertexIndexes(es), key) == 0
  {
  }

  // ---------------------------------------------------------------------------
  // Edge phase

  /** The source reads Vertices[0] and Vertices[1] without checking the array. */
  predicate ListsTwoVertices(e: EdgeRecord)
  {
    e.vertices.Some? ==> |e.vertices.value| >= 2
  }

  predicate AllListTwoVertices(es: seq<EdgeEntry>)
  {
    forall i :: 0 <= i < |es| ==> ListsTwoVertices(es[i].record)
  }

  /**
   * One iteration of the edge loop: the checks in the order the source makes
   * them, the key resolution, and the arc orientation fix-up, which keeps the
   * listed order exactly when Vertices[1] equals ClockwiseFrom.
   */
  function ResolveEdge(index: map<Key, nat>, e: EdgeRecord): (r: Result<Edge, BuildError>)
    requires ListsTwoVertices(e)
    ensures r.Success? ==> e.vertices.Some?
    ensures r.Success? && r.value.Linear? <==> r.Success? && e.kind == Given("LineSegment")
    ensures r.Success? && r.value.Arc? <==> r.Success? && e.kind == Given("CircularArc")
  {
    if e.vertices.None? then Failure(NoEdgeVertices)
    else
      var keys := e.vertices.value;
      var v0 := ResolveKey(index, keys[0]);
      var v1 := ResolveKey(index, keys[1]);
      var kind :- GetRequired(e.kind, "Type");
      if kind == "LineSegment" then Success(Linear(LinearEdge(v0, v1)))
      else if kind == "CircularArc" then
        var clockwiseFrom :- GetRequiredValue(e.clockwiseFrom, "ClockwiseFrom");
        var (first, last) := if clockwiseFrom == StringRef(keys[1]) then (v0, v1) else (v1, v0);
        if e.center.None? then Failure(NoArcCenter)
        else Success(Arc(ArcEdge(first, last, e.center.value)))
      else Failure(UnknownEdgeType(kind))
  }

  /** How many edge entries carry the given Type tag. */
  function CountType(es: seq<EdgeEntry>, tag: string): (n: nat)
    ensures n <= |es|
  {
    if es == [] then 0
    else CountType(es[..|es| - 1], tag) + (if es[|es| - 1].record.kind == Given(tag) then 1 else 0)
  }

  /**
   * The edge loop: each entry appends one edge to the linear or the arc list,
   * in entry order; the first failing entry stops the build with its error.
   */
  function CollectEdges(index: map<Key, nat>, es: seq<EdgeEntry>): (r: Result<(seq<LinearEdge>, seq<ArcEdge>), BuildError>)
    requires AllListTwoVertices(es)
    ensures r.Success? <==> forall i :: 0 <= i < |es| ==> ResolveEdge(index, es[i].record).Success?
    ensures r.Success? ==> |r.value.0| == CountType(es, "LineSegment")
    ensures r.Success? ==> |r.value.1| == CountType(es, "CircularArc")
  {
    if es == [] then Success(([], []))
    else
      var collected :- CollectEdges(index, es[..|es| - 1]);
      var edge :- ResolveEdge(index, es[|es| - 1].record);
      match edge
      case Linear(e) => Success((collected.0 + [e], collected.1))
      case Arc(a) => Success((collected.0, collected.1 + [a]))
  }

  /** Once a prefix of the edge entries fails, the whole loop fails with the same error. */
  lemma {:induction false} CollectEdgesFailurePersists(index: map<Key, nat>, es: seq<EdgeEntry>, n: nat)
    requires AllListTwoVertices(es) && n <= |es|
    requires CollectEdges(index, es[..n]).Failure?
    ensures CollectEdges(index, es) == CollectEdges(index, es[..n])
    decreases |es| - n
  {
    if n < |es| {
      var init := es[..|es| - 1];
      assert init[..n] == es[..n];
      CollectEdgesFailurePersists(index, init, n);
    } else {
      assert es[..n] == es;
    }
  }

  /** The error that ends the edge loop is that of the first entry that fails. */
  lemma {:induction false} CollectEdgesFirstFailure(index: map<Key, nat>, es: seq<EdgeEntry>)
    requires AllListTwoVertices(es)
    requires CollectEdges(index, es).Failure?
    ensures exists i :: (0 <= i < |es| && ResolveEdge(index, es[i].record) == Failure(CollectEdges(index, es).error)
      && forall j :: 0 <= j < i ==> ResolveEdge(index, es[j].record).Success?)
  {
    var init := es[..|es| - 1];
    if CollectEdges(index, init).Failure? {
      CollectEdgesFirstFailure(index, init);
      var i :| 0 <= i < |init| && ResolveEdge(index, init[i].record) == Failure(CollectEdges(index, init).error)
        && forall j :: 0 <= j < i ==> ResolveEdge(index, init[j].record).Success?;
      assert es[i] == init[i];
      assert forall j :: 0 <= j < i ==> es[j] == init[j];
    } else {
      var i := |es| - 1;
      assert forall j :: 0 <= j < i ==> es[j] == init[j];
      assert ResolveEdge(index, es[i].record) == Failure(CollectEdges(index, es).error);
    }
  }

  /**
   * On success every entry's edge is in the output list of its kind, and every
   * output edge is the edge of some entry.
   */
  lemma {:induction false} CollectEdgesKeepsEveryEdge(index: map<Key, nat>, es: seq<EdgeEntry>)
    requires AllListTwoVertices(es)
    requires CollectEdges(index, es).Success?
    ensures forall i :: 0 <= i < |es| && ResolveEdge(index, es[i].record).value.Linear? ==>
      ResolveEdge(index, es[i].record).value.linear in CollectEdges(index, es).value.0
    ensures forall i :: 0 <= i < |es| && ResolveEdge(index, es[i].record).value.Arc? ==>
      ResolveEdge(index, es[i].record).value.arc in CollectEdges(index, es).value.1
    ensures forall e :: e in CollectEdges(index, es).value.0 ==>
      exists i :: 0 <= i < |es| && ResolveEdge(index, es[i].record) == Success(Linear(e))
    ensures forall a :: a in CollectEdges(index, es).value.1 ==>
      exists i :: 0 <= i < |es| && ResolveEdge(index, es[i].record) == Success(Arc(a))
  {
    if es != [] {
      var init := es[..|es| - 1];
      CollectEdgesKeepsEveryEdge(index, init);
      assert forall j :: 0 <= j < |init| ==> es[j] == init[j];
    }
  }

  /** When every known key maps below n > 0, every collected edge refers to vertices below n. */
  lemma {:induction false} CollectedIndicesBelow(index: map<Key, nat>, es: seq<EdgeEntry>, n: nat)
    requires AllListTwoVertices(es)
    requires 0 < n && forall k :: k in index ==> index[k] < n
    requires CollectEdges(index, es).Success?
    ensures ToolPath(seq(n, _ => Zero), CollectEdges(index, es).value.0, CollectEdges(index, es).value.1).Valid()
  {
    if es != [] {
      var init := es[..|es| - 1];
      CollectedIndicesBelow(index, init, n);
    }
  }

  /** A line segment stores the two listed vertices in the listed order. */
  lemma LineSegmentKeepsOrder(index: map<Key, nat>, e: EdgeRecord)
    requires ListsTwoVertices(e) && e.vertices.Some? && e.kind == Given("LineSegment")
    ensures ResolveEdge(index, e) ==
      Success(Linear(LinearEdge(ResolveKey(index, e.vertices.value[0]), ResolveKey(index, e.vertices.value[1]))))
  {
  }

  /**
   * A complete arc keeps the listed order exactly when Vertices[1] is the
   * ClockwiseFrom value, and is stored with the two ends swapped otherwise.
   */
  lemma ArcOrientation(index: map<Key, nat>, e: EdgeRecord)
    requires ListsTwoVertices(e) && e.vertices.Some? && e.kind == Given("CircularArc")
    requires e.clockwiseFrom.Some? && e.center.Some?
    ensures var r0, r1 := ResolveKey(index, e.vertices.value[0]), ResolveKey(index, e.vertices.value[1]);
      ResolveEdge(index, e) == Success(Arc(
        if e.clockwiseFrom.value == StringRef(e.vertices.value[1])
        then ArcEdge(r0, r1, e.center.value)
        else ArcEdge(r1, r0, e.center.value)))
  {
  }

  /**
   * When ClockwiseFrom names one of the two listed vertices, the stored arc ends
   * at that vertex and starts at the other one.
   */
  lemma ArcEndsAtClockwiseFrom(index: map<Key, nat>, e: EdgeRecord, key: Key)
    requires ListsTwoVertices(e) && e.vertices.Some? && e.kind == Given("CircularArc")
    requires e.center.Some? && e.clockwiseFrom == Some(StringRef(key))
    requires key == e.vertices.value[0] || key == e.vertices.value[1]
    ensures var other := if key == e.vertices.value[1] then e.vertices.value[0] else e.vertices.value[1];
      ResolveEdge(index, e) == Success(Arc(ArcEdge(ResolveKey(index, other), ResolveKey(index, key), e.center.value)))
  {
  }

  /**
   * Listing an arc's two vertices in the other order, with ClockwiseFrom naming
   * the same vertex, builds the same arc.
   */
  lemma ArcListingOrderIrrelevant(index: map<Key, nat>, e: EdgeRecord, key: Key)
    requires ListsTwoVertices(e) && e.vertices.Some? && e.kind == Given("CircularArc")
    requires e.clockwiseFrom == Some(StringRef(key))
    requires key == e.vertices.value[0] || key == e.vertices.value[1]
    ensures var keys := e.vertices.value;
      var swapped := e.(vertices := Some([keys[1], keys[0]] + keys[2..]));
      ListsTwoVertices(swapped) && ResolveEdge(index, e) == ResolveEdge(index, swapped)
  {
    var keys := e.vertices.value;
    var swappedKeys := [keys[1], keys[0]] + keys[2..];
    assert swappedKeys[0] == keys[1] && swappedKeys[1] == keys[0];
  }

  /**
   * The edge checks and their order: Vertices first, then Type, then for an arc
   * ClockwiseFrom before Center; any other tag is an unknown edge type.
   */
  lemma EdgeErrors(index: map<Key, nat>, e: EdgeRecord)
    requires ListsTwoVertices(e)
    ensures e.vertices.None? ==> ResolveEdge(index, e) == Failure(NoEdgeVertices)
    ensures e.vertices.Some? && e.kind == Missing ==> ResolveEdge(index, e) == Failure(FieldNotFound("Type"))
    ensures e.vertices.Some? && e.kind == Mistyped ==> ResolveEdge(index, e) == Failure(UnexpectedType("Type"))
    ensures e.vertices.Some? && e.kind.Given? && e.kind.value != "LineSegment" && e.kind.value != "CircularArc" ==>
      ResolveEdge(index, e) == Failure(UnknownEdgeType(e.kind.value))
    ensures e.vertices.Some? && e.kind == Given("CircularArc") && e.clockwiseFrom.None? ==>
      ResolveEdge(index, e) == Failure(FieldNotFound("ClockwiseFrom"))
    ensures e.vertices.Some? && e.kind == Given("CircularArc") && e.clockwiseFrom.Some? && e.center.None? ==>
      ResolveEdge(index, e) == Failure(NoArcCenter)
    ensures ResolveEdge(index, e).Success? <==>
      e.vertices.Some? && (e.kind == Given("LineSegment")
        || (e.kind == Given("CircularArc") && e.clockwiseFrom.Some? && e.center.Some?))
  {
  }

  // ---------------------------------------------------------------------------
  // The whole constructor

  /** The document shape the builder relies on without checking it. */
  predicate WellShaped(doc: Document)
  {
    doc.edges.Given? ==> AllListTwoVertices(doc.edges.value)
  }

  /** ToolPath::ToolPath as a value: the built tool path, or the first error thrown. */
  function FromDocument(doc: Document): (r: Result<ToolPath, BuildError>)
    requires WellShaped(doc)
    ensures r.Success? ==> doc.vertices.Given? && doc.edges.Given?
    ensures r.Success? ==> |r.value.vertices| == |doc.vertices.value|
    ensures r.Success? ==> forall i :: 0 <= i < |doc.vertices.value| ==>
      doc.vertices.value[i].record.position == Some(r.value.vertices[i])
  {
    var vertexEntries :- GetRequired(doc.vertices, "Vertices");
    var vertices :- VertexPositions(vertexEntries);
    var edgeEntries :- GetRequired(doc.edges, "Edges");
    var edges :- CollectEdges(VertexIndexes(vertexEntries), edgeEntries);
    Success(ToolPath(vertices, edges.0, edges.1))
  }

  /**
   * The vertex loop: appends each record's position to the vertex sequence and
   * maps its key to the position it was stored at.
   */
  method LoadVertices(entries: seq<VertexEntry>) returns (r: Result<seq<Vector2>, BuildError>, vertexIndexes: map<Key, nat>)
    ensures r == VertexPositions(entries)
    ensures r.Success? ==> vertexIndexes == VertexIndexes(entries)
  {
    var vertices: seq<Vector2> := [];
    vertexIndexes := map[];
    for i := 0 to |entries|
      invariant VertexPositions(entries[..i]) == Success(vertices)
      invariant vertexIndexes == VertexIndexes(entries[..i])
    {
      assert entries[..i + 1][..i] == entries[..i];
      var vertex := entries[i];
      vertexIndexes := vertexIndexes[vertex.key := |vertices|];
      var position :- GetRequiredValue(vertex.record.position, "Position");
      vertices := vertices + [position];
    }
    assert entries[..|entries|] == entries;
    r := Success(vertices);
  }

  /** Two index maps that resolve every key to the same vertex, default insertions aside. */
  ghost predicate SameLookups(a: map<Key, nat>, b: map<Key, nat>)
  {
    forall k :: ResolveKey(a, k) == ResolveKey(b, k)
  }

  /**
   * One pass of the edge loop body. vertexIndexes is read through operator[],
   * which inserts 0 under a key it lacks; ClockwiseFrom decides the swap.
   */
  method LoadEdge(vertexIndexes: map<Key, nat>, edge: EdgeRecord) returns (r: Result<Edge, BuildError>, indexes: map<Key, nat>)
    requires ListsTwoVertices(edge)
    ensures r == ResolveEdge(vertexIndexes, edge)
    ensures SameLookups(indexes, vertexIndexes)
  {
    indexes := vertexIndexes;
    if edge.vertices.None? {
      return Failure(NoEdgeVertices), indexes;
    }
    var edgeVertices := edge.vertices.value;
    if edgeVertices[0] !in indexes {
      indexes := indexes[edgeVertices[0] := 0];
    }
    var v0 := indexes[edgeVertices[0]];
    if edgeVertices[1] !in indexes {
      indexes := indexes[edgeVertices[1] := 0];
    }
    var v1 := indexes[edgeVertices[1]];

    var kind := GetRequired(edge.kind, "Type");
    if kind.Failure? {
      return Failure(kind.error), indexes;
    }
    if kind.value == "LineSegment" {
      r := Success(Linear(LinearEdge(v0, v1)));
    } else if kind.value == "CircularArc" {
      var clockwiseFrom := GetRequiredValue(edge.clockwiseFrom, "ClockwiseFrom");
      if clockwiseFrom.Failure? {
        return Failure(clockwiseFrom.error), indexes;
      }
      if StringRef(edgeVertices[1]) != clockwiseFrom.value {
        v0, v1 := v1, v0;
      }
      if edge.center.None? {
        return Failure(NoArcCenter), indexes;
      }
      var center := GetRequiredValue(edge.center, "Center");
      r := Success(Arc(ArcEdge(v0, v1, center.value)));
    } else {
      r := Failure(UnknownEdgeType(kind.value));
    }
  }

  /** Index maps with the same lookups resolve an edge entry alike. */
  lemma SameLookupsSameEdge(a: map<Key, nat>, b: map<Key, nat>, e: EdgeRecord)
    requires SameLookups(a, b) && ListsTwoVertices(e)
    ensures ResolveEdge(a, e) == ResolveEdge(b, e)
  {
  }

  /** The edge loop: appends the edge of each entry in turn; the first error ends it. */
  method LoadEdges(vertexIndexes: map<Key, nat>, entries: seq<EdgeEntry>)
    returns (r: Result<(seq<LinearEdge>, seq<ArcEdge>), BuildError>)
    requires AllListTwoVertices(entries)
    ensures r == CollectEdges(vertexIndexes, entries)
  {
    var indexes := vertexIndexes;
    var linearEdges: seq<LinearEdge> := [];
    var arcEdges: seq<ArcEdge> := [];
    for j := 0 to |entries|
      invariant CollectEdges(vertexIndexes, entries[..j]) == Success((linearEdges, arcEdges))
      invariant SameLookups(indexes, vertexIndexes)
    {
      assert entries[..j + 1][..j] == entries[..j];
      var edge;
      ghost var before := indexes;
      edge, indexes := LoadEdge(indexes, entries[j].record);
      SameLookupsSameEdge(before, vertexIndexes, entries[j].record);
      if edge.Failure? {
        CollectEdgesFailurePersists(vertexIndexes, entries, j + 1);
        return Failure(edge.error);
      }
      match edge.value
      case Linear(e) => linearEdges := linearEdges + [e];
      case Arc(a) => arcEdges := arcEdges + [a];
    }
    assert entries[..|entries|] == entries;
    r := Success((linearEdges, arcEdges));
  }

  /** ToolPath::ToolPath: the vertex loop, then the edge loop; any error leaves no tool path. */
  method Build(doc: Document) returns (r: Result<ToolPath, BuildError>)
    requires WellShaped(doc)
    ensures r == FromDocument(doc)
  {
    var vertexEntries :- GetRequired(doc.vertices, "Vertices");
    var loaded, vertexIndexes := LoadVertices(vertexEntries);
    var vertices :- loaded;
    var edgeEntries :- GetRequired(doc.edges, "Edges");
    var edges :- LoadEdges(vertexIndexes, edgeEntries);
    r := Success(ToolPath(vertices, edges.0, edges.1));
  }

  /** The build succeeds exactly when every required field is there and every edge entry resolves. */
  lemma BuildSucceedsIff(doc: Document)
    requires WellShaped(doc)
    ensures FromDocument(doc).Success? <==>
      && doc.vertices.Given?
      && (forall i :: 0 <= i < |doc.vertices.value| ==> doc.vertices.value[i].record.position.Some?)
      && doc.edges.Given?
      && (forall i :: 0 <= i < |doc.edges.value| ==>
            ResolveEdge(VertexIndexes(doc.vertices.value), doc.edges.value[i].record).Success?)
  {
  }

  /**
   * The errors of the document level, in the order the constructor meets them:
   * the Vertices object, each vertex's Position, the Edges object, then the
   * first edge entry that fails.
   */
  lemma BuildErrorOrder(doc: Document)
    requires WellShaped(doc)
    ensures doc.vertices.Missing? ==> FromDocument(doc) == Failure(FieldNotFound("Vertices"))
    ensures doc.vertices.Mistyped? ==> FromDocument(doc) == Failure(UnexpectedType("Vertices"))
    ensures doc.vertices.Given? && (exists i :: 0 <= i < |doc.vertices.value| && doc.vertices.value[i].record.position.None?)
      ==> FromDocument(doc) == Failure(FieldNotFound("Position"))
    ensures doc.vertices.Given? && VertexPositions(doc.vertices.value).Success? && doc.edges.Missing?
      ==> FromDocument(doc) == Failure(FieldNotFound("Edges"))
    ensures doc.vertices.Given? && VertexPositions(doc.vertices.value).Success? && doc.edges.Mistyped?
      ==> FromDocument(doc) == Failure(UnexpectedType("Edges"))
    ensures doc.vertices.Given? && VertexPositions(doc.vertices.value).Success? && doc.edges.Given?
      && FromDocument(doc).Failure?
      ==> exists i :: (0 <= i < |doc.edges.value|
        && ResolveEdge(VertexIndexes(doc.vertices.value), doc.edges.value[i].record) == Failure(FromDocument(doc).error)
        && forall j :: 0 <= j < i ==> ResolveEdge(VertexIndexes(doc.vertices.value), doc.edges.value[j].record).Success?)
  {
    if doc.vertices.Given? && VertexPositions(doc.vertices.value).Success? && doc.edges.Given? && FromDocument(doc).Failure? {
      CollectEdgesFirstFailure(VertexIndexes(doc.vertices.value), doc.edges.value);
    }
  }

  /**
   * A built tool path has one vertex per vertex record, the i-th record's
   * position at index i, and exactly one edge per edge entry.
   */
  lemma BuildShape(doc: Document)
    requires WellShaped(doc) && FromDocument(doc).Success?
    ensures var tp := FromDocument(doc).value;
      && |tp.vertices| == |doc.vertices.value|
      && (forall i :: 0 <= i < |tp.vertices| ==> tp.vertices[i] == doc.vertices.value[i].record.position.value)
      && |tp.linearEdges| == CountType(doc.edges.value, "LineSegment")
      && |tp.arcEdges| == CountType(doc.edges.value, "CircularArc")
      && tp.EdgeCount() == |doc.edges.value|
  {
    var tp := FromDocument(doc).value;
    var es := doc.edges.value;
    BuildSucceedsIff(doc);
    EveryTypeCounted(VertexIndexes(doc.vertices.value), es);
  }

  /** When every entry resolves, every entry is a line segment or an arc. */
  lemma {:induction false} EveryTypeCounted(index: map<Key, nat>, es: seq<EdgeEntry>)
    requires AllListTwoVertices(es)
    requires forall i :: 0 <= i < |es| ==> ResolveEdge(index, es[i].record).Success?
    ensures CountType(es, "LineSegment") + CountType(es, "CircularArc") == |es|
  {
    if es != [] {
      var init := es[..|es| - 1];
      assert forall j :: 0 <= j < |init| ==> es[j] == init[j];
      EveryTypeCounted(index, init);
      EdgeErrors(index, es[|es| - 1].record);
    }
  }

  /**
   * With at least one vertex, every edge of a built tool path refers to an
   * existing vertex, undeclared keys included (they resolve to vertex 0).
   */
  lemma BuiltToolPathValid(doc: Document)
    requires WellShaped(doc) && FromDocument(doc).Success?
    requires |FromDocument(doc).value.vertices| > 0
    ensures FromDocument(doc).value.Valid()
  {
    var entries := doc.vertices.value;
    CollectedIndicesBelow(VertexIndexes(entries), doc.edges.value, |entries|);
  }

  /**
   * Without any vertex, a built tool path with an edge is not valid: the
   * undeclared keys resolve to vertex 0, which does not exist.
   */
  lemma EdgesWithoutVerticesDangle(doc: Document)
    requires WellShaped(doc) && FromDocument(doc).Success?
    requires FromDocument(doc).value.vertices == [] && FromDocument(doc).value.EdgeCount() > 0
    ensures !FromDocument(doc).value.Valid()
  {
    var tp := FromDocument(doc).value;
    if |tp.linearEdges| > 0 {
      assert !(tp.linearEdges[0].v0 < |tp.vertices|);
    } else {
      assert !(tp.arcEdges[0].v0 < |tp.vertices|);
    }
  }
}
