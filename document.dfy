/**
 * The already-decoded JSON document the tool-path builder walks, the errors
 * it raises, and the field accessor GetRequired of source/ToolPath.cpp.
 *
 * Only what the builder inspects is kept: whether a field is present, whether
 * it has the type the builder asks for, and, for positions, the decoded X/Y
 * pair. Objects are sequences of keyed entries in iteration order.
 */
module Documents {
  import opened Vectors

  type Key = string

  datatype Option<+T> = None | Some(value: T)

  datatype Result<+T, +E> = Success(value: T) | Failure(error: E) {
    predicate IsFailure() {
      Failure?
    }

    function PropagateFailure<U>(): Result<U, E>
      requires Failure?
    {
      Failure(error)
    }

    function Extract(): T
      requires Success?
    {
      value
    }
  }

  /** A field looked up with a required type: absent, present with another type, or present with that type. */
  datatype Field<+T> = Missing | Mistyped | Given(value: T)

  /** The errors the constructor throws, one kind per distinct message. */
  datatype BuildError =
    | FieldNotFound(name: string)     // a required field is absent
    | UnexpectedType(name: string)    // a required field has another JSON type
    | NoEdgeVertices                  // an edge lists no Vertices
    | NoArcCenter                     // an arc has no Center
    | UnknownEdgeType(tag: string)    // an edge Type tag other than the two known ones

  /** The JSON value stored under ClockwiseFrom: a vertex key, or a value of another JSON type. */
  datatype JsonRef = StringRef(key: Key) | NonStringRef

  /** A vertex record; its Position is either absent or an already-decoded point. */
  datatype VertexRecord = VertexRecord(position: Option<Vector2>)

  /** An edge record: its Vertices key list, Type tag, and the arc-only ClockwiseFrom and Center. */
  datatype EdgeRecord = EdgeRecord(
    vertices: Option<seq<Key>>,
    kind: Field<string>,
    clockwiseFrom: Option<JsonRef>,
    center: Option<Vector2>)

  datatype VertexEntry = VertexEntry(key: Key, record: VertexRecord)

  datatype EdgeEntry = EdgeEntry(key: Key, record: EdgeRecord)

  /** The top-level document: a Vertices object and an Edges object. */
  datatype Document = Document(vertices: Field<seq<VertexEntry>>, edges: Field<seq<EdgeEntry>>)

  /**
   * GetRequired<T>: a missing field is a FieldNotFound error naming it, a field
   * of another type an UnexpectedType error naming it; otherwise its value.
   */
  function GetRequired<T>(f: Field<T>, name: string): (r: Result<T, BuildError>)
    ensures r.Success? <==> f.Given?
    ensures r.Success? ==> r.value == f.value
    ensures r == Failure(FieldNotFound(name)) <==> f.Missing?
    ensures r == Failure(UnexpectedType(name)) <==> f.Mistyped?
  {
    match f
    case Missing => Failure(FieldNotFound(name))
    case Mistyped => Failure(UnexpectedType(name))
    case Given(v) => Success(v)
  }

  /**
   * GetRequired<picojson::value>: only presence is checked, so it never
   * reports a type error.
   */
  function GetRequiredValue<T>(f: Option<T>, name: string): (r: Result<T, BuildError>)
    ensures r.Success? <==> f.Some?
    ensures r.Success? ==> r.value == f.value
    ensures r.Failure? ==> r.error == FieldNotFound(name)
  {
    match f
    case None => Failure(FieldNotFound(name))
    case Some(v) => Success(v)
  }
}
