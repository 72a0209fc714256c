/**
 * NetRayTracer's Vertex: a reference type holding three Vector3 values. Its operators take
 * possibly-null references, so they are modelled over Option<Vertex>.
 */
module Vertices {
  import opened Errors
  import V3 = Vector3

  datatype Vertex = Vertex(Position: V3.Vec3, Normal: V3.Vec3, TexCoord: V3.Vec3)

  /** new Vertex() { Position = p }: the other two fields keep the zero vector */
  function AtPosition(p: V3.Vec3): Vertex
  {
    Vertex(p, V3.Zero(), V3.Zero())
  }

  /**
   * The body of operator == once both references are known to be non-null. Each field is a struct,
   * so its comparison with null is always true and the comparison of the two fields is what runs.
   */
  function FieldsEqual(a: Vertex, b: Vertex): bool
  {
    if V3.Neq(a.Position, b.Position) then false
    else if V3.Neq(a.Normal, b.Normal) then false
    else if V3.Neq(a.TexCoord, b.TexCoord) then false
    else true
  }

  /** operator ==: reading a.Position and then b.Position dereferences both operands. */
  function OpEq(a: Option<Vertex>, b: Option<Vertex>): Result<bool>
  {
    if a.None? || b.None? then Fail(NullReference) else Ok(FieldsEqual(a.value, b.value))
  }

  /** operator != */
  function OpNeq(a: Option<Vertex>, b: Option<Vertex>): Result<bool>
  {
    var eq :- OpEq(a, b);
    Ok(!eq)
  }

  /** Equals(Vertex other) */
  function Equals(a: Vertex, other: Option<Vertex>): Result<bool>
  {
    OpEq(Some(a), other)
  }

  /** What Equals(object) can be handed: a vertex, or something `as Vertex` turns into null. */
  datatype Boxed = BoxedVertex(v: Vertex) | NotAVertex

  function AsVertex(obj: Boxed): Option<Vertex>
  {
    match obj
    case BoxedVertex(v) => Some(v)
    case NotAVertex => None
  }

  /**
   * Equals(object) as written: the null test `other != null` resolves to the overloaded
   * operator !=, which dereferences its null right operand.
   */
  function EqualsObject(a: Vertex, obj: Boxed): Result<bool>
  {
    var other := AsVertex(obj);
    var notNull :- OpNeq(other, None);
    if notNull then OpEq(Some(a), other) else Ok(false)
  }

  /** Equals(object) with the null test done on the reference, as evidently intended. */
  function EqualsObjectCorrected(a: Vertex, obj: Boxed): Result<bool>
  {
    var other := AsVertex(obj);
    if other.Some? then OpEq(Some(a), other) else Ok(false)
  }

  /** operator == on two vertices is value equality, field by field. */
  lemma OpEqIsValueEquality(a: Vertex, b: Vertex)
    ensures OpEq(Some(a), Some(b)) == Ok(a == b)
    ensures FieldsEqual(a, b) <==> V3.Eq(a.Position, b.Position) && V3.Eq(a.Normal, b.Normal) && V3.Eq(a.TexCoord, b.TexCoord)
    ensures OpNeq(Some(a), Some(b)) == Ok(a != b)
    ensures Equals(a, Some(b)) == Ok(a == b)
  {
    V3.EqIsEquality(a.Position, b.Position);
    V3.EqIsEquality(a.Normal, b.Normal);
    V3.EqIsEquality(a.TexCoord, b.TexCoord);
  }

  /** A null operand makes operator ==, operator != and Equals(Vertex) throw. */
  lemma NullOperandThrows(a: Option<Vertex>, b: Option<Vertex>)
    requires a.None? || b.None?
    ensures OpEq(a, b) == Fail(NullReference)
    ensures OpNeq(a, b) == Fail(NullReference)
  {
  }

  /** Equals(object) as written throws for every argument, vertex or not. */
  lemma EqualsObjectAlwaysThrows(a: Vertex, obj: Boxed)
    ensures EqualsObject(a, obj) == Fail(NullReference)
  {
  }

  /** The corrected Equals(object) is value equality on vertices and false for everything else. */
  lemma EqualsObjectCorrectedIsEquality(a: Vertex, b: Vertex)
    ensures EqualsObjectCorrected(a, BoxedVertex(b)) == Ok(a == b)
    ensures EqualsObjectCorrected(a, NotAVertex) == Ok(false)
  {
    OpEqIsValueEquality(a, b);
  }
}
