/**
 * The raycaster prototype's Vector3: a class rather than a struct. Its operators never change an
 * operand and always build a new instance from the same component arithmetic as NetRayTracer's
 * struct, so an instance is modelled by its components (a Vec3) and a reference that may be null
 * by Option<Vec3>. Every operator dereferences its operands, so a null one throws a
 * NullReferenceException.
 */
module ProtoVector3 {
  import opened Errors
  import V3 = Vector3

  /** A Vector3 reference: None is null. */
  type Ref = Option<V3.Vec3>

  /** new Vector3(other): copies the three components */
  function Copy(other: Ref): Result<V3.Vec3>
  {
    if other.None? then Fail(NullReference) else Ok(other.value)
  }

  /** operator + */
  function Add(a: Ref, b: Ref): Result<V3.Vec3>
  {
    if a.None? || b.None? then Fail(NullReference) else Ok(V3.Add(a.value, b.value))
  }

  /** binary operator - */
  function Sub(a: Ref, b: Ref): Result<V3.Vec3>
  {
    if a.None? || b.None? then Fail(NullReference) else Ok(V3.Sub(a.value, b.value))
  }

  /** unary operator - */
  function Neg(a: Ref): Result<V3.Vec3>
  {
    if a.None? then Fail(NullReference) else Ok(V3.Neg(a.value))
  }

  /** operator *(Vector3, float) */
  function Scale(a: Ref, s: real): Result<V3.Vec3>
  {
    if a.None? then Fail(NullReference) else Ok(V3.Scale(a.value, s))
  }

  /** operator *(float, Vector3) */
  function ScaleLeft(s: real, a: Ref): Result<V3.Vec3>
  {
    if a.None? then Fail(NullReference) else Ok(V3.ScaleLeft(s, a.value))
  }

  /** operator == reads the components of both operands */
  function OpEq(a: Ref, b: Ref): Result<bool>
  {
    if a.None? || b.None? then Fail(NullReference)
    else Ok(V3.Eq(a.value, b.value))
  }

  /** operator != */
  function OpNeq(a: Ref, b: Ref): Result<bool>
  {
    var eq :- OpEq(a, b);
    Ok(!eq)
  }

  /** Equals(Vector3 other): this == other */
  function Equals(self: V3.Vec3, other: Ref): Result<bool>
  {
    OpEq(Some(self), other)
  }

  function Dot(a: Ref, b: Ref): Result<real>
  {
    if a.None? || b.None? then Fail(NullReference)
    else Ok(V3.Dot(a.value, b.value))
  }

  function Cross(a: Ref, b: Ref): Result<V3.Vec3>
  {
    if a.None? || b.None? then Fail(NullReference)
    else Ok(V3.Cross(a.value, b.value))
  }

  /** The Magnitude property */
  function Magnitude(a: Ref): Result<real>
  {
    if a.None? then Fail(NullReference)
    else Ok(V3.Magnitude(a.value))
  }

  /** The Normalized property; a zero magnitude stands for the source's NaN components as in Vector3.Normalized. */
  function Normalized(a: Ref): Result<V3.Vec3>
  {
    if a.None? then Fail(NullReference) else Ok(V3.Normalized(a.value))
  }

  /** vec - (2 * Dot(vec, normal)) * normal */
  function Reflection(vec: Ref, normal: Ref): Result<V3.Vec3>
  {
    var d :- Dot(vec, normal);
    var s :- ScaleLeft(2.0 * d, normal);
    Sub(vec, Some(s))
  }

  /** On non-null operands every operator computes what the struct Vector3's operator does. */
  lemma AgreesWithValueType(a: V3.Vec3, b: V3.Vec3, s: real)
    ensures Copy(Some(a)) == Ok(a)
    ensures Add(Some(a), Some(b)) == Ok(V3.Add(a, b))
    ensures Sub(Some(a), Some(b)) == Ok(V3.Sub(a, b))
    ensures Neg(Some(a)) == Ok(V3.Neg(a))
    ensures Scale(Some(a), s) == Ok(V3.Scale(a, s))
    ensures ScaleLeft(s, Some(a)) == Ok(V3.ScaleLeft(s, a))
    ensures OpEq(Some(a), Some(b)) == Ok(V3.Eq(a, b))
    ensures Dot(Some(a), Some(b)) == Ok(V3.Dot(a, b))
    ensures Cross(Some(a), Some(b)) == Ok(V3.Cross(a, b))
    ensures Reflection(Some(a), Some(b)) == Ok(V3.Reflection(a, b))
    ensures Magnitude(Some(a)) == Ok(V3.Magnitude(a))
    ensures Normalized(Some(a)) == Ok(V3.Normalized(a))
  {
  }

  /** A null operand makes every binary operator throw. */
  lemma NullOperandThrows(a: Ref, b: Ref)
    requires a.None? || b.None?
    ensures Add(a, b) == Fail(NullReference) && Sub(a, b) == Fail(NullReference)
    ensures OpEq(a, b) == Fail(NullReference) && OpNeq(a, b) == Fail(NullReference)
    ensures Dot(a, b) == Fail(NullReference) && Cross(a, b) == Fail(NullReference)
    ensures Reflection(a, b) == Fail(NullReference)
    ensures a.None? ==> Magnitude(a) == Fail(NullReference) && Normalized(a) == Fail(NullReference)
  {
  }

  /** a - b == a + (-b), and s * a == a * s, null operands included. */
  lemma OperatorIdentities(a: Ref, b: Ref, s: real)
    ensures b.Some? ==> Sub(a, b) == Add(a, Some(Neg(b).value))
    ensures ScaleLeft(s, a) == Scale(a, s)
  {
  }

  /** Dot is symmetric, and both orders throw on a null operand. */
  lemma DotSymmetric(a: Ref, b: Ref)
    ensures Dot(a, b) == Dot(b, a)
  {
  }

  /** The cross product of two non-null vectors is orthogonal to both. */
  lemma CrossOrthogonal(a: V3.Vec3, b: V3.Vec3)
    ensures Cross(Some(a), Some(b)).Ok?
    ensures Dot(Some(Cross(Some(a), Some(b)).value), Some(a)) == Ok(0.0)
    ensures Dot(Some(Cross(Some(a), Some(b)).value), Some(b)) == Ok(0.0)
  {
    AgreesWithValueType(a, b, 0.0);
    V3.CrossOrthogonal(a, b);
    AgreesWithValueType(V3.Cross(a, b), a, 0.0);
    AgreesWithValueType(V3.Cross(a, b), b, 0.0);
  }

  /** Reflecting off a unit normal keeps the squared length. */
  lemma ReflectionPreservesLength(v: V3.Vec3, n: V3.Vec3)
    requires V3.Dot(n, n) == 1.0
    ensures Reflection(Some(v), Some(n)).Ok?
    ensures Dot(Some(Reflection(Some(v), Some(n)).value), Some(Reflection(Some(v), Some(n)).value)) == Ok(V3.Dot(v, v))
  {
    AgreesWithValueType(v, n, 0.0);
    V3.ReflectionPreservesLength(v, n);
    var r := V3.Reflection(v, n);
    AgreesWithValueType(r, r, 0.0);
  }

  /** == is componentwise equality, != its negation and Equals agrees with ==; null throws. */
  lemma EqualityIsComponentwise(a: Ref, b: Ref)
    ensures a.Some? && b.Some? ==> OpEq(a, b) == Ok(a.value == b.value)
    ensures a.Some? && b.Some? ==> OpNeq(a, b) == Ok(a.value != b.value)
    ensures a.Some? ==> Equals(a.value, b) == OpEq(a, b)
    ensures a.None? || b.None? ==> OpEq(a, b) == Fail(NullReference)
  {
  }
}
