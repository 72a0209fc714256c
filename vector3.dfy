/** NetRayTracer's Vector3: an immutable three-component value with the usual operators. */
module Vector3 {
  import opened SystemMath

  datatype Vec3 = Vec3(X: real, Y: real, Z: real)

  /** Vector3.Zero */
  function Zero(): Vec3 { Vec3(0.0, 0.0, 0.0) }

  /** operator + */
  function Add(a: Vec3, b: Vec3): (r: Vec3)
    ensures Sub(r, b) == a
  {
    Vec3(a.X + b.X, a.Y + b.Y, a.Z + b.Z)
  }

  /** binary operator - */
  function Sub(a: Vec3, b: Vec3): Vec3 { Vec3(a.X - b.X, a.Y - b.Y, a.Z - b.Z) }

  /** unary operator - */
  function Neg(a: Vec3): (r: Vec3)
    ensures Add(a, r) == Zero()
  {
    Vec3(-a.X, -a.Y, -a.Z)
  }

  /** operator *(Vector3, float) */
  function Scale(a: Vec3, s: real): Vec3 { Vec3(a.X * s, a.Y * s, a.Z * s) }

  /** operator *(float, Vector3): the source multiplies each component on the right, as Scale does */
  function ScaleLeft(s: real, a: Vec3): (r: Vec3)
    ensures r == Scale(a, s)
  {
    Vec3(a.X * s, a.Y * s, a.Z * s)
  }

  /** operator /; a zero divisor gives infinities in the source and is excluded here */
  function Div(a: Vec3, s: real): (r: Vec3)
    requires s != 0.0
    ensures Scale(r, s) == a
  {
    Vec3(a.X / s, a.Y / s, a.Z / s)
  }

  /** operator == compares the three components */
  function Eq(a: Vec3, b: Vec3): (r: bool)
    ensures r <==> a == b
  {
    a.X == b.X && a.Y == b.Y && a.Z == b.Z
  }

  /** operator != */
  function Neq(a: Vec3, b: Vec3): (r: bool)
    ensures r <==> a != b
  {
    !Eq(a, b)
  }

  /** Equals(Vector3) defers to operator == */
  function Equals(a: Vec3, other: Vec3): (r: bool)
    ensures r <==> a == other
  {
    Eq(a, other)
  }

  /** What Equals(object) can be handed: a boxed Vector3, or anything else (including null). */
  datatype Boxed = BoxedVec3(v: Vec3) | NotAVec3

  /** Equals(object): a boxed Vector3 is compared componentwise, anything else is unequal */
  function EqualsObject(a: Vec3, obj: Boxed): (r: bool)
    ensures r <==> obj == BoxedVec3(a)
  {
    match obj
    case BoxedVec3(other) => a.X == other.X && a.Y == other.Y && a.Z == other.Z
    case NotAVec3 => false
  }

  function Dot(a: Vec3, b: Vec3): real { a.X * b.X + a.Y * b.Y + a.Z * b.Z }

  function Cross(a: Vec3, b: Vec3): Vec3
  {
    Vec3(a.Y * b.Z - a.Z * b.Y, -(a.X * b.Z) + a.Z * b.X, a.X * b.Y - a.Y * b.X)
  }

  /** vec - (2 * Dot(vec, normal)) * normal */
  function Reflection(vec: Vec3, normal: Vec3): Vec3
  {
    Sub(vec, ScaleLeft(2.0 * Dot(vec, normal), normal))
  }

  function Magnitude(v: Vec3): real { Sqrt(v.X * v.X + v.Y * v.Y + v.Z * v.Z) }

  /**
   * Each component divided by the magnitude. For a zero magnitude the source produces NaN
   * components; the zero vector stands in for them here.
   */
  function Normalized(v: Vec3): Vec3
  {
    var m := Magnitude(v);
    if m == 0.0 then Zero() else Div(v, m)
  }

  lemma SubIsAddNeg(a: Vec3, b: Vec3)
    ensures Sub(a, b) == Add(a, Neg(b))
  {
  }

  lemma ScaleCommutes(a: Vec3, s: real)
    ensures ScaleLeft(s, a) == Scale(a, s)
  {
  }

  lemma DivUndoesScale(a: Vec3, s: real)
    requires s != 0.0
    ensures Div(Scale(a, s), s) == a
    ensures Scale(Div(a, s), s) == a
  {
  }

  lemma ZeroIsIdentity(a: Vec3)
    ensures Add(a, Zero()) == a && Add(Zero(), a) == a
    ensures Sub(a, a) == Zero()
  {
  }

  lemma EqIsEquality(a: Vec3, b: Vec3)
    ensures Eq(a, b) <==> a == b
    ensures Neq(a, b) <==> a != b
    ensures Equals(a, b) <==> a == b
    ensures EqualsObject(a, BoxedVec3(b)) <==> a == b
    ensures !EqualsObject(a, NotAVec3)
  {
  }

  lemma DotSymmetric(a: Vec3, b: Vec3)
    ensures Dot(a, b) == Dot(b, a)
  {
  }

  lemma DotLinear(a: Vec3, b: Vec3, c: Vec3, s: real)
    ensures Dot(Add(a, b), c) == Dot(a, c) + Dot(b, c)
    ensures Dot(Sub(a, b), c) == Dot(a, c) - Dot(b, c)
    ensures Dot(Scale(a, s), c) == s * Dot(a, c)
    ensures Dot(ScaleLeft(s, a), c) == s * Dot(a, c)
  {
  }

  /** Vector3Tests.Dot: (2,3,4) . (5,6,7) = 56 */
  lemma DotExample()
    ensures Dot(Vec3(2.0, 3.0, 4.0), Vec3(5.0, 6.0, 7.0)) == 56.0
  {
  }

  /** The cross product is perpendicular to both of its operands. */
  lemma CrossOrthogonal(a: Vec3, b: Vec3)
    ensures Dot(Cross(a, b), a) == 0.0
    ensures Dot(Cross(a, b), b) == 0.0
  {
  }

  lemma CrossAnticommutes(a: Vec3, b: Vec3)
    ensures Cross(b, a) == Neg(Cross(a, b))
  {
  }

  lemma CrossOfSelf(a: Vec3)
    ensures Cross(a, a) == Zero()
  {
  }

  lemma CrossWithZero(a: Vec3)
    ensures Cross(a, Zero()) == Zero() && Cross(Zero(), a) == Zero()
  {
  }

  lemma CrossNegatesLeft(a: Vec3, b: Vec3)
    ensures Cross(Neg(a), b) == Neg(Cross(a, b))
  {
  }

  lemma DotOfNeg(a: Vec3)
    ensures Dot(Neg(a), Neg(a)) == Dot(a, a)
    ensures Magnitude(Neg(a)) == Magnitude(a)
  {
  }

  /** Expansion of the squared length of v - k n. */
  lemma DotOfSubScaled(v: Vec3, n: Vec3, k: real)
    ensures Dot(Sub(v, Scale(n, k)), Sub(v, Scale(n, k))) == Dot(v, v) - 2.0 * k * Dot(v, n) + k * k * Dot(n, n)
    ensures Dot(Sub(v, Scale(n, k)), n) == Dot(v, n) - k * Dot(n, n)
  {
    var x, y, z := v.X - n.X * k, v.Y - n.Y * k, v.Z - n.Z * k;
    assert x * x == v.X * v.X - 2.0 * k * (v.X * n.X) + k * k * (n.X * n.X);
    assert y * y == v.Y * v.Y - 2.0 * k * (v.Y * n.Y) + k * k * (n.Y * n.Y);
    assert z * z == v.Z * v.Z - 2.0 * k * (v.Z * n.Z) + k * k * (n.Z * n.Z);
  }

  /** Reflection across a unit normal keeps the squared length and flips the normal component. */
  lemma ReflectionPreservesLength(v: Vec3, n: Vec3)
    requires Dot(n, n) == 1.0
    ensures Dot(Reflection(v, n), Reflection(v, n)) == Dot(v, v)
    ensures Dot(Reflection(v, n), n) == -Dot(v, n)
  {
    var d := Dot(v, n);
    var r := Sub(v, Scale(n, 2.0 * d));
    assert Reflection(v, n) == r;
    assert Dot(r, r) == Dot(v, v) by {
      DotOfSubScaled(v, n, 2.0 * d);
      ReflectionAlgebra(Dot(v, v), d, Dot(n, n));
    }
    assert Dot(r, n) == -d by {
      DotOfSubScaled(v, n, 2.0 * d);
      ReflectionAlgebra(Dot(v, v), d, Dot(n, n));
    }
  }

  /** The scalar identities behind ReflectionPreservesLength, with k = 2 d and |n|^2 = 1. */
  lemma ReflectionAlgebra(vv: real, d: real, nn: real)
    requires nn == 1.0
    ensures vv - 2.0 * (2.0 * d) * d + (2.0 * d) * (2.0 * d) * nn == vv
    ensures d - (2.0 * d) * nn == -d
  {
  }

  /** Reflecting twice across the same unit normal gives the vector back. */
  lemma ReflectionInvolutive(v: Vec3, n: Vec3)
    requires Dot(n, n) == 1.0
    ensures Reflection(Reflection(v, n), n) == v
  {
    var d := Dot(v, n);
    var r := Reflection(v, n);
    ReflectionPreservesLength(v, n);
    assert r == Sub(v, Scale(n, 2.0 * d));
    assert Reflection(r, n) == Sub(r, Scale(n, -2.0 * d));
  }

  /** Vector3Tests.Reflection: (1,-1,0) reflected across (0,-1,0) is (1,1,0) */
  lemma ReflectionExample()
    ensures Reflection(Vec3(1.0, -1.0, 0.0), Vec3(0.0, -1.0, 0.0)) == Vec3(1.0, 1.0, 0.0)
  {
    var d := Dot(Vec3(1.0, -1.0, 0.0), Vec3(0.0, -1.0, 0.0));
    assert d == 1.0;
    assert ScaleLeft(2.0 * d, Vec3(0.0, -1.0, 0.0)) == Vec3(0.0, -2.0, 0.0);
  }

  /** When Sqrt returns a root of the squared length, Normalized gives a unit vector in the same direction. */
  lemma NormalizedIsUnit(v: Vec3)
    requires Magnitude(v) != 0.0
    requires Magnitude(v) * Magnitude(v) == Dot(v, v)
    ensures Dot(Normalized(v), Normalized(v)) == 1.0
    ensures Scale(Normalized(v), Magnitude(v)) == v
  {
    var m := Magnitude(v);
    var u := Normalized(v);
    assert u == Scale(v, 1.0 / m);
    DotLinear(v, v, u, 1.0 / m);
    DotSymmetric(v, u);
    DotLinear(v, v, v, 1.0 / m);
    assert Dot(u, u) == (1.0 / m) * ((1.0 / m) * Dot(v, v));
    assert (1.0 / m) * ((1.0 / m) * (m * m)) == 1.0;
  }

  /** Normalizing scales: the direction of a non-zero vector is kept, the zero vector maps to itself. */
  lemma NormalizedScales(v: Vec3)
    ensures Magnitude(v) != 0.0 ==> Normalized(v) == Scale(v, 1.0 / Magnitude(v))
    ensures Magnitude(v) == 0.0 ==> Normalized(v) == Zero()
  {
  }
}
