/** NetRayTracer's Vector4: the four-component counterpart of Vector3, used for colours. */
module Vector4 {
  import opened SystemMath

  datatype Vec4 = Vec4(X: real, Y: real, Z: real, W: real)

  /** Vector4.Zero */
  function Zero(): Vec4 { Vec4(0.0, 0.0, 0.0, 0.0) }

  /** operator + */
  function Add(a: Vec4, b: Vec4): (r: Vec4)
    ensures Sub(r, b) == a
  {
    Vec4(a.X + b.X, a.Y + b.Y, a.Z + b.Z, a.W + b.W)
  }

  /** binary operator - */
  function Sub(a: Vec4, b: Vec4): Vec4 { Vec4(a.X - b.X, a.Y - b.Y, a.Z - b.Z, a.W - b.W) }

  /** unary operator - */
  function Neg(a: Vec4): (r: Vec4)
    ensures Add(a, r) == Zero()
  {
    Vec4(-a.X, -a.Y, -a.Z, -a.W)
  }

  /** operator *(Vector4, float) */
  function Scale(a: Vec4, s: real): Vec4 { Vec4(a.X * s, a.Y * s, a.Z * s, a.W * s) }

  /** operator *(float, Vector4) delegates to operator *(Vector4, float) */
  function ScaleLeft(s: real, a: Vec4): Vec4 { Scale(a, s) }

  /** operator /; a zero divisor gives infinities in the source and is excluded here */
  function Div(a: Vec4, s: real): (r: Vec4)
    requires s != 0.0
    ensures Scale(r, s) == a
  {
    Vec4(a.X / s, a.Y / s, a.Z / s, a.W / s)
  }

  /** operator == compares all four components */
  function Eq(a: Vec4, b: Vec4): (r: bool)
    ensures r <==> a == b
  {
    a.X == b.X && a.Y == b.Y && a.Z == b.Z && a.W == b.W
  }

  /** operator != */
  function Neq(a: Vec4, b: Vec4): (r: bool)
    ensures r <==> a != b
  {
    !Eq(a, b)
  }

  /** Equals(Vector4) defers to operator == */
  function Equals(a: Vec4, other: Vec4): (r: bool)
    ensures r <==> a == other
  {
    Eq(a, other)
  }

  /** What Equals(object) can be handed: a boxed Vector4, or anything else (including null). */
  datatype Boxed = BoxedVec4(v: Vec4) | NotAVec4

  /** Equals(object): a boxed Vector4 goes through operator ==, anything else is unequal */
  function EqualsObject(a: Vec4, obj: Boxed): (r: bool)
    ensures r <==> obj == BoxedVec4(a)
  {
    match obj
    case BoxedVec4(other) => Eq(a, other)
    case NotAVec4 => false
  }

  function Dot(a: Vec4, b: Vec4): real { a.X * b.X + a.Y * b.Y + a.Z * b.Z + a.W * b.W }

  /** vec - (2 * Dot(vec, normal)) * normal */
  function Reflection(vec: Vec4, normal: Vec4): Vec4
  {
    Sub(vec, ScaleLeft(2.0 * Dot(vec, normal), normal))
  }

  function Magnitude(v: Vec4): real { Sqrt(v.X * v.X + v.Y * v.Y + v.Z * v.Z + v.W * v.W) }

  /** Each component divided by the magnitude; the zero vector stands in for the NaN result of a zero magnitude. */
  function Normalized(v: Vec4): Vec4
  {
    var m := Magnitude(v);
    if m == 0.0 then Zero() else Div(v, m)
  }

  lemma SubIsAddNeg(a: Vec4, b: Vec4)
    ensures Sub(a, b) == Add(a, Neg(b))
  {
  }

  lemma ScaleCommutes(a: Vec4, s: real)
    ensures ScaleLeft(s, a) == Scale(a, s)
  {
  }

  lemma DivUndoesScale(a: Vec4, s: real)
    requires s != 0.0
    ensures Div(Scale(a, s), s) == a
    ensures Scale(Div(a, s), s) == a
  {
    assert a.X * s / s == a.X && a.Y * s / s == a.Y;
    assert a.Z * s / s == a.Z && a.W * s / s == a.W;
  }

  lemma ZeroIsIdentity(a: Vec4)
    ensures Add(a, Zero()) == a && Add(Zero(), a) == a
    ensures Sub(a, a) == Zero()
  {
  }

  lemma EqIsEquality(a: Vec4, b: Vec4)
    ensures Eq(a, b) <==> a == b
    ensures Neq(a, b) <==> a != b
    ensures Equals(a, b) <==> a == b
    ensures EqualsObject(a, BoxedVec4(b)) <==> a == b
    ensures !EqualsObject(a, NotAVec4)
  {
  }

  lemma DotSymmetric(a: Vec4, b: Vec4)
    ensures Dot(a, b) == Dot(b, a)
  {
  }

  lemma DotLinear(a: Vec4, b: Vec4, c: Vec4, s: real)
    ensures Dot(Add(a, b), c) == Dot(a, c) + Dot(b, c)
    ensures Dot(Scale(a, s), c) == s * Dot(a, c)
  {
  }

  /** Expansion of the squared length of v - k n. */
  lemma DotOfSubScaled(v: Vec4, n: Vec4, k: real)
    ensures Dot(Sub(v, Scale(n, k)), Sub(v, Scale(n, k))) == Dot(v, v) - 2.0 * k * Dot(v, n) + k * k * Dot(n, n)
    ensures Dot(Sub(v, Scale(n, k)), n) == Dot(v, n) - k * Dot(n, n)
  {
    var x, y, z, w := v.X - n.X * k, v.Y - n.Y * k, v.Z - n.Z * k, v.W - n.W * k;
    assert x * x == v.X * v.X - 2.0 * k * (v.X * n.X) + k * k * (n.X * n.X);
    assert y * y == v.Y * v.Y - 2.0 * k * (v.Y * n.Y) + k * k * (n.Y * n.Y);
    assert z * z == v.Z * v.Z - 2.0 * k * (v.Z * n.Z) + k * k * (n.Z * n.Z);
    assert w * w == v.W * v.W - 2.0 * k * (v.W * n.W) + k * k * (n.W * n.W);
  }

  /** Reflection across a unit normal keeps the squared length and flips the normal component. */
  lemma ReflectionPreservesLength(v: Vec4, n: Vec4)
    requires Dot(n, n) == 1.0
    ensures Dot(Reflection(v, n), Reflection(v, n)) == Dot(v, v)
    ensures Dot(Reflection(v, n), n) == -Dot(v, n)
  {
    var d := Dot(v, n);
    assert Reflection(v, n) == Sub(v, Scale(n, 2.0 * d));
    DotOfSubScaled(v, n, 2.0 * d);
    assert 2.0 * (2.0 * d) * d == (2.0 * d) * (2.0 * d) * 1.0;
  }

  /** Reflecting twice across the same unit normal gives the vector back. */
  lemma ReflectionInvolutive(v: Vec4, n: Vec4)
    requires Dot(n, n) == 1.0
    ensures Reflection(Reflection(v, n), n) == v
  {
    var d := Dot(v, n);
    var r := Reflection(v, n);
    ReflectionPreservesLength(v, n);
    assert r == Sub(v, Scale(n, 2.0 * d));
    assert Reflection(r, n) == Sub(r, Scale(n, -2.0 * d));
  }

  /** When Sqrt returns a root of the squared length, Normalized gives a unit vector. */
  lemma NormalizedIsUnit(v: Vec4)
    requires Magnitude(v) != 0.0
    requires Magnitude(v) * Magnitude(v) == Dot(v, v)
    ensures Dot(Normalized(v), Normalized(v)) == 1.0
    ensures Scale(Normalized(v), Magnitude(v)) == v
  {
    var m := Magnitude(v);
    var u := Normalized(v);
    assert u == Scale(v, 1.0 / m);
    DotLinear(v, v, u, 1.0 / m);
    DotSymmetric(v, u);
    DotLinear(v, v, v, 1.0 / m);
    assert Dot(u, u) == (1.0 / m) * ((1.0 / m) * Dot(v, v));
    assert (1.0 / m) * ((1.0 / m) * (m * m)) == 1.0;
  }
}
