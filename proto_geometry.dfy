/**
 * The raycaster prototype's Vertex, Ray, Triangle and Material. All four are classes, so a
 * reference to one may be null (None), and so may each Vector3 property of a Vertex or Material.
 * Nothing here is mutated after construction: the operations only read properties.
 */
module ProtoGeometry {
  import opened Errors
  import opened SystemMath
  import V3 = Vector3
  import PV = ProtoVector3
  import Vertices
  import Rays
  import Triangles
  import opened Drawing

  /** raycaster's Vertex: three auto-properties, each a Vector3 reference that starts out null. */
  datatype Vertex = Vertex(Position: PV.Ref, Normal: PV.Ref, TexCoord: PV.Ref)

  /**
   * operator ==: a.Position == b.Position && a.Normal == b.Normal && a.TexCoord == b.TexCoord, with
   * C#'s short-circuit &&. Each == is Vector3's operator, which dereferences both operands.
   */
  function OpEq(a: Option<Vertex>, b: Option<Vertex>): Result<bool>
  {
    if a.None? || b.None? then Fail(NullReference)
    else
      var p :- PV.OpEq(a.value.Position, b.value.Position);
      if !p then Ok(false)
      else
        var n :- PV.OpEq(a.value.Normal, b.value.Normal);
        if !n then Ok(false)
        else PV.OpEq(a.value.TexCoord, b.value.TexCoord)
  }

  /** operator != */
  function OpNeq(a: Option<Vertex>, b: Option<Vertex>): Result<bool>
  {
    var eq :- OpEq(a, b);
    Ok(!eq)
  }

  /** Equals(Vertex other): this == other */
  function Equals(self: Vertex, other: Option<Vertex>): Result<bool>
  {
    OpEq(Some(self), other)
  }

  /** A vertex whose three properties have all been set. */
  predicate FieldsSet(v: Vertex)
  {
    v.Position.Some? && v.Normal.Some? && v.TexCoord.Some?
  }

  /** Between vertices whose properties are all set, == is equality of the three vectors. */
  lemma OpEqIsFieldEquality(a: Vertex, b: Vertex)
    requires FieldsSet(a) && FieldsSet(b)
    ensures OpEq(Some(a), Some(b)) == Ok(a == b)
    ensures OpNeq(Some(a), Some(b)) == Ok(a != b)
    ensures Equals(a, Some(b)) == Ok(a == b)
  {
  }

  /** == is reflexive on a vertex whose properties are set. */
  lemma OpEqReflexive(a: Vertex)
    requires FieldsSet(a)
    ensures OpEq(Some(a), Some(a)) == Ok(true)
  {
  }

  /** A vertex whose Position was never set is not even equal to itself: comparing it throws. */
  lemma UnsetPositionThrows(a: Vertex, b: Option<Vertex>)
    requires a.Position.None?
    ensures OpEq(Some(a), b) == Fail(NullReference)
    ensures OpEq(b, Some(a)) == Fail(NullReference)
  {
  }

  /** == is symmetric on all operands, null references and unset properties included. */
  lemma OpEqSymmetric(a: Option<Vertex>, b: Option<Vertex>)
    ensures OpEq(a, b) == OpEq(b, a)
  {
    if a.Some? && b.Some? {
      PV.EqualityIsComponentwise(a.value.Position, b.value.Position);
      PV.EqualityIsComponentwise(b.value.Position, a.value.Position);
      PV.EqualityIsComponentwise(a.value.Normal, b.value.Normal);
      PV.EqualityIsComponentwise(b.value.Normal, a.value.Normal);
      PV.EqualityIsComponentwise(a.value.TexCoord, b.value.TexCoord);
      PV.EqualityIsComponentwise(b.value.TexCoord, a.value.TexCoord);
    }
  }

  /** != throws exactly when == does and otherwise negates it; Equals is == on a non-null receiver. */
  lemma OpNeqNegates(a: Option<Vertex>, b: Option<Vertex>)
    ensures OpNeq(a, b).Ok? <==> OpEq(a, b).Ok?
    ensures OpEq(a, b).Ok? ==> OpNeq(a, b).value == !OpEq(a, b).value
    ensures OpEq(a, b).Fail? ==> OpNeq(a, b) == OpEq(a, b)
    ensures a.Some? ==> Equals(a.value, b) == OpEq(a, b)
  {
  }

  /** raycaster's Ray: the origin reference as given, a normalized direction and a length. */
  datatype Ray = Ray(Origin: PV.Ref, Direction: V3.Vec3, Length: real)

  /** new Ray(origin, direction, length): reading direction.Normalized dereferences direction. */
  function MakeRayWithLength(origin: PV.Ref, direction: PV.Ref, length: real): Result<Ray>
  {
    var d :- PV.Normalized(direction);
    Ok(Ray(origin, d, length))
  }

  /** new Ray(origin, direction): the length is float.MaxValue */
  function MakeRay(origin: PV.Ref, direction: PV.Ref): Result<Ray>
  {
    MakeRayWithLength(origin, direction, FloatMaxValue)
  }

  /** PointAtDistance(t): _origin + _direction * t */
  function PointAtDistance(r: Ray, t: real): Result<V3.Vec3>
  {
    var step :- PV.Scale(Some(r.Direction), t);
    PV.Add(r.Origin, Some(step))
  }

  /**
   * Both constructors keep the origin reference, normalize the direction as NetRayTracer's Ray
   * does, and store the given length (float.MaxValue for the two-argument form). Only a null
   * direction throws.
   */
  lemma RayConstructors(origin: PV.Ref, direction: PV.Ref, length: real)
    ensures MakeRayWithLength(origin, direction, length).Fail? <==> direction.None?
    ensures MakeRay(origin, direction).Fail? <==> direction.None?
    ensures direction.Some? ==>
              var r := MakeRayWithLength(origin, direction, length).value;
              r.Origin == origin && r.Length == length &&
              r.Direction == V3.Normalized(direction.value)
    ensures direction.Some? ==> MakeRay(origin, direction).value.Length == FloatMaxValue
    ensures direction.Some? && origin.Some? ==>
              MakeRayWithLength(origin, direction, length).value.Direction ==
              Rays.MakeRay(origin.value, direction.value).Direction
  {
  }

  /** The stored direction has unit length whenever Sqrt gives the magnitude. */
  lemma RayDirectionIsUnit(origin: V3.Vec3, direction: V3.Vec3, length: real)
    requires V3.Magnitude(direction) != 0.0
    requires V3.Magnitude(direction) * V3.Magnitude(direction) == V3.Dot(direction, direction)
    ensures MakeRayWithLength(Some(origin), Some(direction), length).Ok?
    ensures var d := MakeRayWithLength(Some(origin), Some(direction), length).value.Direction;
            V3.Dot(d, d) == 1.0
  {
    Rays.MakeRayNormalizes(origin, direction);
  }

  /**
   * With an origin, PointAtDistance is NetRayTracer's: it starts at the origin and is affine in the
   * distance. Without one it throws.
   */
  lemma PointAtDistanceAffine(r: Ray, s: real, t: real)
    ensures r.Origin.None? ==> PointAtDistance(r, t) == Fail(NullReference)
    ensures r.Origin.Some? ==>
              PointAtDistance(r, t) == Ok(Rays.PointAtDistance(Rays.Ray(r.Origin.value, r.Direction), t))
    ensures r.Origin.Some? ==> PointAtDistance(r, 0.0) == Ok(r.Origin.value)
    ensures r.Origin.Some? ==>
              V3.Sub(PointAtDistance(r, s + t).value, PointAtDistance(r, s).value) == V3.Scale(r.Direction, t)
  {
    if r.Origin.Some? {
      Rays.PointAtDistanceAffine(Rays.Ray(r.Origin.value, r.Direction), s, t);
    }
  }

  /** raycaster's Material: bitmaps, three colour vectors and two scalars, all plain properties. */
  datatype Material = Material(
    Texture: Option<Bitmap>,
    BumpMap: Option<Bitmap>,
    DisplacementMap: Option<Bitmap>,
    AmbientMap: Option<Bitmap>,
    DiffuseMap: Option<Bitmap>,
    SpecularMap: Option<Bitmap>,
    SpecularCoefficientMap: Option<Bitmap>,
    AlphaMap: Option<Bitmap>,
    SpecularColor: PV.Ref,
    DiffuseColor: PV.Ref,
    AmbientColor: PV.Ref,
    Transparency: real,
    SpecularCoefficient: real)

  /**
   * raycaster's Triangle once constructed: the constructor dereferences all three vertices, so they
   * are non-null, but their Position properties stay settable and may be null later on.
   */
  datatype Triangle = Triangle(P0: Vertex, P1: Vertex, P2: Vertex, Normal: V3.Vec3, Material: Option<Material>)

  /**
   * new Triangle(p0, p1, p2, mat): the normal is Cross(p2.Position - p1.Position,
   * p0.Position - p1.Position).Normalized; every step dereferences what it reads.
   */
  function MakeTriangle(p0: Option<Vertex>, p1: Option<Vertex>, p2: Option<Vertex>, mat: Option<Material>): Result<Triangle>
  {
    if p2.None? || p1.None? || p0.None? then Fail(NullReference)
    else
      var e1 :- PV.Sub(p2.value.Position, p1.value.Position);
      var e2 :- PV.Sub(p0.value.Position, p1.value.Position);
      var n :- PV.Cross(Some(e1), Some(e2));
      var u :- PV.Normalized(Some(n));
      Ok(Triangle(p0.value, p1.value, p2.value, u, mat))
  }

  /** new Triangle(p0, p1, p2): chains to the four-argument constructor with a null material */
  function MakeUntexturedTriangle(p0: Option<Vertex>, p1: Option<Vertex>, p2: Option<Vertex>): Result<Triangle>
  {
    MakeTriangle(p0, p1, p2, None)
  }

  /** The three vertices are non-null and have their positions set. */
  predicate Placed(p0: Option<Vertex>, p1: Option<Vertex>, p2: Option<Vertex>)
  {
    p0.Some? && p1.Some? && p2.Some? &&
    p0.value.Position.Some? && p1.value.Position.Some? && p2.value.Position.Some?
  }

  /** The NetRayTracer vertex at a prototype vertex's position. */
  function AsVertex(p: V3.Vec3): Vertices.Vertex
  {
    Vertices.AtPosition(p)
  }

  /**
   * Construction succeeds exactly for placed vertices. It then keeps the vertices in order and the
   * material (null for the three-argument form), and its normal is the normal NetRayTracer's
   * Triangle computes from the same three positions.
   */
  lemma TriangleConstructors(p0: Option<Vertex>, p1: Option<Vertex>, p2: Option<Vertex>, mat: Option<Material>)
    ensures MakeTriangle(p0, p1, p2, mat).Ok? <==> Placed(p0, p1, p2)
    ensures MakeTriangle(p0, p1, p2, mat).Fail? ==> MakeTriangle(p0, p1, p2, mat).error == NullReference
    ensures Placed(p0, p1, p2) ==>
              var t := MakeTriangle(p0, p1, p2, mat).value;
              t.P0 == p0.value && t.P1 == p1.value && t.P2 == p2.value && t.Material == mat
    ensures Placed(p0, p1, p2) ==>
              MakeTriangle(p0, p1, p2, mat).value.Normal ==
              Triangles.MakeTriangle(AsVertex(p0.value.Position.value), AsVertex(p1.value.Position.value),
                                     AsVertex(p2.value.Position.value), None).Normal
    ensures MakeUntexturedTriangle(p0, p1, p2).Ok? ==> MakeUntexturedTriangle(p0, p1, p2).value.Material == None
  {
  }

  /** The normal of a constructed triangle is perpendicular to its edges. */
  lemma NormalIsPerpendicular(p0: Vertex, p1: Vertex, p2: Vertex, mat: Option<Material>)
    requires Placed(Some(p0), Some(p1), Some(p2))
    ensures var t := MakeTriangle(Some(p0), Some(p1), Some(p2), mat).value;
            V3.Dot(t.Normal, V3.Sub(p2.Position.value, p1.Position.value)) == 0.0 &&
            V3.Dot(t.Normal, V3.Sub(p1.Position.value, p0.Position.value)) == 0.0
  {
    var a, b, c := AsVertex(p0.Position.value), AsVertex(p1.Position.value), AsVertex(p2.Position.value);
    TriangleConstructors(Some(p0), Some(p1), Some(p2), mat);
    Triangles.NormalIsPerpendicular(a, b, c, None);
  }
}
