/**
 * NetRayTracer's Triangle and the Material it refers to: the stored normal and area, texture
 * coordinates at a point, and the colour and specular coefficient looked up there.
 */
module Triangles {
  import opened Errors
  import opened SystemMath
  import opened Vector3
  import V4 = Vector4
  import opened Vertices
  import opened Drawing

  /** NetRayTracer's Material: a bag of optional bitmaps and scalar properties. */
  datatype Material = Material(
    Texture: Option<Bitmap>,
    BumpMap: Option<Bitmap>,
    DisplacementMap: Option<Bitmap>,
    AmbientMap: Option<Bitmap>,
    DiffuseMap: Option<Bitmap>,
    SpecularMap: Option<Bitmap>,
    SpecularCoefficientMap: Option<Bitmap>,
    AlphaMap: Option<Bitmap>,
    SpecularColor: Vec3,
    DiffuseColor: Vec3,
    AmbientColor: Vec3,
    Transparency: real,
    SpecularCoefficient: real,
    Name: Option<string>)

  datatype Triangle = Triangle(P0: Vertex, P1: Vertex, P2: Vertex, Normal: Vec3, Area: real, Material: Option<Material>)

  /** The cross product the constructor starts from: (p2 - p1) x (p0 - p1). */
  function RawNormal(p0: Vertex, p1: Vertex, p2: Vertex): Vec3
  {
    Cross(Sub(p2.Position, p1.Position), Sub(p0.Position, p1.Position))
  }

  /** new Triangle(p0, p1, p2, mat) */
  function MakeTriangle(p0: Vertex, p1: Vertex, p2: Vertex, mat: Option<Material>): Triangle
  {
    var n := RawNormal(p0, p1, p2);
    Triangle(p0, p1, p2, Normalized(n), Magnitude(n), mat)
  }

  /** new Triangle(p0, p1, p2): no material */
  function MakeUntexturedTriangle(p0: Vertex, p1: Vertex, p2: Vertex): Triangle
  {
    MakeTriangle(p0, p1, p2, None)
  }

  datatype Weights = Weights(W0: real, W1: real, W2: real)

  /**
   * The weights GetTextureCoordinates gives the three vertices at point x. All three cross
   * products are taken against x - P1. A zero area makes them NaN in the source: None here.
   */
  function TextureWeights(t: Triangle, x: Vec3): Option<Weights>
  {
    if t.Area == 0.0 then None
    else
      var p0p2 := Sub(t.P0.Position, t.P2.Position);
      var p1p2 := Sub(t.P1.Position, t.P2.Position);
      var p1p0 := Sub(t.P1.Position, t.P0.Position);
      var xp1 := Sub(x, t.P1.Position);
      Some(Weights(Magnitude(Cross(p1p2, xp1)) / t.Area,
                   Magnitude(Cross(p0p2, xp1)) / t.Area,
                   Magnitude(Cross(p1p0, xp1)) / t.Area))
  }

  datatype TexturePoint = TexturePoint(U: real, V: real)

  /** GetTextureCoordinates: the vertices' texture coordinates blended by the weights */
  function GetTextureCoordinates(t: Triangle, x: Vec3): Option<TexturePoint>
  {
    match TextureWeights(t, x)
    case None => None
    case Some(w) =>
      Some(TexturePoint(t.P0.TexCoord.X * w.W0 + t.P1.TexCoord.X * w.W1 + t.P2.TexCoord.X * w.W2,
                        t.P0.TexCoord.Y * w.W0 + t.P1.TexCoord.Y * w.W1 + t.P2.TexCoord.Y * w.W2))
  }

  /** The colour GetColor returns for a triangle without material. */
  const White: V4.Vec4 := V4.Vec4(1.0, 1.0, 1.0, 1.0)

  /** A pixel's channels scaled to [0, 1]: R, G, B, A into X, Y, Z, W. */
  function ChannelColor(c: Color): V4.Vec4
  {
    V4.Vec4(c.R as real / 255.0, c.G as real / 255.0, c.B as real / 255.0, c.A as real / 255.0)
  }

  /** GetPixel((int)(u * Width), (int)(v * Height)) */
  function Sample(b: Bitmap, u: real, v: real): Result<Color>
  {
    GetPixel(b, Trunc(u * b.Width as real), Trunc(v * b.Height as real))
  }

  /**
   * The material branch of GetColor, given the texture coordinates: the diffuse map sampled at the
   * wrapped coordinates. A null diffuse map throws at diffuse.Width. For NaN coordinates (zero
   * area) the model assumes a runtime whose (int) cast gives int.MinValue, as the .NET Framework's
   * does, so GetPixel rejects them; a runtime that casts NaN to 0 would read pixel (0, 0) instead.
   */
  function DiffuseColorAt(m: Material, uv: Option<TexturePoint>): Result<V4.Vec4>
  {
    if m.DiffuseMap.None? then Fail(NullReference)
    else match uv
      case None => Fail(ArgumentOutOfRange)
      case Some(p) =>
        var c :- Sample(m.DiffuseMap.value, FloatRem(p.U, 1.0), FloatRem(p.V, 1.0));
        Ok(ChannelColor(c))
  }

  /** GetColor: white without a material, otherwise the diffuse texel at the point's texture coordinates */
  function GetColor(t: Triangle, pos: Vec3): Result<V4.Vec4>
  {
    if t.Material.None? then Ok(White) else DiffuseColorAt(t.Material.value, GetTextureCoordinates(t, pos))
  }

  /** The material branch of GetSpecularCoefficient: the coefficient without a map, else the map's red channel (unwrapped). */
  function SpecularCoefficientAt(m: Material, uv: Option<TexturePoint>): Result<real>
  {
    if m.SpecularCoefficientMap.None? then Ok(m.SpecularCoefficient)
    else match uv
      case None => Fail(ArgumentOutOfRange)
      case Some(p) =>
        var c :- Sample(m.SpecularCoefficientMap.value, p.U, p.V);
        Ok(c.R as real / 255.0)
  }

  /** GetSpecularCoefficient: 1 without a material */
  function GetSpecularCoefficient(t: Triangle, pos: Vec3): Result<real>
  {
    if t.Material.None? then Ok(1.0) else SpecularCoefficientAt(t.Material.value, GetTextureCoordinates(t, pos))
  }

  /** The stored normal is perpendicular to every edge of the triangle. */
  lemma NormalIsPerpendicular(p0: Vertex, p1: Vertex, p2: Vertex, mat: Option<Material>)
    ensures var t := MakeTriangle(p0, p1, p2, mat);
            Dot(t.Normal, Sub(p2.Position, p1.Position)) == 0.0 &&
            Dot(t.Normal, Sub(p0.Position, p1.Position)) == 0.0 &&
            Dot(t.Normal, Sub(p1.Position, p0.Position)) == 0.0
  {
    var n := RawNormal(p0, p1, p2);
    var e1, e2 := Sub(p2.Position, p1.Position), Sub(p0.Position, p1.Position);
    CrossOrthogonal(e1, e2);
    DotSymmetric(n, e1);
    DotSymmetric(n, e2);
    NormalizedScales(n);
    if Magnitude(n) != 0.0 {
      DotLinear(n, n, e1, 1.0 / Magnitude(n));
      DotLinear(n, n, e2, 1.0 / Magnitude(n));
    }
    var u := Normalized(n);
    assert Sub(p1.Position, p0.Position) == Neg(e2);
    assert Dot(u, Neg(e2)) == -Dot(u, e2);
  }

  /** The constructor keeps the vertices and the material, and when Sqrt is a root the normal has unit length. */
  lemma MakeTriangleKeepsArguments(p0: Vertex, p1: Vertex, p2: Vertex, mat: Option<Material>)
    ensures var t := MakeTriangle(p0, p1, p2, mat);
            t.P0 == p0 && t.P1 == p1 && t.P2 == p2 && t.Material == mat
    ensures var t := MakeTriangle(p0, p1, p2, mat);
            t.Area != 0.0 && t.Area * t.Area == Dot(RawNormal(p0, p1, p2), RawNormal(p0, p1, p2)) ==>
              Dot(t.Normal, t.Normal) == 1.0
    ensures MakeUntexturedTriangle(p0, p1, p2).Material == None
  {
    var n := RawNormal(p0, p1, p2);
    if Magnitude(n) != 0.0 && Magnitude(n) * Magnitude(n) == Dot(n, n) {
      NormalizedIsUnit(n);
    }
  }

  lemma NormalizedExample()
    requires Sqrt(4.0) == 2.0
    ensures Magnitude(Vec3(0.0, 0.0, 2.0)) == 2.0
    ensures Normalized(Vec3(0.0, 0.0, 2.0)) == Vec3(0.0, 0.0, 1.0)
  {
    assert Magnitude(Vec3(0.0, 0.0, 2.0)) == Sqrt(4.0);
  }

  /** Vertices whose raw normal is (0,0,2) make a triangle of area 2 and normal (0,0,1). */
  lemma NormalFromRaw(a: Vertex, b: Vertex, c: Vertex, mat: Option<Material>)
    requires Sqrt(4.0) == 2.0
    requires RawNormal(a, b, c) == Vec3(0.0, 0.0, 2.0)
    ensures MakeTriangle(a, b, c, mat).Area == 2.0 && MakeTriangle(a, b, c, mat).Normal == Vec3(0.0, 0.0, 1.0)
  {
    NormalizedExample();
  }

  /** A cross product of two vectors in the xy-plane, the first along x, points along z. */
  lemma CrossInPlane(p: real, q: real, r: real)
    ensures Cross(Vec3(p, 0.0, 0.0), Vec3(q, r, 0.0)) == Vec3(0.0, 0.0, p * r)
  {
  }

  /** The raw-normal computation on the positions (0,1,0), (-1,0,0), (1,0,0) gives (0,0,2). */
  lemma RawNormalOfPositions(a: Vec3, b: Vec3, c: Vec3)
    requires a == Vec3(0.0, 1.0, 0.0) && b == Vec3(-1.0, 0.0, 0.0) && c == Vec3(1.0, 0.0, 0.0)
    ensures Cross(Sub(c, b), Sub(a, b)) == Vec3(0.0, 0.0, 2.0)
  {
    assert Sub(c, b) == Vec3(2.0, 0.0, 0.0);
    assert Sub(a, b) == Vec3(1.0, 1.0, 0.0);
    CrossInPlane(2.0, 1.0, 1.0);
  }

  /** The raw normal of vertices at (0,1,0), (-1,0,0), (1,0,0) is (0,0,2). */
  lemma RawNormalExample(a: Vertex, b: Vertex, c: Vertex)
    requires a.Position == Vec3(0.0, 1.0, 0.0) && b.Position == Vec3(-1.0, 0.0, 0.0) && c.Position == Vec3(1.0, 0.0, 0.0)
    ensures RawNormal(a, b, c) == Vec3(0.0, 0.0, 2.0)
  {
    RawNormalOfPositions(a.Position, b.Position, c.Position);
  }

  /** TriangleTests.TriangleInitialize: (0,1,0), (-1,0,0), (1,0,0) gives area 2 and normal (0,0,1). */
  lemma TriangleInitializeExample(a: Vertex, b: Vertex, c: Vertex)
    requires Sqrt(4.0) == 2.0
    requires a.Position == Vec3(0.0, 1.0, 0.0) && b.Position == Vec3(-1.0, 0.0, 0.0) && c.Position == Vec3(1.0, 0.0, 0.0)
    ensures MakeUntexturedTriangle(a, b, c).Area == 2.0
    ensures MakeUntexturedTriangle(a, b, c).Normal == Vec3(0.0, 0.0, 1.0)
  {
    RawNormalExample(a, b, c);
    NormalFromRaw(a, b, c, None);
  }

  /** TriangleTests.TriangleInitialize, first three checks: the vertices come back equal, in order. */
  lemma TriangleInitializeVertices(a: Vertex, b: Vertex, c: Vertex)
    ensures Vertices.Equals(a, Some(MakeUntexturedTriangle(a, b, c).P0)) == Ok(true)
    ensures Vertices.Equals(b, Some(MakeUntexturedTriangle(a, b, c).P1)) == Ok(true)
    ensures Vertices.Equals(c, Some(MakeUntexturedTriangle(a, b, c).P2)) == Ok(true)
  {
    OpEqIsValueEquality(a, a);
    OpEqIsValueEquality(b, b);
    OpEqIsValueEquality(c, c);
  }

  /** Cross products that differ from the raw normal only in sign. */
  lemma CrossAgainstP1(p0: Vec3, p1: Vec3, p2: Vec3)
    ensures Cross(Sub(p1, p2), Sub(p0, p1)) == Neg(Cross(Sub(p2, p1), Sub(p0, p1)))
    ensures Cross(Sub(p0, p2), Sub(p0, p1)) == Neg(Cross(Sub(p2, p1), Sub(p0, p1)))
    ensures Cross(Sub(p1, p0), Sub(p0, p1)) == Zero()
    ensures Cross(Sub(p1, p2), Sub(p2, p1)) == Zero()
    ensures Cross(Sub(p0, p2), Sub(p2, p1)) == Neg(Cross(Sub(p2, p1), Sub(p0, p1)))
    ensures Cross(Sub(p1, p0), Sub(p2, p1)) == Cross(Sub(p2, p1), Sub(p0, p1))
  {
    var a, b := Sub(p2, p1), Sub(p0, p1);
    CrossOfDifference(b, a, b);
    CrossOfDifference(b, a, a);
    CrossOfDifference(Zero(), a, b);
    CrossOfDifference(Zero(), b, b);
    CrossOfDifference(Zero(), a, a);
    CrossOfDifference(Zero(), b, a);
  }

  /** Cross is linear in its left operand: (u - v) x w == u x w - v x w. */
  lemma CrossOfDifference(u: Vec3, v: Vec3, w: Vec3)
    ensures Cross(Sub(u, v), w) == Sub(Cross(u, w), Cross(v, w))
  {
  }

  /** A weight whose cross product is the raw normal up to sign is 1. */
  lemma UnitWeight(t: Triangle, c: Vec3)
    requires t == MakeTriangle(t.P0, t.P1, t.P2, t.Material) && t.Area != 0.0
    requires c == RawNormal(t.P0, t.P1, t.P2) || c == Neg(RawNormal(t.P0, t.P1, t.P2))
    ensures Magnitude(c) / t.Area == 1.0
  {
    DotOfNeg(RawNormal(t.P0, t.P1, t.P2));
  }

  /** A weight whose cross product vanishes is 0, when Sqrt(0) is 0. */
  lemma ZeroWeight(t: Triangle, c: Vec3)
    requires Sqrt(0.0) == 0.0 && t.Area != 0.0 && c == Zero()
    ensures Magnitude(c) / t.Area == 0.0
  {
    assert c.X * c.X + c.Y * c.Y + c.Z * c.Z == 0.0;
  }

  /**
   * The weights GetTextureCoordinates uses, at the three corners of a constructed triangle:
   * (1, 1, 0) at P0, (0, 0, 0) at P1 and (0, 1, 1) at P2. They do not form barycentric coordinates.
   */
  lemma WeightsAtVertices(p0: Vertex, p1: Vertex, p2: Vertex, mat: Option<Material>)
    requires Sqrt(0.0) == 0.0
    requires MakeTriangle(p0, p1, p2, mat).Area != 0.0
    ensures TextureWeights(MakeTriangle(p0, p1, p2, mat), p0.Position) == Some(Weights(1.0, 1.0, 0.0))
    ensures TextureWeights(MakeTriangle(p0, p1, p2, mat), p1.Position) == Some(Weights(0.0, 0.0, 0.0))
    ensures TextureWeights(MakeTriangle(p0, p1, p2, mat), p2.Position) == Some(Weights(0.0, 1.0, 1.0))
  {
    var t := MakeTriangle(p0, p1, p2, mat);
    var a, b, c := p0.Position, p1.Position, p2.Position;
    CrossAgainstP1(a, b, c);
    UnitWeight(t, Cross(Sub(b, c), Sub(a, b)));
    UnitWeight(t, Cross(Sub(a, c), Sub(a, b)));
    ZeroWeight(t, Cross(Sub(b, a), Sub(a, b)));
    assert Sub(b, b) == Zero();
    CrossWithZero(Sub(b, c));
    CrossWithZero(Sub(a, c));
    CrossWithZero(Sub(b, a));
    ZeroWeight(t, Cross(Sub(b, c), Zero()));
    ZeroWeight(t, Cross(Sub(a, c), Zero()));
    ZeroWeight(t, Cross(Sub(b, a), Zero()));
    ZeroWeight(t, Cross(Sub(b, c), Sub(c, b)));
    UnitWeight(t, Cross(Sub(a, c), Sub(c, b)));
    UnitWeight(t, Cross(Sub(b, a), Sub(c, b)));
  }

  /** Consequently the texture coordinate at P1 is (0, 0) whatever the vertices' texture coordinates are. */
  lemma TextureCoordinatesAtP1(p0: Vertex, p1: Vertex, p2: Vertex, mat: Option<Material>)
    requires Sqrt(0.0) == 0.0
    requires MakeTriangle(p0, p1, p2, mat).Area != 0.0
    ensures GetTextureCoordinates(MakeTriangle(p0, p1, p2, mat), p1.Position) == Some(TexturePoint(0.0, 0.0))
  {
    WeightsAtVertices(p0, p1, p2, mat);
  }

  /** Without a material the triangle is white and its specular coefficient is 1, wherever it is asked. */
  lemma NoMaterialDefaults(t: Triangle, pos: Vec3)
    requires t.Material.None?
    ensures GetColor(t, pos) == Ok(White)
    ensures GetSpecularCoefficient(t, pos) == Ok(1.0)
  {
  }

  /**
   * A colour read from a texture has every channel in [0, 1], and it is the pixel Sample selects
   * at the wrapped coordinates.
   */
  lemma DiffuseColorIsTexel(m: Material, uv: Option<TexturePoint>)
    requires DiffuseColorAt(m, uv).Ok?
    ensures var c := DiffuseColorAt(m, uv).value;
            0.0 <= c.X <= 1.0 && 0.0 <= c.Y <= 1.0 && 0.0 <= c.Z <= 1.0 && 0.0 <= c.W <= 1.0
    ensures m.DiffuseMap.Some? && uv.Some?
    ensures var px := Sample(m.DiffuseMap.value, FloatRem(uv.value.U, 1.0), FloatRem(uv.value.V, 1.0));
            px.Ok? && DiffuseColorAt(m, uv).value == ChannelColor(px.value)
  {
    var px := Sample(m.DiffuseMap.value, FloatRem(uv.value.U, 1.0), FloatRem(uv.value.V, 1.0));
    ChannelsInUnitRange(px.value);
  }

  lemma ChannelsInUnitRange(c: Color)
    ensures var v := ChannelColor(c);
            0.0 <= v.X <= 1.0 && 0.0 <= v.Y <= 1.0 && 0.0 <= v.Z <= 1.0 && 0.0 <= v.W <= 1.0
  {
  }

  /** A fraction f in [0, 1) of a positive size s lands on a valid index. */
  lemma ScaledFractionInRange(f: real, s: nat)
    requires 0.0 <= f < 1.0 && s > 0
    ensures 0 <= Trunc(f * s as real) < s
  {
    assert 0.0 <= f * s as real;
    assert (1.0 - f) * s as real > 0.0;
    TruncTowardZero(f * s as real);
  }

  /** Non-negative texture coordinates always wrap into a non-empty diffuse map, so the lookup succeeds. */
  lemma NonNegativeCoordinatesSucceed(m: Material, uv: TexturePoint)
    requires m.DiffuseMap.Some? && m.DiffuseMap.value.Width > 0 && m.DiffuseMap.value.Height > 0
    requires uv.U >= 0.0 && uv.V >= 0.0
    ensures DiffuseColorAt(m, Some(uv)).Ok?
  {
    FloatRemOne(uv.U);
    FloatRemOne(uv.V);
    ScaledFractionInRange(FloatRem(uv.U, 1.0), m.DiffuseMap.value.Width);
    ScaledFractionInRange(FloatRem(uv.V, 1.0), m.DiffuseMap.value.Height);
  }

  /** The remainder keeps the sign, so a coordinate whose wrapped value is at most -1/Width is rejected. */
  lemma NegativeCoordinateFails(m: Material, uv: TexturePoint)
    requires m.DiffuseMap.Some?
    requires FloatRem(uv.U, 1.0) * m.DiffuseMap.value.Width as real <= -1.0
    ensures DiffuseColorAt(m, Some(uv)) == Fail(ArgumentOutOfRange)
  {
    var img := m.DiffuseMap.value;
    TruncTowardZero(FloatRem(uv.U, 1.0) * img.Width as real);
    assert Sample(img, FloatRem(uv.U, 1.0), FloatRem(uv.V, 1.0)) == Fail(ArgumentOutOfRange);
  }

  /** GetColor and GetSpecularCoefficient hand a triangle with material to the material's lookups. */
  lemma MaterialLookups(t: Triangle, pos: Vec3)
    requires t.Material.Some?
    ensures GetColor(t, pos) == DiffuseColorAt(t.Material.value, GetTextureCoordinates(t, pos))
    ensures GetSpecularCoefficient(t, pos) == SpecularCoefficientAt(t.Material.value, GetTextureCoordinates(t, pos))
    ensures t.Area == 0.0 ==> GetTextureCoordinates(t, pos).None?
    ensures t.Area != 0.0 ==> GetTextureCoordinates(t, pos).Some?
  {
  }

  /** The outcomes of the specular lookup: the material's coefficient without a map, a red channel in [0, 1] from a map. */
  lemma SpecularCoefficientCases(m: Material, uv: Option<TexturePoint>)
    ensures m.SpecularCoefficientMap.None? ==> SpecularCoefficientAt(m, uv) == Ok(m.SpecularCoefficient)
    ensures m.SpecularCoefficientMap.Some? && SpecularCoefficientAt(m, uv).Ok? ==> 0.0 <= SpecularCoefficientAt(m, uv).value <= 1.0
    ensures m.SpecularCoefficientMap.Some? && uv.None? ==> SpecularCoefficientAt(m, uv) == Fail(ArgumentOutOfRange)
  {
  }
}
