# A verified model of a triangle ray tracer

This project models the core of NetRayTracer, a small C# ray tracer that renders a scene of textured triangles loaded from Wavefront OBJ and MTL files. It also models the older `raycaster` prototype the tracer grew out of. The model is written in Dafny, and Dafny proves the properties stated about it. Single-precision floats are read as mathematical reals. `Math.Sqrt` and `Math.Tan` are left uninterpreted, so no property depends on a particular root or tangent.

The modules follow the source files:

- `Errors` and `SystemMath` (common.dfy) hold the .NET exceptions the code can raise and a `Result` type that carries them. They also hold the float facts the code relies on: `float.MaxValue`, `(float)Math.PI`, the `(int)` cast, C#'s truncating `%`, and a division that can give an infinity or NaN.
- `Vector3` and `Vector4` are the value-type vectors: operators, `Dot`, `Cross`, `Reflection`, `Zero` and the equality members.
- `Matrices` is the mutable `Matrix` class: indexer, product, equality and `Identity`. It works over `array2<real>` with loop invariants. The product and `Equals(object)` are modelled as written, and also as evidently intended (see Findings).
- `Rays` is `Ray`: the constructor that normalizes the direction, and `PointAtDistance`.
- `Collision` is `CollisionExtensions.CollidesWith`. It returns the answer together with the time written to the `ref` parameter, which the caller sees even when the answer is false. The unit-test scene of `CollisionTests` is worked through as lemmas.
- `Vertices` is `Vertex` with its null-aware `==`, `!=` and `Equals`, over `Option<Vertex>`.
- `Triangles` holds `Triangle` and the `Material` it refers to: the stored normal and area, texture coordinates at a point, `GetColor` and `GetSpecularCoefficient`. `Drawing` is the bitmap grid those lookups read.
- `Rendering` is the `Renderer`:
  - the `CastRay` nearest-hit loop;
  - the pinhole camera and per-pixel viewport samples of `Render`;
  - the task-slot and colour arrays, filled by nested loops and copied into the output image.
- `Text` covers the base-library pieces the parsers use: `String.Split` with and without `RemoveEmptyEntries`, `Enumerable.Reverse`, `int.Parse` and `float.Parse`.
- `ObjFormat` holds what both OBJ loaders share: the face and material records, `ParseFaceVertex`, `ParseFaceData`, `LoadMaterials`, and the face and state directives of the line switch.
- `ObjLoader` is NetRayTracer's `ObjData.LoadFile`: a class whose list fields the line loop fills in place. The file system is a map from paths to lines.
- `SceneConverter` is `ObjToSceneConverter`:
  - the insert-if-absent bitmap cache, a class over a map;
  - the material loop;
  - the face loop that resolves 1-based indices into triangles.
- `ProtoVector3`, `ProtoGeometry`, `ProtoCollision` and `ProtoObjLoader` model the prototype's reference-type `Vector3`, its `Vertex`, `Ray`, `Triangle` and `Material`, its `CollidesWith` (which has no infinity guard), and its `ObjData.LoadFile`. A null reference is `None`.

Defects in the source are modelled as written, and lemmas exhibit them:

- `ParseFaceVertex` tests the token's string length rather than the number of pieces, so a multi-character token without enough slashes indexes past the split array.
- `Material` is a struct, so `LoadMaterials` only sets fields on a local copy; every material it lists keeps its default fields.
- The prototype's `LoadFile` starts with a null list of material files and a null material list. It returns only when an `mtllib` line occurred and named no files.
- The weights in `GetTextureCoordinates` all use `x - P1`, as written.
- `raycaster/CollisionExtensions.cs` subtracts `Vertex` values at lines 27, 39, 49 and 59 (`r.Origin - t.P0` and the edge and point differences against `t.P0`, `t.P1` and `t.P2`), and no such operator exists. The model reads the vertex's `Position` at all four places, which is evidently what is meant.

The three defects in the Findings table are modelled both ways: as written, and corrected.

## Model

| member | source | states |
|---|---|---|
| Vector3.SubIsAddNeg | NetRayTracer/Vector3.cs:91-115 | binary `-` equals adding the unary negation: `a - b == a + (-b)` |
| Vector3.ScaleCommutes | NetRayTracer/Vector3.cs:123-142 | `s * a` and `a * s` give the same vector |
| Vector3.DivUndoesScale | NetRayTracer/Vector3.cs:123-148 | for `s != 0`, `(a * s) / s == a` and `(a / s) * s == a` |
| Vector3.ZeroIsIdentity | NetRayTracer/Vector3.cs:91-251 | `Zero` is a left and right identity of `+`, and `a - a == Zero` |
| Vector3.EqIsEquality | NetRayTracer/Vector3.cs:156-277 | `==` holds exactly when the three components agree, `!=` is its negation, `Equals(Vector3)` agrees with `==`, `Equals(object)` agrees on a boxed vector and is false for anything else |
| Vector3.DotSymmetric | NetRayTracer/Vector3.cs:210-213 | `Dot(a, b) == Dot(b, a)` |
| Vector3.DotLinear | NetRayTracer/Vector3.cs:210-213 | `Dot` is additive over `+` and `-` in its first operand and commutes with both scalings |
| Vector3.DotExample | RayCasterTests/Vector3Tests.cs:77-84 | `Dot((2,3,4), (5,6,7)) == 56` |
| Vector3.CrossOrthogonal | NetRayTracer/Vector3.cs:221-227 | `Cross(a, b)` has zero dot product with `a` and with `b` |
| Vector3.CrossAnticommutes | NetRayTracer/Vector3.cs:221-227 | `Cross(b, a) == -Cross(a, b)` |
| Vector3.CrossOfSelf | NetRayTracer/Vector3.cs:221-227 | `Cross(a, a)` is the zero vector |
| Vector3.CrossWithZero | NetRayTracer/Vector3.cs:221-251 | crossing with `Zero` on either side gives `Zero` |
| Vector3.CrossNegatesLeft | NetRayTracer/Vector3.cs:112-227 | `Cross(-a, b) == -Cross(a, b)` |
| Vector3.DotOfNeg | NetRayTracer/Vector3.cs:112-213 | negation keeps the squared length and the magnitude |
| Vector3.DotOfSubScaled | NetRayTracer/Vector3.cs:102-213 | the expansion of `Dot(v - n*k, v - n*k)` and of `Dot(v - n*k, n)` |
| Vector3.ReflectionPreservesLength | NetRayTracer/Vector3.cs:236-240 | for a unit normal, `Reflection(v, n)` has the squared length of `v` and the opposite component along `n` |
| Vector3.ReflectionAlgebra | NetRayTracer/Vector3.cs:236-240 | the two scalar identities the reflection proofs rest on, for `Dot(n, n) == 1` |
| Vector3.ReflectionInvolutive | NetRayTracer/Vector3.cs:236-240 | for a unit normal, reflecting twice gives `v` back |
| Vector3.ReflectionExample | RayCasterTests/Vector3Tests.cs:101-108 | `Reflection((1,-1,0), (0,-1,0)) == (1,1,0)` |
| Vector3.NormalizedIsUnit | NetRayTracer/Vector3.cs:175-193 | when `Sqrt` returns a true root of a non-zero squared length, `Normalized` has squared length 1 and scales back to `v` |
| Vector3.NormalizedScales | NetRayTracer/Vector3.cs:186-193 | `Normalized` divides by the magnitude when it is non-zero; the zero vector stands in for the NaN result otherwise |
| Vector3.Add | NetRayTracer/Vector3.cs:91-94 | the componentwise sum; subtracting `b` from it gives back `a` |
| Vector3.Sub | NetRayTracer/Vector3.cs:102-105 | the componentwise difference; `SubIsAddNeg` proves it is `a + (-b)` and `ZeroIsIdentity` that `a - a` is zero |
| Vector3.Neg | NetRayTracer/Vector3.cs:112-115 | the componentwise negation; added to `a` it gives the zero vector |
| Vector3.Scale | NetRayTracer/Vector3.cs:123-126 | each component times the scalar; `DotLinear` proves the dot product is linear in it and `DivUndoesScale` that division undoes it |
| Vector3.ScaleLeft | NetRayTracer/Vector3.cs:134-137 | scalar-on-the-left multiplication gives the same vector as `Scale(a, s)` |
| Vector3.Div | NetRayTracer/Vector3.cs:145-148 | for a non-zero divisor, scaling the quotient by the divisor gives back `a` |
| Vector3.Eq | NetRayTracer/Vector3.cs:156-159 | true exactly when the two vectors are equal |
| Vector3.Neq | NetRayTracer/Vector3.cs:167-170 | true exactly when the two vectors differ |
| Vector3.Equals | NetRayTracer/Vector3.cs:258-261 | true exactly when the two vectors are equal |
| Vector3.EqualsObject | NetRayTracer/Vector3.cs:268-277 | true exactly when the object is a boxed vector equal to `a`; false for null and for any other type |
| Vector3.Zero | NetRayTracer/Vector3.cs:245-251 | the vector (0, 0, 0); `ZeroIsIdentity` proves it is the identity of `+` and `CrossWithZero` that crossing with it gives zero |
| Vector3.Dot | NetRayTracer/Vector3.cs:210-213 | sum of the componentwise products; `DotSymmetric`, `DotLinear` and `DotExample` prove symmetry, linearity and the tested value 56 |
| Vector3.Cross | NetRayTracer/Vector3.cs:221-227 | the cross product; `CrossOrthogonal`, `CrossAnticommutes` and `CrossOfSelf` prove it is perpendicular to both operands, anticommutes and vanishes on equal operands |
| Vector3.Reflection | NetRayTracer/Vector3.cs:236-240 | `vec - 2 (vec . normal) normal`; for a unit normal `ReflectionPreservesLength` and `ReflectionInvolutive` prove it keeps the length, flips the normal component and undoes itself |
| Vector3.Magnitude | NetRayTracer/Vector3.cs:175-181 | the square root of the sum of squared components; `DotOfNeg` proves negation keeps it |
| Vector3.Normalized | NetRayTracer/Vector3.cs:186-193 | the vector divided by its magnitude, with the zero vector standing for the NaN components a zero magnitude gives; `NormalizedIsUnit` and `NormalizedScales` prove that for a non-zero vector it has unit length and scaling it back by the magnitude gives the vector |
| Vector4.SubIsAddNeg | NetRayTracer/Vector4.cs:103-127 | binary `-` on all four components equals adding the negation |
| Vector4.ScaleCommutes | NetRayTracer/Vector4.cs:135-149 | `s * a` is `a * s` |
| Vector4.DivUndoesScale | NetRayTracer/Vector4.cs:135-160 | for `s != 0`, dividing undoes scaling and scaling undoes dividing |
| Vector4.ZeroIsIdentity | NetRayTracer/Vector4.cs:103-249 | `Zero` is a left and right identity of `+`, and `a - a == Zero` |
| Vector4.EqIsEquality | NetRayTracer/Vector4.cs:168-275 | `==` needs all four components equal, `!=` is its negation, `Equals(Vector4)` agrees, `Equals(object)` is false for anything that is not a `Vector4` |
| Vector4.DotSymmetric | NetRayTracer/Vector4.cs:222-225 | `Dot` sums the four products and is symmetric |
| Vector4.DotLinear | NetRayTracer/Vector4.cs:222-225 | `Dot` is additive and commutes with scaling in its first operand |
| Vector4.DotOfSubScaled | NetRayTracer/Vector4.cs:114-225 | the expansion of `Dot(v - n*k, v - n*k)` and of `Dot(v - n*k, n)` |
| Vector4.ReflectionPreservesLength | NetRayTracer/Vector4.cs:234-238 | for `Dot(n, n) == 1`, the reflection keeps `Dot(v, v)` and negates the component along `n` |
| Vector4.ReflectionInvolutive | NetRayTracer/Vector4.cs:234-238 | for a unit normal, reflecting twice gives `v` back |
| Vector4.NormalizedIsUnit | NetRayTracer/Vector4.cs:187-206 | when `Sqrt` returns a true root of a non-zero squared length, `Normalized` has squared length 1 and scales back to `v` |
| Vector4.Add | NetRayTracer/Vector4.cs:103-106 | the componentwise sum; subtracting `b` from it gives back `a` |
| Vector4.Sub | NetRayTracer/Vector4.cs:114-117 | the componentwise difference; `SubIsAddNeg` proves it is `a + (-b)` |
| Vector4.Neg | NetRayTracer/Vector4.cs:124-127 | the componentwise negation; added to `a` it gives the zero vector |
| Vector4.Scale | NetRayTracer/Vector4.cs:135-138 | each component times the scalar; `DotLinear` and `DivUndoesScale` prove linearity and that division undoes it |
| Vector4.ScaleLeft | NetRayTracer/Vector4.cs:146-149 | the same vector as `Scale(a, s)`, as `ScaleCommutes` proves |
| Vector4.Div | NetRayTracer/Vector4.cs:157-160 | for a non-zero divisor, scaling the quotient by the divisor gives back `a` |
| Vector4.Eq | NetRayTracer/Vector4.cs:168-171 | true exactly when the two vectors are equal |
| Vector4.Neq | NetRayTracer/Vector4.cs:179-182 | true exactly when the two vectors differ |
| Vector4.Equals | NetRayTracer/Vector4.cs:256-259 | true exactly when the two vectors are equal |
| Vector4.EqualsObject | NetRayTracer/Vector4.cs:266-275 | true exactly when the object is a boxed vector equal to `a`; false for null and for any other type |
| Vector4.Zero | NetRayTracer/Vector4.cs:243-249 | the vector (0, 0, 0, 0); `ZeroIsIdentity` proves it is the identity of `+` |
| Vector4.Dot | NetRayTracer/Vector4.cs:222-225 | sum of the four componentwise products; `DotSymmetric` and `DotLinear` prove symmetry and linearity |
| Vector4.Reflection | NetRayTracer/Vector4.cs:234-238 | `vec - 2 (vec . normal) normal`; `ReflectionPreservesLength` and `ReflectionInvolutive` prove it keeps the length and undoes itself for a unit normal |
| Vector4.Magnitude | NetRayTracer/Vector4.cs:187-193 | the square root of the sum of the four squared components |
| Vector4.Normalized | NetRayTracer/Vector4.cs:198-206 | the vector divided by its magnitude, with the zero vector standing for the NaN components a zero magnitude gives; `NormalizedIsUnit` proves unit length for a non-zero vector |
| Matrices.Matrix.constructor | NetRayTracer/Matrix.cs:47-52 | `new Matrix(columns, rows)` holds a fresh `columns` by `rows` grid of zeros |
| Matrices.Matrix.Get | NetRayTracer/Matrix.cs:60-65 | the indexer returns the stored entry inside the grid and throws `IndexOutOfRangeException` outside it |
| Matrices.Matrix.Set | NetRayTracer/Matrix.cs:66-69 | after a write inside the grid the indexer returns the written value and every other cell is unchanged; a write outside throws and changes nothing |
| Matrices.Matrix.Multiply | NetRayTracer/Matrix.cs:78-100 | as written: throws `InvalidOperationException` exactly when `A.Columns != B.Rows`; otherwise the `A.Rows` by `B.Columns` result is indexed out of range exactly when `WritesOutside`; when it returns, each cell is the row-column sum where the loops compute one and zero elsewhere |
| Matrices.Matrix.MultiplyCorrected | NetRayTracer/Matrix.cs:78-100 | as intended: throws exactly when `A.Columns != B.Rows`, otherwise returns the `B.Columns` by `A.Rows` product whose every cell is the sum over `k` of `A[k, i] * B[j, k]` |
| Matrices.Matrix.Equal | NetRayTracer/Matrix.cs:108-127 | `==` is true exactly when both shapes agree and every cell is equal |
| Matrices.Matrix.NotEqual | NetRayTracer/Matrix.cs:135-138 | `!=` is the negation of `==` |
| Matrices.Matrix.OpEq | NetRayTracer/Matrix.cs:108-127 | operator == on references: a null operand throws NullReferenceException, because the first comparison reads both operands' `Columns`; otherwise true exactly when the shapes and all entries agree |
| Matrices.Matrix.OpNeq | NetRayTracer/Matrix.cs:135-138 | the negation of operator ==, throwing NullReferenceException with it when an operand is null |
| Matrices.Matrix.EqualsObject | NetRayTracer/Matrix.cs:145-154 | as written: throws NullReferenceException for every argument, since `m != null` calls the overloaded `!=` with a null right operand |
| Matrices.Matrix.EqualsObjectCorrected | NetRayTracer/Matrix.cs:145-154 | with a reference null test: false for null or a non-matrix, otherwise true exactly when the shapes and all entries agree |
| Matrices.Matrix.Identity | NetRayTracer/Matrix.cs:161-170 | `Identity(n)` is n by n with ones on the diagonal and zeros elsewhere |
| Matrices.Matrix.IdentityLeftUnit | NetRayTracer/Matrix.cs:85-170 | every partial row-column sum with the identity on the left picks out the entry of `B` |
| Matrices.Matrix.IdentityRightUnit | NetRayTracer/Matrix.cs:85-170 | every partial row-column sum with the identity on the right picks out the entry of `A` |
| Matrices.WritesOutsideExample | NetRayTracer/Matrix.cs:85-94 | a 2-column by 3-row matrix times a 4-column by 2-row one passes the shape check yet writes outside the result |
| Matrices.SquareShapesAgree | NetRayTracer/Matrix.cs:85-94 | when `A.Rows == B.Columns` the as-written product never writes outside its result |
| Matrices.IdentityMultiplicationTest | RayCasterTests/MatrixTests.cs:14-22 | `Identity(2) * Identity(2) == Identity(2)` |
| Matrices.ProdSumOfTwo | NetRayTracer/Matrix.cs:92-95 | a two-term row-column sum is `A[0, i] * B[j, 0] + A[1, i] * B[j, 1]` |
| Matrices.FromCells | RayCasterTests/MatrixTests.cs:27-38 | a fresh matrix filled through the indexer has exactly the given cells |
| Matrices.SquareMultiplicationTest | RayCasterTests/MatrixTests.cs:27-42 | the 2 by 2 test matrix times itself equals itself |
| Matrices.RectangularMultiplicationTest | RayCasterTests/MatrixTests.cs:44-74 | the 2-column by 3-row test matrix times the 3-column by 2-row one equals the expected 3 by 3 matrix |
| Rays.MakeRayNormalizes | NetRayTracer/Ray.cs:58-62 | the constructor keeps the origin and, when `Sqrt` returns a true root of a non-zero length, stores a unit direction that scales back to the argument |
| Rays.PointAtDistanceAffine | NetRayTracer/Ray.cs:69-72 | `PointAtDistance(0)` is the origin and `PointAtDistance(s + t) - PointAtDistance(s) == Direction * t` |
| Rays.MakeRay | NetRayTracer/Ray.cs:58-62 | keeps the origin and stores the normalized direction; `MakeRayNormalizes` proves the direction has unit length and points the same way |
| Rays.PointAtDistance | NetRayTracer/Ray.cs:69-72 | `Origin + Direction * t`; `PointAtDistanceAffine` proves distance 0 is the origin and moving on by `t` adds `t` directions |
| Collision.CollidesWith | NetRayTracer/CollisionExtensions.cs:40-97 | the time the caller sees is always `-Dot(Origin - P0, N) / Dot(Direction, N)`; the answer is true exactly when that time is finite, beyond `ProximityTolerance` and its point passes the three edge tests; a true answer implies a finite time above 0.5 |
| Collision.CandidatePointInPlane | NetRayTracer/CollisionExtensions.cs:43-60 | at a finite candidate time the point on the ray lies in the triangle's plane, `Dot(x - P0, N) == 0`, so every hit point does |
| Collision.ParallelNeverCollides | NetRayTracer/CollisionExtensions.cs:56-58 | a direction with `Dot(Direction, N) == 0` gives an infinite or NaN time and never collides |
| Collision.WithinToleranceNeverCollides | NetRayTracer/CollisionExtensions.cs:30-58 | a candidate time at or below 0.5 never collides |
| Collision.CrossInYZPlane | NetRayTracer/Vector3.cs:221-227 | the cross product of two vectors in the yz-plane lies along x, with the stated component |
| Collision.TestTriangleRawNormal | NetRayTracer/Triangle.cs:97 | the test triangle's unnormalised normal `Cross(p2 - p1, p0 - p1)` is (-2,0,0) |
| Collision.NormalAlongNegativeX | NetRayTracer/Triangle.cs:97-99 | a raw normal (-2,0,0) normalises to (-1,0,0) when `Sqrt(4) == 2` |
| Collision.TestTriangleNormal | NetRayTracer/Triangle.cs:79-99 | the test triangle's normal is (-1,0,0) |
| Collision.AxisRay | NetRayTracer/Ray.cs:58-62 | a unit axis direction is stored unchanged by the constructor when `Sqrt(1) == 1` |
| Collision.TestTriangleEdge01 | NetRayTracer/CollisionExtensions.cs:64-65 | the first edge test at (2,0,0) on the test triangle gives 1 |
| Collision.TestTriangleEdge12 | NetRayTracer/CollisionExtensions.cs:74-75 | the second edge test at (2,0,0) gives 0: the point is on that edge and `>= 0` accepts it |
| Collision.TestTriangleEdge20 | NetRayTracer/CollisionExtensions.cs:84-85 | the third edge test at (2,0,0) gives 1 |
| Collision.TestTriangleTimeForward | NetRayTracer/CollisionExtensions.cs:43-56 | from the origin along +x the candidate time is 2 |
| Collision.TestTriangleTimeBackward | NetRayTracer/CollisionExtensions.cs:43-56 | from the origin along -x the candidate time is -2 |
| Collision.ForwardPoint | NetRayTracer/Ray.cs:69-72 | along +x from the origin the point at distance 2 is (2,0,0) |
| Collision.HitAtTwo | NetRayTracer/CollisionExtensions.cs:58-93 | a ray whose candidate time on the test triangle is 2 and whose point there is (2,0,0) collides |
| Collision.TestTriangleTimeFromBehind | NetRayTracer/CollisionExtensions.cs:43-56 | from (4,0,0) along -x the candidate time is 2 |
| Collision.OriginBehindFace | NetRayTracer/CollisionExtensions.cs:47-54 | `Dot(op, N)` is -2 for the origin (4,0,0), the value whose sign the commented-out backface test would read |
| Collision.PointFromBehind | NetRayTracer/Ray.cs:69-72 | from (4,0,0) along -x the point at distance 2 is (2,0,0) |
| Collision.RayTriangleExample | RayCasterTests/CollisionTests.cs:30-42 | the test ray from the origin along +x collides with the test triangle at time 2 |
| Collision.ReversedRayExample | RayCasterTests/CollisionTests.cs:44-48 | the reversed ray misses and the caller still sees time -2 |
| Collision.BackfaceHitExample | NetRayTracer/CollisionExtensions.cs:49-58 | no backface rejection: a ray from behind the face (`Dot(op, N) == -2`) collides at time 2 |
| Collision.CandidateTime | NetRayTracer/CollisionExtensions.cs:43-56 | `-((Origin - P0) . N) / (Direction . N)` with the float division's infinities and NaN; `CandidatePointInPlane` proves a finite time lands in the triangle's plane and `ParallelNeverCollides` that a parallel ray gets no finite time |
| Collision.EdgeTest | NetRayTracer/CollisionExtensions.cs:64-65 | `((b - a) x (x - a)) . n`, the quantity each of the three edge tests compares with zero; `TestTriangleEdge01` and its siblings evaluate it on a concrete triangle |
| Collision.Collides | NetRayTracer/CollisionExtensions.cs:58-93 | holds exactly when the time is finite, beyond the 0.5 tolerance and its point passes all three edge tests; `CollidesWith` returns it and `WithinToleranceNeverCollides` proves the tolerance cut |
| SystemMath.FloatDiv | NetRayTracer/CollisionExtensions.cs:56 | float division is finite exactly for a non-zero divisor, and then multiplies back to the dividend; 0/0 is NaN and any other division by zero an infinity |
| SystemMath.TruncTowardZero | NetRayTracer/Triangle.cs:125 | the `(int)` cast truncates toward zero: it lies between zero and its argument, less than one away |
| SystemMath.FloatRemOne | NetRayTracer/Triangle.cs:120-121 | `x % 1` keeps the sign of `x`, lies in [0,1) or (-1,0], and `x - x % 1` is an integer |
| Drawing.GetPixel | NetRayTracer/Triangle.cs:125 | `GetPixel(x, y)` returns the stored pixel exactly for coordinates inside the bitmap and throws `ArgumentOutOfRangeException` otherwise |
| Triangles.NormalIsPerpendicular | NetRayTracer/Triangle.cs:97-99 | the stored normal is perpendicular to the edges `p2 - p1`, `p0 - p1` and `p1 - p0` |
| Triangles.MakeTriangleKeepsArguments | NetRayTracer/Triangle.cs:79-101 | the constructor stores `p0`, `p1`, `p2` and the material in order, the 3-argument form leaves the material null, and the normal has unit length whenever the area is a non-zero square root of the raw normal's squared length |
| Triangles.NormalizedExample | NetRayTracer/Vector3.cs:175-193 | (0,0,2) has magnitude 2 and normalises to (0,0,1) when `Sqrt(4) == 2` |
| Triangles.NormalFromRaw | NetRayTracer/Triangle.cs:97-99 | a raw normal (0,0,2) gives area 2 and normal (0,0,1) |
| Triangles.CrossInPlane | NetRayTracer/Vector3.cs:221-227 | the cross product of an x-axis vector with an xy-plane vector lies along z |
| Triangles.RawNormalOfPositions | NetRayTracer/Triangle.cs:97 | the positions (0,1,0), (-1,0,0), (1,0,0) give `Cross(p2 - p1, p0 - p1) == (0,0,2)` |
| Triangles.RawNormalExample | NetRayTracer/Triangle.cs:97 | the test vertices' raw normal is (0,0,2) |
| Triangles.TriangleInitializeExample | RayCasterTests/TriangleTests.cs:30-42 | the test triangle has area 2 and normal (0,0,1) |
| Triangles.TriangleInitializeVertices | RayCasterTests/TriangleTests.cs:39-41 | `P0`, `P1`, `P2` come back `Equals` to the vertices passed in |
| Triangles.CrossAgainstP1 | NetRayTracer/Triangle.cs:167-177 | each cross product `GetTextureCoordinates` takes at a corner equals the raw normal, its negation or zero |
| Triangles.UnitWeight | NetRayTracer/Triangle.cs:175-177 | a weight whose cross product is the raw normal up to sign is 1 |
| Triangles.ZeroWeight | NetRayTracer/Triangle.cs:175-177 | a weight whose cross product vanishes is 0, when `Sqrt(0) == 0` |
| Triangles.WeightsAtVertices | NetRayTracer/Triangle.cs:165-181 | as written, with every weight taken against `x - P1`, the weights are (1,1,0) at P0, (0,0,0) at P1 and (0,1,1) at P2: not barycentric |
| Triangles.TextureCoordinatesAtP1 | NetRayTracer/Triangle.cs:165-181 | the interpolated texture coordinate at P1 is (0,0) whatever the vertices' texture coordinates are |
| Triangles.NoMaterialDefaults | NetRayTracer/Triangle.cs:111-156 | without a material `GetColor` is (1,1,1,1) and `GetSpecularCoefficient` is 1, at every position |
| Triangles.DiffuseColorIsTexel | NetRayTracer/Triangle.cs:117-129 | a colour read from the diffuse map is the pixel at `((int)((tu % 1) * Width), (int)((tv % 1) * Height))` with each channel divided by 255, so every component is in [0,1] |
| Triangles.ChannelsInUnitRange | NetRayTracer/Triangle.cs:126-129 | byte channels divided by 255 lie in [0,1] |
| Triangles.ScaledFractionInRange | NetRayTracer/Triangle.cs:125 | a fraction in [0,1) of a positive size truncates to a valid index |
| Triangles.NonNegativeCoordinatesSucceed | NetRayTracer/Triangle.cs:119-125 | non-negative texture coordinates always wrap into a non-empty diffuse map, so the lookup succeeds |
| Triangles.NegativeCoordinateFails | NetRayTracer/Triangle.cs:120-125 | `%` keeps the sign, so a coordinate whose wrapped value times Width is at most -1 makes `GetPixel` throw |
| Triangles.MaterialLookups | NetRayTracer/Triangle.cs:113-177 | with a material both lookups go through `GetTextureCoordinates`, which has no value (NaN in the source) exactly when the area is zero |
| Triangles.SpecularCoefficientCases | NetRayTracer/Triangle.cs:140-157 | without a map the coefficient is the material's; from a map it is the red channel over 255, so in [0,1]; a map with no texture coordinates (zero area) throws |
| Triangles.MakeTriangle | NetRayTracer/Triangle.cs:91-101 | keeps the vertices and material, stores the normalized `(p2 - p1) x (p0 - p1)` as normal and its magnitude as area; `NormalIsPerpendicular`, `MakeTriangleKeepsArguments` and `NormalFromRaw` prove it |
| Triangles.MakeUntexturedTriangle | NetRayTracer/Triangle.cs:79-81 | the four-argument constructor with no material; `MakeTriangleKeepsArguments` covers it |
| Triangles.TextureWeights | NetRayTracer/Triangle.cs:167-177 | none for a zero area; otherwise each vertex's weight is a cross-product magnitude against `x - P1` over the area; `WeightsAtVertices`, `UnitWeight` and `ZeroWeight` prove the weights at the three corners |
| Triangles.GetTextureCoordinates | NetRayTracer/Triangle.cs:175-181 | the vertices' texture coordinates blended by those weights; `TextureCoordinatesAtP1` proves the value at P1 |
| Triangles.GetColor | NetRayTracer/Triangle.cs:111-132 | white without a material, otherwise the diffuse texel at the wrapped texture coordinates or the exception GetPixel throws; `NoMaterialDefaults`, `DiffuseColorIsTexel`, `ChannelsInUnitRange` and `NegativeCoordinateFails` prove the cases |
| Triangles.GetSpecularCoefficient | NetRayTracer/Triangle.cs:140-157 | 1 without a material, the material's coefficient without a map, else the map's red channel over 255; `SpecularCoefficientCases` proves the three cases |
| Vertices.OpEqIsValueEquality | NetRayTracer/Vertex.cs:53-113 | on two vertices `==` is value equality (each field compared with Vector3's `!=`), `!=` its negation and `Equals(Vertex)` the same as `==` |
| Vertices.NullOperandThrows | NetRayTracer/Vertex.cs:53-103 | a null operand of `==` or `!=` throws `NullReferenceException` at `a.Position` / `b.Position` |
| Vertices.EqualsObjectAlwaysThrows | NetRayTracer/Vertex.cs:120-129 | as written, `other != null` calls the overloaded `!=` with a null operand, so `Equals(object)` throws for every argument |
| Vertices.EqualsObjectCorrectedIsEquality | NetRayTracer/Vertex.cs:120-129 | with a reference null test, `Equals(object)` is value equality on vertices and false for anything else |
| Vertices.OpEq | NetRayTracer/Vertex.cs:53-92 | a null operand throws NullReferenceException; otherwise the position, normal and texture coordinate are compared, as `OpEqIsValueEquality` and `NullOperandThrows` prove |
| Vertices.OpNeq | NetRayTracer/Vertex.cs:100-103 | the negation of operator ==, throwing with it; `OpEqIsValueEquality` proves it is `a != b` |
| Vertices.Equals | NetRayTracer/Vertex.cs:110-113 | `this == other` with operator ==; `OpEqIsValueEquality` proves it is equality for a non-null argument |
| Vertices.EqualsObject | NetRayTracer/Vertex.cs:120-129 | as written: the overloaded `!=` dereferences its null operand, so `EqualsObjectAlwaysThrows` proves it throws for every argument |
| Vertices.EqualsObjectCorrected | NetRayTracer/Vertex.cs:120-129 | with a reference null test: `EqualsObjectCorrectedIsEquality` proves it is equality on a boxed vertex and false otherwise |
| ProtoVector3.AgreesWithValueType | raycaster/Vector3.cs:38-189 | on non-null references every operator, Magnitude and Normalized give what NetRayTracer's struct Vector3 gives on the same components |
| ProtoVector3.NullOperandThrows | raycaster/Vector3.cs:51-189 | a null operand of a binary operator, of Dot, Cross or Reflection, or a null receiver of Magnitude or Normalized throws `NullReferenceException` |
| ProtoVector3.OperatorIdentities | raycaster/Vector3.cs:62-119 | `a - b == a + (-b)`, and `s * a` equals `a * s` for every reference, null included |
| ProtoVector3.DotSymmetric | raycaster/Vector3.cs:159-162 | `Dot` is symmetric, failures included |
| ProtoVector3.CrossOrthogonal | raycaster/Vector3.cs:159-176 | the cross product of two vectors is orthogonal to both |
| ProtoVector3.ReflectionPreservesLength | raycaster/Vector3.cs:185-189 | reflecting off a unit normal keeps the squared length |
| ProtoVector3.EqualityIsComponentwise | raycaster/Vector3.cs:94-194 | `==` is componentwise equality and `!=` its negation on non-null operands, `Equals` agrees with `==`, and a null operand throws |
| ProtoVector3.Copy | raycaster/Vector3.cs:38-43 | null throws NullReferenceException, otherwise the same components; `AgreesWithValueType` proves the non-null case |
| ProtoVector3.Add | raycaster/Vector3.cs:51-54 | a null operand throws NullReferenceException, otherwise NetRayTracer's sum; `AgreesWithValueType` and `NullOperandThrows` prove it |
| ProtoVector3.Sub | raycaster/Vector3.cs:62-65 | a null operand throws, otherwise NetRayTracer's difference; `AgreesWithValueType`, `NullOperandThrows` and `OperatorIdentities` prove it |
| ProtoVector3.Neg | raycaster/Vector3.cs:72-75 | null throws, otherwise the negation; `AgreesWithValueType` and `OperatorIdentities` prove it |
| ProtoVector3.Scale | raycaster/Vector3.cs:83-86 | null throws, otherwise each component times the scalar; `AgreesWithValueType` proves it |
| ProtoVector3.ScaleLeft | raycaster/Vector3.cs:116-119 | null throws, otherwise the same vector as `Scale`; `OperatorIdentities` proves it |
| ProtoVector3.OpEq | raycaster/Vector3.cs:94-97 | a null operand throws, otherwise componentwise equality; `EqualityIsComponentwise` proves it |
| ProtoVector3.OpNeq | raycaster/Vector3.cs:105-108 | a null operand throws, otherwise the negation of ==; `EqualityIsComponentwise` proves it |
| ProtoVector3.Equals | raycaster/Vector3.cs:191-194 | `this == other`: a null argument throws, otherwise equality; `EqualityIsComponentwise` proves it |
| ProtoVector3.Dot | raycaster/Vector3.cs:159-162 | a null operand throws, otherwise the dot product; `DotSymmetric` proves symmetry |
| ProtoVector3.Cross | raycaster/Vector3.cs:170-176 | a null operand throws, otherwise the cross product; `CrossOrthogonal` proves it is perpendicular to both operands |
| ProtoVector3.Magnitude | raycaster/Vector3.cs:124-130 | null throws, otherwise the length; `AgreesWithValueType` proves it |
| ProtoVector3.Normalized | raycaster/Vector3.cs:135-142 | null throws, otherwise NetRayTracer's normalized vector; `AgreesWithValueType` proves it |
| ProtoVector3.Reflection | raycaster/Vector3.cs:185-189 | a null operand throws, otherwise the reflection; `ReflectionPreservesLength` proves it keeps the length for a unit normal |
| ProtoGeometry.OpEqIsFieldEquality | raycaster/Vertex.cs:11-27 | between vertices whose three properties are set, `==` is equality of the three vectors, `!=` its negation and `Equals` the same as `==` |
| ProtoGeometry.OpEqReflexive | raycaster/Vertex.cs:11-17 | a vertex whose properties are set is `==` to itself |
| ProtoGeometry.UnsetPositionThrows | raycaster/Vertex.cs:13-14 | a vertex whose Position was never set makes `==` throw on either side |
| ProtoGeometry.OpEqSymmetric | raycaster/Vertex.cs:11-17 | `==` is symmetric, null references and unset properties included |
| ProtoGeometry.OpNeqNegates | raycaster/Vertex.cs:19-27 | `!=` throws exactly when `==` does and otherwise negates it; `Equals` is `==` with the receiver on the left |
| ProtoGeometry.RayConstructors | raycaster/Ray.cs:30-39 | both constructors keep the origin reference and the length (float.MaxValue for the two-argument form), normalise the direction as NetRayTracer's Ray does, and throw only for a null direction |
| ProtoGeometry.RayDirectionIsUnit | raycaster/Ray.cs:34-39 | the stored direction has unit length when the magnitude is a non-zero square root of the squared length |
| ProtoGeometry.PointAtDistanceAffine | raycaster/Ray.cs:46-49 | with an origin the point is NetRayTracer's, the origin at distance 0 and affine in the distance; a null origin throws |
| ProtoGeometry.TriangleConstructors | raycaster/Triangle.cs:60-81 | construction succeeds exactly when the three vertices are non-null with positions set (otherwise `NullReferenceException`), keeps the vertices in order and the material (null for the three-argument form), and its normal is NetRayTracer's normal for the same positions |
| ProtoGeometry.NormalIsPerpendicular | raycaster/Triangle.cs:78 | the normal of a constructed triangle is perpendicular to its edges |
| ProtoGeometry.OpEq | raycaster/Vertex.cs:11-17 | compares position, normal and texture coordinate with short-circuit `&&`, throwing on a null or unset vector it reaches; `OpEqIsFieldEquality`, `OpEqReflexive`, `OpEqSymmetric` and `UnsetPositionThrows` prove it |
| ProtoGeometry.OpNeq | raycaster/Vertex.cs:19-22 | the negation of ==, throwing with it; `OpNeqNegates` proves it |
| ProtoGeometry.Equals | raycaster/Vertex.cs:24-27 | `this == other`; `OpNeqNegates` and `OpEqIsFieldEquality` prove it |
| ProtoGeometry.MakeRayWithLength | raycaster/Ray.cs:34-39 | a null direction throws NullReferenceException, otherwise the origin reference as given, the normalized direction and the length; `RayConstructors` and `RayDirectionIsUnit` prove it |
| ProtoGeometry.MakeRay | raycaster/Ray.cs:30-32 | the three-argument constructor with length float.MaxValue; `RayConstructors` proves it |
| ProtoGeometry.PointAtDistance | raycaster/Ray.cs:46-49 | a null origin throws, otherwise origin plus the direction times `t`; `PointAtDistanceAffine` proves it |
| ProtoGeometry.MakeTriangle | raycaster/Triangle.cs:72-81 | an unset or null vertex position throws, otherwise the normalized `(p2 - p1) x (p0 - p1)`; `TriangleConstructors` and `NormalIsPerpendicular` prove it |
| ProtoGeometry.MakeUntexturedTriangle | raycaster/Triangle.cs:60-62 | the four-argument constructor with a null material; `TriangleConstructors` proves it |
| ProtoCollision.CollidesWith | raycaster/CollisionExtensions.cs:24-72 | the answer and the final `time` are those of `Expected`, and a hit has a finite time beyond the 0.5 tolerance |
| ProtoCollision.ThrowsBeforeWritingTime | raycaster/CollisionExtensions.cs:27 | a null origin or an unset P0 position throws before `time` is written, so the caller's time is kept |
| ProtoCollision.AgreesWithNetRayTracer | raycaster/CollisionExtensions.cs:27-68 | with an origin and placed vertices, `time` is NetRayTracer's candidate time and, unless it is an infinity, the answer is NetRayTracer's |
| ProtoCollision.NoInfinityGuard | raycaster/CollisionExtensions.cs:31-33 | a ray parallel to the plane and off it gives an infinite time whose sign decides the answer, where NetRayTracer answers false |
| ProtoCollision.InPlaneParallelMisses | raycaster/CollisionExtensions.cs:31-71 | a parallel ray in the plane gives NaN and misses |
| ProtoCollision.WithinToleranceMisses | raycaster/CollisionExtensions.cs:33-71 | a finite time at or before the tolerance is a miss |
| ProtoCollision.HitIsInPlane | raycaster/CollisionExtensions.cs:33-68 | a hit is beyond the tolerance and its point lies in the triangle's plane |
| ProtoCollision.Expected | raycaster/CollisionExtensions.cs:24-72 | a null origin or unset P0 position throws before the time is written; an infinite time, which has no guard here, is left open (`Ok(None)`: +infinity passes the tolerance test and -infinity fails it); otherwise the tolerance test and then the edge tests, each reading a position only once the tests before it pass; `CollidesWith`, `ThrowsBeforeWritingTime`, `AgreesWithNetRayTracer` and `NoInfinityGuard` prove it |
| ProtoObjLoader.ObjData.constructor | raycaster/ObjData.cs:55-61 | the four geometry lists start empty and the material list is left null |
| ProtoObjLoader.LoadFile | raycaster/ObjData.cs:68-173 | throws exactly when `Load` does, with the same exception; otherwise the fresh ObjData holds the lists `Load` describes, with a null material list |
| ProtoObjLoader.ReadObjLines | raycaster/ObjData.cs:77-165 | the loop ends in the state the fold over the lines gives, or throws what it throws, and the ObjData's lists are the state's |
| ProtoObjLoader.ReadDirective | raycaster/ObjData.cs:91-162 | one pass of the switch is the shared `Directive` step; it appends only to the list it names and leaves the smoothing group alone |
| ProtoObjLoader.IndentedLineIgnored | raycaster/ObjData.cs:91-163 | an empty line, or one starting with a space, has an empty first token and changes nothing |
| ProtoObjLoader.DoubledSpaceBreaksVertex | raycaster/ObjData.cs:91-97 | `v` followed by two spaces leaves an empty x token, and `float.Parse("")` throws `FormatException` |
| ProtoObjLoader.LineKeepsNullLibraries | raycaster/ObjData.cs:81-147 | after a line the material-file list is null exactly when it was null before and the line is not an `mtllib` line |
| ProtoObjLoader.LibraryListNullWithoutMtllib | raycaster/ObjData.cs:81-164 | after all the lines the material-file list is null exactly when no line is an `mtllib` line |
| ProtoObjLoader.NamedLibraryStays | raycaster/ObjData.cs:140-147 | once an `mtllib` line names a file the material-file list is non-empty for good |
| ProtoObjLoader.ReturnsOnlyWithEmptyLibraries | raycaster/ObjData.cs:72-172 | `LoadFile` returns only for an existing file with at least one `mtllib` line and no `mtllib` line naming a file, and then the material list is still null |
| ProtoObjLoader.NoLibraryThrows | raycaster/ObjData.cs:81-167 | a readable file without any `mtllib` line throws `NullReferenceException` at the `foreach` |
| ProtoObjLoader.Load | raycaster/ObjData.cs:68-173 | the loaded data, or the exception LoadFile throws; `LoadFile` returns it, `NoLibraryThrows` proves a file without `mtllib` throws and `ReturnsOnlyWithEmptyLibraries` that it returns only when every library list is empty |
| ObjLoader.ObjData.constructor | NetRayTracer/ObjData.cs:173-180 | all five lists start empty |
| ObjLoader.LoadFile | NetRayTracer/ObjData.cs:187-300 | throws exactly when `Load` does, with the same exception; otherwise the fresh ObjData holds the geometry the lines describe and the materials of every named .mtl file, in order |
| ObjLoader.LoadMaterialFiles | NetRayTracer/ObjData.cs:294-297 | the `foreach` over the material files appends each file's materials in order, stops at the first file that throws, and leaves the geometry lists alone |
| ObjLoader.LoadAfterReading | NetRayTracer/ObjData.cs:294-299 | once the lines are read, `LoadFile` throws what the material files throw, or returns the read geometry with their materials |
| ObjLoader.ReadObjLines | NetRayTracer/ObjData.cs:196-291 | the loop ends in the state the fold over the lines gives, or throws what it throws, and the ObjData's lists are the state's |
| ObjLoader.ReadDirective | NetRayTracer/ObjData.cs:219-289 | one pass of the switch is the shared `Directive` step; it appends only to the list it names and leaves the smoothing group alone |
| ObjLoader.ReadLinesKeepsMaterialFiles | NetRayTracer/ObjData.cs:203-274 | the material-file list, created before the loop, is never null after it |
| ObjLoader.BlankLineSkipped | NetRayTracer/ObjData.cs:214-217 | a line of spaces only, or an empty line, leaves every list and state variable unchanged |
| ObjLoader.SmoothingGroupStaysEmpty | NetRayTracer/ObjData.cs:199-289 | no case sets the smoothing group, so it stays empty and every face carries the empty name |
| ObjLoader.FilesGiveDefaults | NetRayTracer/ObjData.cs:294-427 | every material of the named files is a default one: the switch writes only to a copy of the struct |
| ObjLoader.LoadedMaterialsAreDefaults | NetRayTracer/ObjData.cs:294-376 | every material a successful `LoadFile` returns is a default one |
| ObjLoader.MissingLibraryThrows | NetRayTracer/ObjData.cs:294-359 | a named .mtl file that does not exist makes the material loop throw |
| ObjLoader.MissingFilesThrow | NetRayTracer/ObjData.cs:191-359 | a missing .obj file throws `ArgumentException`; a readable one naming a missing .mtl file throws too |
| ObjLoader.MaterialsOfFilesFailurePersists | NetRayTracer/ObjData.cs:294-297 | once one material file throws, the files after it are never read and the exception is the loop's |
| ObjLoader.Load | NetRayTracer/ObjData.cs:187-300 | the loaded data, or the exception LoadFile throws; `LoadFile` returns it, `LoadAfterReading` proves it is the line fold followed by the material files, `LoadedMaterialsAreDefaults` and `MissingLibraryThrows` prove its material cases |
| ObjFormat.ParseFaceVertex | NetRayTracer/ObjData.cs:324-345 | a face vertex either parses or throws one of `FormatException`, `OverflowException` or `IndexOutOfRangeException`, never anything else |
| ObjFormat.FullFaceVertex | NetRayTracer/ObjData.cs:324-345 | `"a/b/c"` is vertex `a`, texture coordinate `b` and normal `c` |
| ObjFormat.FaceVertexWithoutTexCoord | NetRayTracer/ObjData.cs:330-342 | `"a//c"` is vertex `a` and normal `c` with texture coordinate 0 |
| ObjFormat.SingleDigitFaceVertex | NetRayTracer/ObjData.cs:324-345 | a one-digit vertex index alone is read with no normal and no texture coordinate |
| ObjFormat.MultiDigitIndexOverruns | NetRayTracer/ObjData.cs:327-336 | as written, a lone vertex index of two or more digits passes the `data.Length > 1` guard and `d[1]` throws `IndexOutOfRangeException` |
| ObjFormat.VertexAndTexCoordOverruns | NetRayTracer/ObjData.cs:339-342 | as written, `"a/b"` passes the `data.Length > 2` guard and `d[2]` throws `IndexOutOfRangeException` |
| ObjFormat.SlashFree | NetRayTracer/ObjData.cs:327 | the decimal form of an index contains no slash, so the split of `"a/b/c"` has exactly the three pieces |
| ObjFormat.LoadMaterials | NetRayTracer/ObjData.cs:352-433 | a missing file throws `ArgumentException`; otherwise the loop gives what `Materials` gives for the file's lines, and every material in the list is the default struct |
| ObjFormat.MaterialsFailurePersists | NetRayTracer/ObjData.cs:368-429 | once a .mtl line throws, the lines after it are never read |
| ObjFormat.AllDefaults | NetRayTracer/ObjData.cs:374-377 | the list holds one default material per `newmtl` line: assignments through the struct copy never reach it |
| ObjFormat.ReadStateDirective | NetRayTracer/ObjData.cs:266-288 | the `mtllib`, `usemtl`, `o` and `g` cases and every ignored directive are the `Directive` step; they leave the four lists and the smoothing group alone |
| ObjFormat.VertexLineAppendsOne | NetRayTracer/ObjData.cs:221-238 | a `v` or `vn` line succeeds exactly when its three floats parse, and then appends exactly that vector to its own list and changes nothing else |
| ObjFormat.TexCoordDefaultsW | NetRayTracer/ObjData.cs:239-250 | a `vt` line with only u and v stores w = 1 |
| ObjFormat.FaceLine | NetRayTracer/ObjData.cs:251-265 | an `f` line with more than three vertices throws `FormatException`; otherwise it appends exactly one face carrying the current object, groups, smoothing group and material, and changes nothing else |
| ObjFormat.GroupAndLibraryLines | NetRayTracer/ObjData.cs:266-288 | `g` replaces the groups by the names after it in reverse order; `mtllib` appends its names in reverse order to the earlier ones, creating the list if it was null |
| ObjFormat.NamingLines | NetRayTracer/ObjData.cs:275-282 | `usemtl` and `o` set the current material and object to their argument, and throw `IndexOutOfRangeException` without one |
| ObjFormat.SmoothingGroupUnchanged | NetRayTracer/ObjData.cs:219-289 | no case sets the smoothing group, and a directive outside the switch's cases changes nothing |
| ObjFormat.ListsOnlyGrow | NetRayTracer/ObjData.cs:219-289 | a line never removes anything: each list after it has the list before it as a prefix |
| ObjFormat.TexCoordLine | NetRayTracer/ObjData.cs:239-250 | a `vt` line appends exactly one texture coordinate and changes nothing else |
| ObjFormat.StateLineKeepsLists | NetRayTracer/ObjData.cs:266-288 | `mtllib`, `usemtl`, `o`, `g` and every ignored directive leave the four lists as they were |
| ObjFormat.DirectiveFrame | NetRayTracer/ObjData.cs:219-289 | only an `f` line adds faces, and only an `mtllib` line touches the material-file list, which it never leaves null |
| ObjFormat.FoldStep | NetRayTracer/ObjData.cs:212-213 | reading one more line applies the step to the state so far, unless an earlier line threw |
| ObjFormat.FoldFailurePersists | NetRayTracer/ObjData.cs:212-290 | once a line throws, the lines after it are never read and the exception is the loop's |
| ObjFormat.ParseFaceData | NetRayTracer/ObjData.cs:307-318 | the face of tokens 1, 2 and 3 parsed as face vertices, failing at the first missing token or malformed vertex; `FaceLine` proves what a face line appends |
| ObjFormat.Materials | NetRayTracer/ObjData.cs:352-433 | the material list a material file's lines give, or the first exception; `LoadMaterials` returns it, `AllDefaults` proves the defaults of a fresh material and `MaterialsFailurePersists` that a failure stops the fold |
| ObjFormat.Directive | NetRayTracer/ObjData.cs:219-289 | one line's effect on the loader's lists and current names; `VertexLineAppendsOne`, `TexCoordDefaultsW`, `FaceLine`, `NamingLines`, `DirectiveFrame` and `ListsOnlyGrow` prove what each directive changes and keeps |
| Text.Split | NetRayTracer/ObjData.cs:370 | `line.Split(' ')` always yields at least one piece |
| Text.SplitJoin | NetRayTracer/ObjData.cs:370 | the pieces joined back with the separator give the original line: nothing is lost or reordered |
| Text.SplitPiecesLackSeparator | NetRayTracer/ObjData.cs:327 | no piece of a split contains the separator |
| Text.SplitWithoutSeparator | NetRayTracer/ObjData.cs:327 | a string without the separator splits into itself alone |
| Text.SplitAtFirstSeparator | NetRayTracer/ObjData.cs:327 | splitting `x + sep + y`, with no separator in `x`, gives `x` followed by the pieces of `y` |
| Text.RemoveEmpty | NetRayTracer/ObjData.cs:214 | `StringSplitOptions.RemoveEmptyEntries` keeps only non-empty pieces, each taken from the split |
| Text.RemoveEmptyKeepsNonEmpty | NetRayTracer/ObjData.cs:214 | every non-empty piece of the split survives the removal |
| Text.OnlySeparatorsGiveNoTokens | NetRayTracer/ObjData.cs:214-217 | a line of separators only (or an empty one) gives no tokens, so the loop skips it |
| Text.SeparatorsSplitIntoEmptyPieces | NetRayTracer/ObjData.cs:214 | a string of separators only splits into empty pieces |
| Text.AllEmptyRemoved | NetRayTracer/ObjData.cs:214 | removing empty entries from all-empty pieces leaves nothing |
| Text.Reverse | NetRayTracer/ObjData.cs:272 | `Enumerable.Reverse` keeps the length and puts element `i` at position `n - 1 - i` |
| Text.AllButFirstReversed | NetRayTracer/ObjData.cs:272 | `tokens.Reverse().Take(tokens.Length - 1)` is the tokens after the first, in reverse order |
| Text.Token | NetRayTracer/ObjData.cs:223 | `tokens[i]` succeeds exactly for an index inside the array and gives that element; otherwise `IndexOutOfRangeException` |
| Text.TrimStart | NetRayTracer/ObjData.cs:329 | the leading white space `int.Parse` accepts is removed: the result is no longer and does not start with white space |
| Text.TrimEnd | NetRayTracer/ObjData.cs:329 | the trailing white space is removed: the result is no longer and does not end with white space |
| Text.TrimAlreadyTrimmed | NetRayTracer/ObjData.cs:329 | a string without surrounding white space is left as it is |
| Text.TrimIsSubstring | NetRayTracer/ObjData.cs:329 | trimming adds no character |
| Text.TrimStartIsSubstring | NetRayTracer/ObjData.cs:329 | trimming the start adds no character |
| Text.TrimEndIsSubstring | NetRayTracer/ObjData.cs:329 | trimming the end adds no character |
| Text.Show | NetRayTracer/ObjData.cs:329 | the decimal form of an index is a non-empty string of digits |
| Text.ShowValue | NetRayTracer/ObjData.cs:329 | reading the decimal digits of `n` gives back `n` |
| Text.ParseInt | NetRayTracer/ObjData.cs:329 | `int.Parse` returns an Int32 or throws `FormatException` or `OverflowException` |
| Text.ParseIntShow | NetRayTracer/ObjData.cs:329 | `int.Parse` reads back every non-negative Int32 written in decimal |
| Text.ParseIntRejectsNonNumbers | NetRayTracer/ObjData.cs:336 | `int.Parse` of a string without a digit, the empty string included, throws `FormatException` |
| Text.Pow10 | NetRayTracer/ObjData.cs:223 | every power of ten is positive |
| Text.IndexOf | NetRayTracer/ObjData.cs:223 | the first occurrence of a character, or none exactly when it does not occur |
| Text.ExponentMark | NetRayTracer/ObjData.cs:223 | the exponent mark is found exactly when the number has an `e` or `E`, and lies inside it |
| Text.NoExponent | NetRayTracer/ObjData.cs:223 | without an exponent the value is the mantissa's |
| Text.DigitsAreBare | NetRayTracer/ObjData.cs:223 | a string of digits has no sign, white space, point or exponent mark |
| Text.UnsignedWhole | NetRayTracer/ObjData.cs:223 | digits alone are read as their integer value |
| Text.ParseFloatWhole | NetRayTracer/ObjData.cs:223 | `float.Parse` of a decimal integer is that integer |
| Text.IndexOfAfter | NetRayTracer/ObjData.cs:223 | the first `c` in `x + c + y`, with no `c` in `x`, is at position `|x|` |
| Text.DigitsHaveNoPoint | NetRayTracer/ObjData.cs:223 | digits contain no decimal point |
| Text.MantissaWithPoint | NetRayTracer/ObjData.cs:223 | digits, a point and digits are read as the whole part and the fraction |
| Text.ParseFloatDecimal | NetRayTracer/ObjData.cs:223 | `float.Parse("w.f")` is the whole part plus the fraction digits over the matching power of ten |
| Text.MantissaValueOfDigits | NetRayTracer/ObjData.cs:223 | the mantissa of valid digits is the whole part plus the scaled fraction |
| Text.DecimalIsBare | NetRayTracer/ObjData.cs:223 | `"w.f"` in digits has no sign, white space or exponent mark |
| Text.ParseFloatNegative | NetRayTracer/ObjData.cs:223 | a leading minus sign negates the value |
| SceneConverter.BitmapCache.constructor | NetRayTracer/ObjToSceneConverter.cs:39 | the bitmap dictionary starts empty |
| SceneConverter.BitmapCache.LoadBitmap | NetRayTracer/ObjToSceneConverter.cs:101-111 | skips a null or empty path and a path already cached, inserts the image of a new path, and throws `ArgumentException` (leaving the cache alone) when no image exists at it |
| SceneConverter.ConvertMaterial | NetRayTracer/ObjToSceneConverter.cs:43-66 | the seven loads run in order and the first that throws ends the pass; otherwise the cache is what the loads leave and the material is `MaterialOf` over it |
| SceneConverter.Convert | NetRayTracer/ObjToSceneConverter.cs:35-94 | returns, or throws, exactly what `Converted` gives for the data's lists |
| SceneConverter.ConvertMaterials | NetRayTracer/ObjToSceneConverter.cs:38-68 | the material loop leaves the dictionary `BuildMaterials` describes, or throws the exception of the first material that fails |
| SceneConverter.MaterialPass | NetRayTracer/ObjToSceneConverter.cs:43-67 | one pass of the material loop is `MaterialStep` on the two dictionaries |
| SceneConverter.MaterialStepCases | NetRayTracer/ObjToSceneConverter.cs:66-67 | a failed conversion ends the pass with its exception; a material with a null name throws `ArgumentNullException` at `materials[m.Name]`; otherwise it is stored under its name |
| SceneConverter.ConvertFaces | NetRayTracer/ObjToSceneConverter.cs:70-91 | the face loop gives the triangles `BuildTriangles` describes, or the exception of the first face that fails |
| SceneConverter.MaterialsNext | NetRayTracer/ObjToSceneConverter.cs:41-68 | one more material turns the dictionaries before it into those `MaterialStep` makes |
| SceneConverter.MaterialsFailurePersist | NetRayTracer/ObjToSceneConverter.cs:41-68 | once a material throws, the loop ends with that exception |
| SceneConverter.TrianglesFailurePersist | NetRayTracer/ObjToSceneConverter.cs:70-91 | once a face throws, the loop ends with that exception |
| SceneConverter.LoadBitmapKeeps | NetRayTracer/ObjToSceneConverter.cs:103-105 | a null or empty path, or one already cached, leaves the cache as it is: no entry is ever replaced |
| SceneConverter.LoadBitmapInserts | NetRayTracer/ObjToSceneConverter.cs:103-109 | a non-empty path throws exactly when it is neither cached nor has an image; otherwise it is cached afterwards, a new one mapped to its image, and every other entry is unchanged |
| SceneConverter.CacheAllNoEmptyKey | NetRayTracer/ObjToSceneConverter.cs:103 | a run of loads never caches the empty path |
| SceneConverter.NullPathsSkipped | NetRayTracer/ObjToSceneConverter.cs:103 | loads of null paths leave the cache as it is |
| SceneConverter.LoadMapsNoEmptyKey | NetRayTracer/ObjToSceneConverter.cs:43-49 | the seven loads of a material never cache the empty path |
| SceneConverter.NoEmptyKey | NetRayTracer/ObjToSceneConverter.cs:39-68 | the bitmap dictionary never holds the empty path |
| SceneConverter.MapsFromThreeKeys | NetRayTracer/ObjToSceneConverter.cs:51-66 | a material converts exactly when its alpha, ambient and diffuse paths are non-null and cached; the alpha map and the texture come from their own paths, the other six maps all from the ambient path, and the colours, scalars and name are copied |
| SceneConverter.SkippedPathFails | NetRayTracer/ObjToSceneConverter.cs:52-103 | a null or empty alpha, ambient or diffuse path makes the material pass throw, since such a path is never cached |
| SceneConverter.KeyedByName | NetRayTracer/ObjToSceneConverter.cs:66-67 | the materials dictionary has a key exactly when some material carries that name |
| SceneConverter.NamesOfAppended | NetRayTracer/ObjToSceneConverter.cs:67 | appending a named material adds exactly its name to the names in the list |
| SceneConverter.StepStoresByName | NetRayTracer/ObjToSceneConverter.cs:67 | a successful pass adds exactly the material's own name to the keys |
| SceneConverter.LaterNameOverwrites | NetRayTracer/ObjToSceneConverter.cs:67 | a later material with the same name overwrites the one stored before |
| SceneConverter.OneTrianglePerFace | NetRayTracer/ObjToSceneConverter.cs:70-91 | each face gives exactly one triangle, in face order; a failure comes from some face |
| SceneConverter.FaceIndicesResolve | NetRayTracer/ObjToSceneConverter.cs:72-88 | a face converts exactly when its nine 1-based indices are in range and its material name is stored, and its triangle is built from `list[index - 1]` with that material; an index out of range throws `ArgumentOutOfRangeException` |
| SceneConverter.DefaultMaterialThrows | NetRayTracer/ObjToSceneConverter.cs:43-52 | a default material, all of whose paths are null, throws `ArgumentNullException` at the alpha map lookup |
| SceneConverter.NoMaterialsNoTriangles | NetRayTracer/ObjToSceneConverter.cs:70-88 | with no materials stored no face converts |
| SceneConverter.LoadedDataConvertsOnlyWhenEmpty | NetRayTracer/ObjToSceneConverter.cs:41-91 | data that ObjData loaded converts only when it has neither materials nor faces, because its materials are all default structs |
| SceneConverter.Cached | NetRayTracer/ObjToSceneConverter.cs:101-111 | the bitmap cache after LoadBitmap; `LoadBitmapKeeps` proves a null, empty or cached path changes nothing and `LoadBitmapInserts` that a new path is added or throws ArgumentException |
| SceneConverter.MaterialOf | NetRayTracer/ObjToSceneConverter.cs:51-66 | the scene material of a loaded one; `MapsFromThreeKeys` proves it succeeds exactly when the alpha, ambient and diffuse paths are set and cached, and that every map comes from one of those three keys; `SkippedPathFails` proves a null or empty one of those paths makes the loop step fail and `DefaultMaterialThrows` that a material with no maps throws ArgumentNullException |
| SceneConverter.FaceTriangle | NetRayTracer/ObjToSceneConverter.cs:72-88 | the triangle of one face, each index read one-based, or the exception of the first bad index or missing material; `FaceIndicesResolve` proves it succeeds exactly when all nine indices are in range and the face's material is stored, and which entries it reads |
| SceneConverter.BuildMaterials | NetRayTracer/ObjToSceneConverter.cs:41-68 | the material and bitmap dictionaries after the material loop; `KeyedByName` proves materials are stored under their names and `LaterNameOverwrites` that a repeated name keeps the later one |
| SceneConverter.BuildTriangles | NetRayTracer/ObjToSceneConverter.cs:70-91 | the triangles of the face loop in face order, or the first exception; `OneTrianglePerFace` proves one triangle per face |
| SceneConverter.Converted | NetRayTracer/ObjToSceneConverter.cs:35-94 | the scene Convert returns or the exception it throws; `Convert` returns it and `LoadedDataConvertsOnlyWhenEmpty` proves that data LoadFile returns converts only when it has no materials and no faces |
| Rendering.Nearest | NetRayTracer/Renderer.cs:164-182 | the index the scan keeps, when there is one, lies in the scene and names a triangle the ray hits before `float.MaxValue` |
| Rendering.NearestFindsCandidate | NetRayTracer/Renderer.cs:169-182 | the scan keeps no triangle exactly when no triangle of the scene is hit before `float.MaxValue` |
| Rendering.NearestIsMinimum | NetRayTracer/Renderer.cs:169-182 | the kept triangle's hit time is at most that of every triangle the ray hits |
| Rendering.NearestIsFirst | NetRayTracer/Renderer.cs:175 | the strict `<` lets the earliest triangle win: every hit triangle before the kept one is strictly farther |
| Rendering.MissIsBlack | NetRayTracer/Renderer.cs:167 | a ray that hits no triangle gives opaque black |
| Rendering.MissedTriangleIgnored | NetRayTracer/Renderer.cs:169-182 | appending a triangle the ray does not hit changes neither the kept triangle nor the colour |
| Rendering.SingleHit | NetRayTracer/Renderer.cs:162-200 | with one hit triangle, it is kept and the ray's colour is that triangle's colour at the hit point |
| Rendering.TieGoesToFirst | NetRayTracer/Renderer.cs:175 | of two triangles hit at the same time the first in scene order is kept |
| Rendering.ViewportSampleComponents | NetRayTracer/Renderer.cs:96-129 | pixel (x, y) samples the viewport point x units-per-pixel right of its left edge and y units-per-pixel below its top edge, in the viewport's z plane |
| Rendering.ViewportCorners | NetRayTracer/Renderer.cs:96-129 | pixel (0, 0) samples the viewport's top-left corner and pixel (OutputWidth, OutputHeight) its bottom-right one |
| Rendering.PixelDirection | NetRayTracer/Renderer.cs:87-131 | a primary ray's direction does not depend on the viewport's position and points `CameraDistance` into negative z |
| Rendering.SlotBijection | NetRayTracer/Renderer.cs:108-123 | every pixel of the grid gets a slot `h * OutputWidth + w` inside the tasks array, and distinct pixels distinct slots, since the slot gives the pixel back |
| Rendering.SlotInGrid | NetRayTracer/Renderer.cs:108-123 | every slot of the tasks array belongs to a pixel of the grid |
| Rendering.Renderer.constructor | NetRayTracer/Renderer.cs:73-77 | stores the configuration and the scene; the camera position starts at the origin |
| Rendering.Renderer.CastRay | NetRayTracer/Renderer.cs:162-200 | the loop over the triangles returns the nearest hit triangle's colour at the hit point, or black, for either depth branch |
| Rendering.Renderer.GetColor | NetRayTracer/Renderer.cs:202-214 | returns the triangle's colour at the point; the direction to the camera it computes is unused |
| Rendering.Renderer.Trace | NetRayTracer/Renderer.cs:126-135 | a task shades the ray from the eye through its pixel's viewport sample |
| Rendering.Renderer.Dispatch | NetRayTracer/Renderer.cs:114-138 | after the nested loops every colour slot holds its pixel's colour (unset when its task faulted) and every task slot the outcome of its own pixel |
| Rendering.Renderer.DispatchRow | NetRayTracer/Renderer.cs:116-137 | one pass of the inner loop finishes row h and leaves the later rows untouched |
| Rendering.Renderer.RunTask | NetRayTracer/Renderer.cs:123-136 | a task writes its pixel's colour when it finishes and its outcome in slot `y * OutputWidth + x`, and nothing else |
| Rendering.Renderer.WaitAll | NetRayTracer/Renderer.cs:140 | reports a fault exactly when some task faulted |
| Rendering.Renderer.CopyColors | NetRayTracer/Renderer.cs:142-148 | the new image has the colours' size and holds every colour at its own pixel |
| Rendering.Renderer.Render | NetRayTracer/Renderer.cs:83-153 | a non-positive output size throws `ArgumentException`; otherwise the eye is placed at `OutputHeight / (2 tan(fov/2))` plus the viewport position, `AggregateException` is thrown exactly when some pixel's shading throws, and else every output pixel is that pixel's `CastRay` colour |
| Rendering.CastColor | NetRayTracer/Renderer.cs:162-200 | black when no triangle is hit, otherwise the nearest hit triangle's colour at the hit point; `MissIsBlack` and `SingleHit` prove the two cases and `Renderer.CastRay` returns it |
| Rendering.ViewportSample | NetRayTracer/Renderer.cs:126-129 | the viewport point a pixel samples; `ViewportSampleComponents` proves its coordinates and `ViewportCorners` the corners of the viewport |
| Rendering.PixelColor | NetRayTracer/Renderer.cs:126-135 | the colour CastRay gives the ray from the camera through the pixel's viewport point; `Renderer.Trace` returns it and `Renderer.Render` puts it at the pixel |

## Left out

- Floating point. Coordinates, colours and times are reals, so single-precision rounding, overflow and signed zeros are not modelled. The only non-finite values modelled are the infinity or NaN of a division by zero, and only where the code tests for one: the collision time and the prototype's sign-decided edge case.
- `Math.Sqrt` and `Math.Tan` are uninterpreted. `Magnitude`, `Normalized`, the triangle area and the camera distance are stated in terms of them. Lemmas that need a concrete root, such as `Sqrt(4) == 2`, take it as a hypothesis.
- `Normalized` of a zero vector gives NaN components in C#. The model stands for them with the zero vector. Every test that follows such a vector fails in the model just as it does against NaN.
- Vector3.Div: requires a non-zero divisor, since the infinite and NaN components of a division by zero are not modelled.
- Vector4.Div: requires a non-zero divisor, for the same reason.
- Rendering.Renderer.Render: requires `tan(fov / 2) != 0` when the output size is positive. With a zero tangent the source places the camera at an infinite or NaN depth, which is not modelled.
- Matrices.Matrix.constructor: takes `nat` dimensions. The overflow exception that `new float[columns, rows]` raises for a negative size is not modelled.
- Matrices.Matrix.Identity: takes a `nat` size, for the same reason.
- File and stream I/O. `File.Exists`, `FileStream` and `StreamReader` become a map from paths to the lines of each file. A missing path gives the `ArgumentException` the loaders throw.
- `System.Drawing.Bitmap` is a width by height grid of ARGB bytes. `new Bitmap(path)` becomes a map from paths to images. The renderer's output image is a two-dimensional array of the `Vector4` colours `SetPixel` would receive; the conversion to a `Color`, which does not compile as written, is not modelled.
- Task parallelism. In the model, `Task.Factory.StartNew` runs each pixel's task at once, in loop order. `Task.WaitAll` becomes a scan for a faulted task. Interleavings are not modelled, but each task writes only its own pixel and slot, and the model proves it.
- The `AggregateException` that `Task.WaitAll` throws is modelled without the inner exceptions it collects.
- `Int32` overflow of `OutputWidth * OutputHeight` in the size of the tasks array is not modelled.
- Scene `Width` and `Height` keep their default 0, as in the source. Nothing reads them.
- The `Viewport` and `Configuration` classes are reduced to the fields that `Render` and `CastRay` read. `Configuration.Load`, which reads JSON, Program.cs and logging are not part of this model.
- Lights, shadows, reflection and refraction rays, and Phong shading are not part of this model. The source leaves them as TODOs; `Light` has no behaviour, and `Renderer.GetColor` computes a direction to the camera that it never uses.
- `ToString` and `GetHashCode` format or hash floats and are not modelled.
- The raycaster `Vector3` has public setters for X, Y and Z. No core operation calls them, so the prototype's vector is modelled as an immutable value behind a possibly-null reference.
- The matrix tests of `m * vec` and `Matrix.LookAt` are not modelled, because neither operation exists in `NetRayTracer/Matrix.cs`.
- `Material`, `Scene` and `Light` only hold data. Their fields appear as datatype fields wherever the modelled code reads them.
- The scene material colours `SpecularColor`, `DiffuseColor` and `AmbientColor` are declared `Vector4` in `NetRayTracer/Material.cs:76-92`, but `NetRayTracer/ObjToSceneConverter.cs:61-64` assigns the loaded material's `Vector3` colours to them, which does not compile. The model keeps them as `Vector3` values; nothing modelled reads them.
- Text.ParseFloat: `int.Parse` and `float.Parse` use the current culture. The model assumes it is the invariant culture. Thousands separators, which `float.Parse` allows by default, and the "Infinity" and "NaN" symbols it accepts are read as malformed, and the value is the exact decimal rather than the nearest float.
- Triangles.DiffuseColorAt: for the NaN texture coordinates of a zero-area triangle the model assumes a runtime whose `(int)` cast gives `int.MinValue`, as the .NET Framework's does, so `GetPixel` throws. A runtime that saturates NaN to 0 would read pixel (0, 0) instead.

## Findings

| source | as written | input that shows it | evidently intended | confidence | as-written member | corrected member |
|---|---|---|---|---|---|---|
| NetRayTracer/Matrix.cs:85 | the product is allocated as `new Matrix(A.Rows, B.Columns)`, that is with `A.Rows` columns and `B.Columns` rows, but the loops write `m[j, i]` for column `j < B.Columns` and row `i < A.Rows` | A with 2 columns and 3 rows times B with 4 columns and 2 rows: the shape check passes, and the write to `m[3, 0]` falls outside a 3-column result | `new Matrix(B.Columns, A.Rows)`, so that every product cell is in range | high; not executed | Matrices.WritesOutsideExample | Matrices.Matrix.MultiplyCorrected |
| NetRayTracer/Vertex.cs:122 | `Equals(object)` tests `other != null` with the overloaded `!=`, which reads `null.Position` | any argument: `v.Equals(v)` throws `NullReferenceException` | a reference null test (`other is null` or `ReferenceEquals`), giving value equality on vertices and false for anything else | high; not executed | Vertices.EqualsObjectAlwaysThrows | Vertices.EqualsObjectCorrectedIsEquality |
| NetRayTracer/Matrix.cs:147 | `Equals(object)` tests `m != null` with the overloaded `!=`, whose `==` reads `a.Columns` and `b.Columns`, so the null right operand is dereferenced | any argument: `m.Equals(m)` throws `NullReferenceException`, and so does `m.Equals(null)` | a reference null test (`m is null` or `ReferenceEquals`), giving `this == m` for a matrix and false for anything else | high; not executed | Matrices.Matrix.EqualsObject | Matrices.Matrix.EqualsObjectCorrected |
