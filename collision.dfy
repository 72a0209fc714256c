/**
 * NetRayTracer's CollisionExtensions.CollidesWith: the distance along the ray to the triangle's
 * plane, then three same-side tests of the hit point against the triangle's edges.
 */
module Collision {
  import opened SystemMath
  import opened Vector3
  import opened Vertices
  import opened Rays
  import opened Triangles

  /** CollisionExtensions.ProximityTolerance (0.5f): hits closer to the origin than this are ignored. */
  const ProximityTolerance: real := 0.5

  /** The time CollidesWith writes to its ref parameter: -Dot(Origin - P0, N) / Dot(Direction, N). */
  function CandidateTime(r: Ray, t: Triangle): FloatValue
  {
    FloatDiv(-Dot(Sub(r.Origin, t.P0.Position), t.Normal), Dot(r.Direction, t.Normal))
  }

  /** One edge test: ((b - a) x (x - a)) . n, non-negative when x is on the inner side of edge a -> b. */
  function EdgeTest(a: Vec3, b: Vec3, x: Vec3, n: Vec3): real
  {
    Dot(Cross(Sub(b, a), Sub(x, a)), n)
  }

  /** The three edge tests, in the order P0 -> P1, P1 -> P2, P2 -> P0. */
  predicate InsideEdges(t: Triangle, x: Vec3)
  {
    EdgeTest(t.P0.Position, t.P1.Position, x, t.Normal) >= 0.0
    && EdgeTest(t.P1.Position, t.P2.Position, x, t.Normal) >= 0.0
    && EdgeTest(t.P2.Position, t.P0.Position, x, t.Normal) >= 0.0
  }

  /**
   * When CollidesWith returns true: a finite time beyond the tolerance whose point passes the three
   * edge tests. NaN fails the comparison and an infinity is rejected explicitly.
   */
  predicate Collides(r: Ray, t: Triangle)
  {
    var time := CandidateTime(r, t);
    time.Finite? && time.value > ProximityTolerance && InsideEdges(t, PointAtDistance(r, time.value))
  }

  /** CollidesWith(r, t, ref time): the answer, and the time the caller sees whatever the answer. */
  method CollidesWith(r: Ray, t: Triangle) returns (hit: bool, time: FloatValue)
    ensures time == CandidateTime(r, t)
    ensures hit <==> Collides(r, t)
    ensures hit ==> time.Finite? && time.value > ProximityTolerance
  {
    var op := Sub(r.Origin, t.P0.Position);
    time := Finite(-1.0);
    var opt := Dot(op, t.Normal);
    time := FloatDiv(-opt, Dot(r.Direction, t.Normal));
    if time.Finite? && time.value > ProximityTolerance {
      var coord := PointAtDistance(r, time.value);
      var cross := Cross(Sub(t.P1.Position, t.P0.Position), Sub(coord, t.P0.Position));
      var h := Dot(cross, t.Normal);
      if h < 0.0 {
        return false, time;
      }
      cross := Cross(Sub(t.P2.Position, t.P1.Position), Sub(coord, t.P1.Position));
      h := Dot(cross, t.Normal);
      if h < 0.0 {
        return false, time;
      }
      cross := Cross(Sub(t.P0.Position, t.P2.Position), Sub(coord, t.P2.Position));
      h := Dot(cross, t.Normal);
      if h < 0.0 {
        return false, time;
      }
      return true, time;
    }
    hit := false;
  }

  /** At a finite candidate time the ray is in the triangle's plane, and so is every hit point. */
  lemma CandidatePointInPlane(r: Ray, t: Triangle)
    requires CandidateTime(r, t).Finite?
    ensures Dot(Sub(PointAtDistance(r, CandidateTime(r, t).value), t.P0.Position), t.Normal) == 0.0
  {
    var op := Sub(r.Origin, t.P0.Position);
    var time := CandidateTime(r, t).value;
    assert Sub(PointAtDistance(r, time), t.P0.Position) == Add(op, Scale(r.Direction, time));
    DotLinear(op, Scale(r.Direction, time), t.Normal, time);
    DotLinear(r.Direction, r.Direction, t.Normal, time);
    assert time * Dot(r.Direction, t.Normal) == -Dot(op, t.Normal);
  }

  /** A ray parallel to the plane never collides: the time is an infinity or NaN. */
  lemma ParallelNeverCollides(r: Ray, t: Triangle)
    requires Dot(r.Direction, t.Normal) == 0.0
    ensures !CandidateTime(r, t).Finite?
    ensures !Collides(r, t)
  {
  }

  /** Candidates at or before the tolerance are rejected. */
  lemma WithinToleranceNeverCollides(r: Ray, t: Triangle)
    requires CandidateTime(r, t).Finite? && CandidateTime(r, t).value <= ProximityTolerance
    ensures !Collides(r, t)
  {
  }

  /** A cross product of two vectors in the yz-plane points along x. */
  lemma CrossInYZPlane(y1: real, z1: real, y2: real, z2: real)
    ensures Cross(Vec3(0.0, y1, z1), Vec3(0.0, y2, z2)) == Vec3(y1 * z2 - z1 * y2, 0.0, 0.0)
  {
  }

  /** The triangle of CollisionTests.RayTriangleTest has raw normal (-2,0,0) ... */
  lemma TestTriangleRawNormal(a: Vec3, b: Vec3, c: Vec3)
    requires a == Vec3(2.0, 1.0, 0.0) && b == Vec3(2.0, 0.0, -1.0) && c == Vec3(2.0, 0.0, 1.0)
    ensures Cross(Sub(c, b), Sub(a, b)) == Vec3(-2.0, 0.0, 0.0)
  {
  }

  /** Vertices whose raw normal is (-2,0,0) make a triangle with normal (-1,0,0) when Sqrt(4) is 2. */
  lemma NormalAlongNegativeX(a: Vertex, b: Vertex, c: Vertex)
    requires Sqrt(4.0) == 2.0
    requires RawNormal(a, b, c) == Vec3(-2.0, 0.0, 0.0)
    ensures MakeUntexturedTriangle(a, b, c).Normal == Vec3(-1.0, 0.0, 0.0)
  {
    assert Magnitude(Vec3(-2.0, 0.0, 0.0)) == Sqrt(4.0);
  }

  /** ... so its normal is (-1,0,0). */
  lemma TestTriangleNormal(a: Vertex, b: Vertex, c: Vertex)
    requires Sqrt(4.0) == 2.0
    requires a.Position == Vec3(2.0, 1.0, 0.0) && b.Position == Vec3(2.0, 0.0, -1.0) && c.Position == Vec3(2.0, 0.0, 1.0)
    ensures MakeUntexturedTriangle(a, b, c).Normal == Vec3(-1.0, 0.0, 0.0)
  {
    TestTriangleRawNormal(a.Position, b.Position, c.Position);
    NormalAlongNegativeX(a, b, c);
  }

  /** A unit direction along an axis is its own normalization when Sqrt(1) is 1. */
  lemma AxisRay(o: Vec3, d: Vec3)
    requires Sqrt(1.0) == 1.0
    requires d == Vec3(1.0, 0.0, 0.0) || d == Vec3(-1.0, 0.0, 0.0)
    ensures MakeRay(o, d).Direction == d
  {
    assert Magnitude(d) == Sqrt(1.0);
  }

  /** The edge test P0 -> P1 at (2,0,0) gives 1. */
  lemma TestTriangleEdge01(p0: Vec3, p1: Vec3, x: Vec3, n: Vec3)
    requires p0 == Vec3(2.0, 1.0, 0.0) && p1 == Vec3(2.0, 0.0, -1.0)
    requires x == Vec3(2.0, 0.0, 0.0) && n == Vec3(-1.0, 0.0, 0.0)
    ensures EdgeTest(p0, p1, x, n) == 1.0
  {
  }

  /** The edge test P1 -> P2 at (2,0,0) gives 0: the point lies on that edge. */
  lemma TestTriangleEdge12(p1: Vec3, p2: Vec3, x: Vec3, n: Vec3)
    requires p1 == Vec3(2.0, 0.0, -1.0) && p2 == Vec3(2.0, 0.0, 1.0)
    requires x == Vec3(2.0, 0.0, 0.0) && n == Vec3(-1.0, 0.0, 0.0)
    ensures EdgeTest(p1, p2, x, n) == 0.0
  {
  }

  /** The edge test P2 -> P0 at (2,0,0) gives 1. */
  lemma TestTriangleEdge20(p2: Vec3, p0: Vec3, x: Vec3, n: Vec3)
    requires p2 == Vec3(2.0, 0.0, 1.0) && p0 == Vec3(2.0, 1.0, 0.0)
    requires x == Vec3(2.0, 0.0, 0.0) && n == Vec3(-1.0, 0.0, 0.0)
    ensures EdgeTest(p2, p0, x, n) == 1.0
  {
  }

  /** From the origin along +x the test triangle's candidate time is 2. */
  lemma TestTriangleTimeForward(t: Triangle, r: Ray)
    requires t.P0.Position == Vec3(2.0, 1.0, 0.0) && t.Normal == Vec3(-1.0, 0.0, 0.0)
    requires r.Origin == Vec3(0.0, 0.0, 0.0) && r.Direction == Vec3(1.0, 0.0, 0.0)
    ensures CandidateTime(r, t) == Finite(2.0)
  {
  }

  /** From the origin along -x it is -2. */
  lemma TestTriangleTimeBackward(t: Triangle, r: Ray)
    requires t.P0.Position == Vec3(2.0, 1.0, 0.0) && t.Normal == Vec3(-1.0, 0.0, 0.0)
    requires r.Origin == Vec3(0.0, 0.0, 0.0) && r.Direction == Vec3(-1.0, 0.0, 0.0)
    ensures CandidateTime(r, t) == Finite(-2.0)
  {
  }

  /** Along +x from the origin the point at time 2 is (2,0,0). */
  lemma ForwardPoint(r: Ray)
    requires r.Origin == Vec3(0.0, 0.0, 0.0) && r.Direction == Vec3(1.0, 0.0, 0.0)
    ensures PointAtDistance(r, 2.0) == Vec3(2.0, 0.0, 0.0)
  {
  }

  /** A ray of the test triangle's plane-distance 2 whose point there is (2,0,0) hits it. */
  lemma HitAtTwo(t: Triangle, r: Ray)
    requires t.P0.Position == Vec3(2.0, 1.0, 0.0) && t.P1.Position == Vec3(2.0, 0.0, -1.0) && t.P2.Position == Vec3(2.0, 0.0, 1.0)
    requires t.Normal == Vec3(-1.0, 0.0, 0.0)
    requires CandidateTime(r, t) == Finite(2.0) && PointAtDistance(r, 2.0) == Vec3(2.0, 0.0, 0.0)
    ensures Collides(r, t)
  {
    TestTriangleEdge01(t.P0.Position, t.P1.Position, Vec3(2.0, 0.0, 0.0), t.Normal);
    TestTriangleEdge12(t.P1.Position, t.P2.Position, Vec3(2.0, 0.0, 0.0), t.Normal);
    TestTriangleEdge20(t.P2.Position, t.P0.Position, Vec3(2.0, 0.0, 0.0), t.Normal);
  }

  /** From (4,0,0) along -x the test triangle's candidate time is 2 as well. */
  lemma TestTriangleTimeFromBehind(t: Triangle, r: Ray)
    requires t.P0.Position == Vec3(2.0, 1.0, 0.0) && t.Normal == Vec3(-1.0, 0.0, 0.0)
    requires r.Origin == Vec3(4.0, 0.0, 0.0) && r.Direction == Vec3(-1.0, 0.0, 0.0)
    ensures CandidateTime(r, t) == Finite(2.0)
  {
  }

  /** (4,0,0) lies behind the face of a triangle through (2,1,0) with normal (-1,0,0). */
  lemma OriginBehindFace(o: Vec3, p0: Vec3, n: Vec3)
    requires o == Vec3(4.0, 0.0, 0.0) && p0 == Vec3(2.0, 1.0, 0.0) && n == Vec3(-1.0, 0.0, 0.0)
    ensures Dot(Sub(o, p0), n) == -2.0
  {
  }

  /** From (4,0,0) along -x the point at time 2 is (2,0,0). */
  lemma PointFromBehind(r: Ray)
    requires r.Origin == Vec3(4.0, 0.0, 0.0) && r.Direction == Vec3(-1.0, 0.0, 0.0)
    ensures PointAtDistance(r, 2.0) == Vec3(2.0, 0.0, 0.0)
  {
  }

  /**
   * CollisionTests.RayTriangleTest, first ray: a ray from the origin along +x hits the triangle
   * (2,1,0), (2,0,-1), (2,0,1) at time 2.
   */
  lemma RayTriangleExample(a: Vertex, b: Vertex, c: Vertex, origin: Vec3, direction: Vec3)
    requires Sqrt(1.0) == 1.0 && Sqrt(4.0) == 2.0
    requires a.Position == Vec3(2.0, 1.0, 0.0) && b.Position == Vec3(2.0, 0.0, -1.0) && c.Position == Vec3(2.0, 0.0, 1.0)
    requires origin == Vec3(0.0, 0.0, 0.0) && direction == Vec3(1.0, 0.0, 0.0)
    ensures Collides(MakeRay(origin, direction), MakeUntexturedTriangle(a, b, c))
    ensures CandidateTime(MakeRay(origin, direction), MakeUntexturedTriangle(a, b, c)) == Finite(2.0)
  {
    TestTriangleNormal(a, b, c);
    AxisRay(origin, direction);
    TestTriangleTimeForward(MakeUntexturedTriangle(a, b, c), MakeRay(origin, direction));
    ForwardPoint(MakeRay(origin, direction));
    HitAtTwo(MakeUntexturedTriangle(a, b, c), MakeRay(origin, direction));
  }

  /**
   * CollisionTests.RayTriangleTest, second ray: along the negated direction -x the same triangle is
   * missed, and the caller still sees time -2.
   */
  lemma ReversedRayExample(a: Vertex, b: Vertex, c: Vertex, origin: Vec3, direction: Vec3)
    requires Sqrt(1.0) == 1.0 && Sqrt(4.0) == 2.0
    requires a.Position == Vec3(2.0, 1.0, 0.0) && b.Position == Vec3(2.0, 0.0, -1.0) && c.Position == Vec3(2.0, 0.0, 1.0)
    requires origin == Vec3(0.0, 0.0, 0.0) && direction == Vec3(-1.0, 0.0, 0.0)
    ensures !Collides(MakeRay(origin, direction), MakeUntexturedTriangle(a, b, c))
    ensures CandidateTime(MakeRay(origin, direction), MakeUntexturedTriangle(a, b, c)) == Finite(-2.0)
  {
    TestTriangleNormal(a, b, c);
    AxisRay(origin, direction);
    TestTriangleTimeBackward(MakeUntexturedTriangle(a, b, c), MakeRay(origin, direction));
  }

  /**
   * Backfaces are not culled: a ray from (4,0,0) along -x, whose origin lies behind the test
   * triangle's face, hits it at time 2 as well.
   */
  lemma BackfaceHitExample(a: Vertex, b: Vertex, c: Vertex, origin: Vec3, direction: Vec3)
    requires Sqrt(1.0) == 1.0 && Sqrt(4.0) == 2.0
    requires a.Position == Vec3(2.0, 1.0, 0.0) && b.Position == Vec3(2.0, 0.0, -1.0) && c.Position == Vec3(2.0, 0.0, 1.0)
    requires origin == Vec3(4.0, 0.0, 0.0) && direction == Vec3(-1.0, 0.0, 0.0)
    ensures Dot(Sub(origin, a.Position), MakeUntexturedTriangle(a, b, c).Normal) == -2.0
    ensures Collides(MakeRay(origin, direction), MakeUntexturedTriangle(a, b, c))
    ensures CandidateTime(MakeRay(origin, direction), MakeUntexturedTriangle(a, b, c)) == Finite(2.0)
  {
    TestTriangleNormal(a, b, c);
    AxisRay(origin, direction);
    OriginBehindFace(origin, a.Position, MakeUntexturedTriangle(a, b, c).Normal);
    TestTriangleTimeFromBehind(MakeUntexturedTriangle(a, b, c), MakeRay(origin, direction));
    PointFromBehind(MakeRay(origin, direction));
    HitAtTwo(MakeUntexturedTriangle(a, b, c), MakeRay(origin, direction));
  }
}
