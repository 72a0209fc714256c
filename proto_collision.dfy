/**
 * The raycaster prototype's CollisionExtensions.CollidesWith: NetRayTracer's plane distance and
 * three edge tests, without the infinity guard, over references that may be null.
 */
module ProtoCollision {
  import opened Errors
  import opened SystemMath
  import V3 = Vector3
  import PV = ProtoVector3
  import Rays
  import Triangles
  import Col = Collision
  import opened ProtoGeometry

  /** CollisionExtensions.ProximityTolerance (0.5f) */
  const ProximityTolerance: real := 0.5

  /**
   * What CollidesWith(r, t, ref time) returns, and the value time holds afterwards. A hit of
   * Ok(None) stands for an answer the reals cannot give: the candidate time is an infinity whose
   * sign, and so whether it passes the test against the tolerance, depends on a signed zero.
   */
  datatype Outcome = Outcome(Hit: Result<Option<bool>>, Time: FloatValue)

  /** NetRayTracer's ray with the same origin and direction. */
  function AsRay(r: Ray): Rays.Ray
    requires r.Origin.Some?
  {
    Rays.Ray(r.Origin.value, r.Direction)
  }

  /** NetRayTracer's triangle with the same positions and normal (its area and material play no part in a collision). */
  function AsTriangle(t: Triangle): Triangles.Triangle
    requires t.P0.Position.Some? && t.P1.Position.Some? && t.P2.Position.Some?
  {
    Triangles.Triangle(AsVertex(t.P0.Position.value), AsVertex(t.P1.Position.value),
                       AsVertex(t.P2.Position.value), t.Normal, 0.0, None)
  }

  /**
   * The edge tests at point x, stated with NetRayTracer's EdgeTest. P1's and P2's positions are only
   * read once the tests before them have passed, so an unset one throws only then.
   */
  function EdgeOutcome(t: Triangle, x: V3.Vec3): Result<Option<bool>>
    requires t.P0.Position.Some?
  {
    var p0 := t.P0.Position.value;
    if t.P1.Position.None? then Fail(NullReference)
    else if Col.EdgeTest(p0, t.P1.Position.value, x, t.Normal) < 0.0 then Ok(Some(false))
    else if t.P2.Position.None? then Fail(NullReference)
    else
      var p1, p2 := t.P1.Position.value, t.P2.Position.value;
      Ok(Some(Col.EdgeTest(p1, p2, x, t.Normal) >= 0.0 && Col.EdgeTest(p2, p0, x, t.Normal) >= 0.0))
  }

  /**
   * The outcome of CollidesWith(r, t, ref time) when time held `before`. A null origin or an unset
   * P0 position throws before time is written. Otherwise time becomes NetRayTracer's candidate
   * time, and only the comparison with the tolerance filters it.
   */
  function Expected(r: Ray, t: Triangle, before: FloatValue): Outcome
  {
    if r.Origin.None? || t.P0.Position.None? then Outcome(Fail(NullReference), before)
    else
      var o, p0 := r.Origin.value, t.P0.Position.value;
      var time := FloatDiv(-V3.Dot(V3.Sub(o, p0), t.Normal), V3.Dot(r.Direction, t.Normal));
      if time.Infinite? then Outcome(Ok(None), time)
      else if !(time.Finite? && time.value > ProximityTolerance) then Outcome(Ok(Some(false)), time)
      else Outcome(EdgeOutcome(t, Rays.PointAtDistance(AsRay(r), time.value)), time)
  }

  /** CollidesWith(this Ray r, Triangle t, ref float time) */
  method CollidesWith(r: Ray, t: Triangle, before: FloatValue) returns (hit: Result<Option<bool>>, time: FloatValue)
    ensures Outcome(hit, time) == Expected(r, t, before)
    ensures hit == Ok(Some(true)) ==> time.Finite? && time.value > ProximityTolerance
  {
    time := before;
    var op :- PV.Sub(r.Origin, t.P0.Position);
    // from here on the origin and P0's position are known to be set
    var p0 := t.P0.Position.value;
    time := Finite(-1.0);
    time := FloatDiv(-V3.Dot(op, t.Normal), V3.Dot(r.Direction, t.Normal));
    if time.Infinite? {
      // +infinity passes the comparison and -infinity does not; which one it is is not modelled
      return Ok(None), time;
    }
    if time.Finite? && time.value > ProximityTolerance {
      var coord := PointAtDistance(r, time.value).value;

      var edge :- PV.Sub(t.P1.Position, t.P0.Position);
      var p1 := t.P1.Position.value;
      var cross := V3.Cross(edge, V3.Sub(coord, p0));
      var h := V3.Dot(cross, t.Normal);
      if h < 0.0 {
        return Ok(Some(false)), time;
      }

      edge :- PV.Sub(t.P2.Position, t.P1.Position);
      var p2 := t.P2.Position.value;
      cross := V3.Cross(edge, V3.Sub(coord, p1));
      h := V3.Dot(cross, t.Normal);
      if h < 0.0 {
        return Ok(Some(false)), time;
      }

      cross := V3.Cross(V3.Sub(p0, p2), V3.Sub(coord, p2));
      h := V3.Dot(cross, t.Normal);
      if h < 0.0 {
        return Ok(Some(false)), time;
      }
      return Ok(Some(true)), time;
    }
    return Ok(Some(false)), time;
  }

  /** A null origin or an unset P0 position throws, and the caller's time keeps its old value. */
  lemma ThrowsBeforeWritingTime(r: Ray, t: Triangle, before: FloatValue)
    requires r.Origin.None? || t.P0.Position.None?
    ensures Expected(r, t, before) == Outcome(Fail(NullReference), before)
  {
  }

  /**
   * On a non-null origin and placed vertices, the time is NetRayTracer's candidate time, and unless
   * it is an infinity the answer is NetRayTracer's.
   */
  lemma AgreesWithNetRayTracer(r: Ray, t: Triangle, before: FloatValue)
    requires r.Origin.Some? && Placed(Some(t.P0), Some(t.P1), Some(t.P2))
    ensures Expected(r, t, before).Time == Col.CandidateTime(AsRay(r), AsTriangle(t))
    ensures !Col.CandidateTime(AsRay(r), AsTriangle(t)).Infinite? ==>
              Expected(r, t, before).Hit == Ok(Some(Col.Collides(AsRay(r), AsTriangle(t))))
  {
  }

  /**
   * Without the infinity guard a ray parallel to the plane and off it is not rejected: the outcome
   * rests on the sign of the infinity, where NetRayTracer's version answers false.
   */
  lemma NoInfinityGuard(r: Ray, t: Triangle, before: FloatValue)
    requires r.Origin.Some? && Placed(Some(t.P0), Some(t.P1), Some(t.P2))
    requires V3.Dot(r.Direction, t.Normal) == 0.0
    requires V3.Dot(V3.Sub(r.Origin.value, t.P0.Position.value), t.Normal) != 0.0
    ensures Expected(r, t, before) == Outcome(Ok(None), Infinite)
    ensures !Col.Collides(AsRay(r), AsTriangle(t))
  {
    Col.ParallelNeverCollides(AsRay(r), AsTriangle(t));
  }

  /** A parallel ray lying in the plane gives NaN, which fails the comparison. */
  lemma InPlaneParallelMisses(r: Ray, t: Triangle, before: FloatValue)
    requires r.Origin.Some? && t.P0.Position.Some?
    requires V3.Dot(r.Direction, t.Normal) == 0.0
    requires V3.Dot(V3.Sub(r.Origin.value, t.P0.Position.value), t.Normal) == 0.0
    ensures Expected(r, t, before) == Outcome(Ok(Some(false)), NaN)
  {
  }

  /** A finite time at or before the tolerance is a miss, whatever the vertices hold. */
  lemma WithinToleranceMisses(r: Ray, t: Triangle, before: FloatValue)
    requires Expected(r, t, before).Hit.Ok?
    requires Expected(r, t, before).Time.Finite? && Expected(r, t, before).Time.value <= ProximityTolerance
    ensures Expected(r, t, before).Hit == Ok(Some(false))
  {
  }

  /** A hit lies beyond the tolerance, in the triangle's plane. */
  lemma HitIsInPlane(r: Ray, t: Triangle, before: FloatValue)
    requires Expected(r, t, before).Hit == Ok(Some(true))
    ensures r.Origin.Some? && t.P0.Position.Some?
    ensures Expected(r, t, before).Time.Finite? && Expected(r, t, before).Time.value > ProximityTolerance
    ensures var x := Rays.PointAtDistance(AsRay(r), Expected(r, t, before).Time.value);
            V3.Dot(V3.Sub(x, t.P0.Position.value), t.Normal) == 0.0
  {
    if r.Origin.Some? && Placed(Some(t.P0), Some(t.P1), Some(t.P2)) {
      Col.CandidatePointInPlane(AsRay(r), AsTriangle(t));
    }
  }
}
