/** NetRayTracer's Ray: an origin and a direction that the constructor normalizes. */
module Rays {
  import opened Vector3

  datatype Ray = Ray(Origin: Vec3, Direction: Vec3)

  /** new Ray(origin, direction) */
  function MakeRay(origin: Vec3, direction: Vec3): Ray
  {
    Ray(origin, Normalized(direction))
  }

  function PointAtDistance(r: Ray, t: real): Vec3
  {
    Add(r.Origin, Scale(r.Direction, t))
  }

  /** The constructor keeps the origin and stores a unit direction pointing the same way. */
  lemma MakeRayNormalizes(origin: Vec3, direction: Vec3)
    requires Magnitude(direction) != 0.0
    requires Magnitude(direction) * Magnitude(direction) == Dot(direction, direction)
    ensures MakeRay(origin, direction).Origin == origin
    ensures Dot(MakeRay(origin, direction).Direction, MakeRay(origin, direction).Direction) == 1.0
    ensures Scale(MakeRay(origin, direction).Direction, Magnitude(direction)) == direction
  {
    NormalizedIsUnit(direction);
  }

  /** The ray starts at its origin and moves by its direction per unit of distance. */
  lemma PointAtDistanceAffine(r: Ray, s: real, t: real)
    ensures PointAtDistance(r, 0.0) == r.Origin
    ensures Sub(PointAtDistance(r, s + t), PointAtDistance(r, s)) == Scale(r.Direction, t)
  {
  }
}
