/**
 * The collision primitive of src/lib/collision.js: an overlap test on closed intervals in which
 * equal starts and touching endpoints count as a collision, and its lifting to axis-aligned boxes.
 */
module Collision {
  import opened Vectors

  /** An unrotated box given by its smallest and greatest vertices. */
  datatype Box = Box(vmin: Vec3, vmax: Vec3)

  predicate WellFormed(b: Box)
  {
    b.vmin.x <= b.vmax.x && b.vmin.y <= b.vmax.y && b.vmin.z <= b.vmax.z
  }

  function Max(a: real, b: real): real { if a < b then b else a }
  function Min(a: real, b: real): real { if a < b then a else b }

  /** `testIntervalCollision(s1, f1, s2, f2)` for the intervals [s1, f1] and [s2, f2]. */
  function TestIntervalCollision(s1: real, f1: real, s2: real, f2: real): (r: bool)
    // on well-formed intervals it is exactly "the closed intervals intersect"
    ensures s1 <= f1 && s2 <= f2 ==> (r <==> Max(s1, s2) <= Min(f1, f2))
    // whatever the end points, a common start collides and a strictly later start that the
    // earlier interval does not reach does not
    ensures s1 == s2 ==> r
    ensures s1 < s2 && f1 < s2 ==> !r
  {
    if s1 == s2 then true
    else if s1 < s2 then f1 >= s2
    else f2 >= s1
  }

  lemma IntervalCollisionSymmetric(s1: real, f1: real, s2: real, f2: real)
    ensures TestIntervalCollision(s1, f1, s2, f2) == TestIntervalCollision(s2, f2, s1, f1)
  {
  }

  /** When the first interval starts earlier, the test is exactly "it reaches the second start":
      touching end points (`f1 == s2`) collide. */
  lemma IntervalCollisionEarlierStart(s1: real, f1: real, s2: real, f2: real)
    requires s1 < s2
    ensures TestIntervalCollision(s1, f1, s2, f2) <==> f1 >= s2
    ensures f1 == s2 ==> TestIntervalCollision(s1, f1, s2, f2)
  {
  }

  /** The interval test on one axis of two boxes. */
  predicate OverlapOn(a: Box, b: Box, axis: Axis)
  {
    TestIntervalCollision(a.vmin.Get(axis), a.vmax.Get(axis), b.vmin.Get(axis), b.vmax.Get(axis))
  }

  /** The loop of `testCubeCollision`: walks the axes in order and stops at the first axis on
      which the intervals do not collide. */
  function CollidesOnAxes(a: Box, b: Box, axes: seq<Axis>): (r: bool)
    ensures r <==> forall i :: 0 <= i < |axes| ==> OverlapOn(a, b, axes[i])
  {
    if axes == [] then true
    else if !OverlapOn(a, b, axes[0]) then false
    else CollidesOnAxes(a, b, axes[1..])
  }

  /** `testCubeCollision(cube1, cube2)` */
  function TestCubeCollision(a: Box, b: Box): (r: bool)
    ensures r <==> OverlapOn(a, b, X) && OverlapOn(a, b, Y) && OverlapOn(a, b, Z)
  {
    assert Axes[0] == X && Axes[1] == Y && Axes[2] == Z;
    CollidesOnAxes(a, b, Axes)
  }

  lemma CubeCollisionSymmetric(a: Box, b: Box)
    ensures TestCubeCollision(a, b) == TestCubeCollision(b, a)
  {
    IntervalCollisionSymmetric(a.vmin.x, a.vmax.x, b.vmin.x, b.vmax.x);
    IntervalCollisionSymmetric(a.vmin.y, a.vmax.y, b.vmin.y, b.vmax.y);
    IntervalCollisionSymmetric(a.vmin.z, a.vmax.z, b.vmin.z, b.vmax.z);
  }

  /** A gap on any single axis between well-formed boxes rules the collision out. */
  lemma SeparatedOnAxis(a: Box, b: Box, axis: Axis)
    requires WellFormed(a) && WellFormed(b)
    requires a.vmax.Get(axis) < b.vmin.Get(axis) || b.vmax.Get(axis) < a.vmin.Get(axis)
    ensures !TestCubeCollision(a, b)
  {
    assert !OverlapOn(a, b, axis);
  }

  /** For well-formed boxes the test is exactly "the closed boxes share a point". */
  lemma CubeCollisionIsIntersection(a: Box, b: Box)
    requires WellFormed(a) && WellFormed(b)
    ensures TestCubeCollision(a, b) <==>
      (exists p: Vec3 :: InBox(p, a) && InBox(p, b))
  {
    if TestCubeCollision(a, b) {
      var p := Vec3(Max(a.vmin.x, b.vmin.x), Max(a.vmin.y, b.vmin.y), Max(a.vmin.z, b.vmin.z));
      assert InBox(p, a) && InBox(p, b);
    }
  }

  predicate InBox(p: Vec3, b: Box)
  {
    b.vmin.x <= p.x <= b.vmax.x && b.vmin.y <= p.y <= b.vmax.y && b.vmin.z <= p.z <= b.vmax.z
  }
}
