/**
 * Three-component real vectors, standing in for the rendering engine's Vector3 wherever the
 * simulation core only stores or adds coordinates. Positions and speeds are real numbers: the
 * model does not follow IEEE rounding.
 */
module Vectors {

  /** The three axes, in the order the source iterates them (`['x', 'y', 'z']`). */
  datatype Axis = X | Y | Z

  const Axes: seq<Axis> := [X, Y, Z]

  datatype Vec3 = Vec3(x: real, y: real, z: real)
  {
    /** `v[axis]` */
    function Get(axis: Axis): real
    {
      match axis
      case X => x
      case Y => y
      case Z => z
    }

    /** `v[axis] = value` on a copy: only that component changes. */
    function With(axis: Axis, value: real): (r: Vec3)
      ensures r.Get(axis) == value
      ensures forall other: Axis :: other != axis ==> r.Get(other) == Get(other)
    {
      match axis
      case X => this.(x := value)
      case Y => this.(y := value)
      case Z => this.(z := value)
    }
  }

  /** Putting a coordinate back after changing it restores the vector (`setPosition` with the
      saved `originalpos`). */
  lemma WithRestores(v: Vec3, axis: Axis, value: real)
    ensures v.With(axis, value).With(axis, v.Get(axis)) == v
  {
  }

  /** Squared Euclidean distance; the source compares `distanceTo` with a bound, which is the
      same as comparing squares since both sides are non-negative. */
  function DistanceSquared(a: Vec3, b: Vec3): (d: real)
    ensures d >= 0.0
    ensures (a.x - b.x) * (a.x - b.x) <= d && (a.y - b.y) * (a.y - b.y) <= d
    ensures (a.z - b.z) * (a.z - b.z) <= d
    ensures a == b ==> d == 0.0
  {
    var dx, dy, dz := a.x - b.x, a.y - b.y, a.z - b.z;
    assert dx * dx >= 0.0 && dy * dy >= 0.0 && dz * dz >= 0.0;
    dx * dx + dy * dy + dz * dz
  }

  /** A square no larger than `bound * bound` has its root within `bound` either way. */
  lemma SquareBound(d: real, bound: real)
    requires bound >= 0.0
    ensures d * d <= bound * bound ==> -bound <= d <= bound
  {
    var e := if d < 0.0 then -d else d;
    assert e * e == d * d;
    if e > bound {
      assert e - bound > 0.0 && e + bound > 0.0;
      assert (e - bound) * (e + bound) > 0.0;
      assert e * e - bound * bound == (e - bound) * (e + bound);
    }
  }
}
