/**
 * The player of lib/minecraft.js (class Player): an unrotated box of fixed size around a centre
 * position. The box queries depend on the position only, so they are functions of it; the class
 * holds the position that movement updates in place.
 */
module Bodies {
  import opened Vectors
  import opened Collision
  import VoxelGrid

  const Width: real := VoxelGrid.CubeSize * 0.3
  const Depth: real := VoxelGrid.CubeSize * 0.3
  const Height: real := VoxelGrid.CubeSize * 1.63
  const HalfHeight: real := Height / 2.0
  const HalfWidth: real := Width / 2.0
  const HalfDepth: real := Depth / 2.0
  /** Height of the eyes above the centre. */
  const EyesDelta: real := HalfHeight * 0.9

  /** `vertex(vx, vy, vz)`: the centre moved by `vx` half-widths, `vy` half-heights and `vz`
      half-depths. */
  function Vertex(pos: Vec3, vx: real, vy: real, vz: real): (v: Vec3)
    ensures v.x - pos.x == vx * HalfWidth
    ensures v.y - pos.y == vy * HalfHeight
    ensures v.z - pos.z == vz * HalfDepth
  {
    Vec3(pos.x + vx * HalfWidth, pos.y + vy * HalfHeight, pos.z + vz * HalfDepth)
  }

  /** `boundingBox()`: the box from vertex (-1, -1, -1) to vertex (1, 1, 1). */
  function BoundingBox(pos: Vec3): (b: Box)
    ensures b.vmin == Vec3(pos.x - HalfWidth, pos.y - HalfHeight, pos.z - HalfDepth)
    ensures b.vmax == Vec3(pos.x + HalfWidth, pos.y + HalfHeight, pos.z + HalfDepth)
    ensures WellFormed(b) && InBox(pos, b)
    ensures b.vmax.x - b.vmin.x == Width && b.vmax.y - b.vmin.y == Height && b.vmax.z - b.vmin.z == Depth
  {
    Box(Vertex(pos, -1.0, -1.0, -1.0), Vertex(pos, 1.0, 1.0, 1.0))
  }

  /** `collidesWithGround()`: the box reaches below the ground plane y = 0. */
  predicate CollidesWithGround(pos: Vec3)
    ensures CollidesWithGround(pos) <==> BoundingBox(pos).vmin.y < 0.0
  {
    pos.y < HalfHeight
  }

  /** `eyesPosition()`: straight above the centre, inside the box. */
  function EyesPosition(pos: Vec3): (e: Vec3)
    ensures e.x == pos.x && e.z == pos.z && e.y - pos.y == EyesDelta
    ensures InBox(e, BoundingBox(pos))
  {
    pos.With(Y, pos.y + EyesDelta)
  }

  class Player {
    var pos: Vec3

    /** A new player stands at the origin. */
    constructor ()
      ensures pos == Vec3(0.0, 0.0, 0.0)
    {
      pos := Vec3(0.0, 0.0, 0.0);
    }

    /** `position(axis)` */
    function Position(axis: Axis): (r: real)
      reads this
      ensures axis == X ==> r == pos.x
      ensures axis == Y ==> r == pos.y
      ensures axis == Z ==> r == pos.z
    {
      pos.Get(axis)
    }

    /** `incPosition(axis, val)`: moves along one axis only. */
    method IncPosition(axis: Axis, val: real)
      modifies this
      ensures pos == old(pos).With(axis, old(pos).Get(axis) + val)
    {
      pos := pos.With(axis, pos.Get(axis) + val);
    }

    /** `setPosition(axis, val)`: overwrites one coordinate only. */
    method SetPosition(axis: Axis, val: real)
      modifies this
      ensures pos == old(pos).With(axis, val)
    {
      pos := pos.With(axis, val);
    }
  }
}
