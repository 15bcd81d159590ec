/**
 * `collides()` of lib/minecraft.js on concrete worlds: a grid of 5 cubes a side (the default
 * `new Grid()`), empty or holding a single block at cell (2, 0, 2).
 */
module CollisionScenarios {
  import opened Wrappers
  import opened Vectors
  import opened Collision
  import opened VoxelGrid
  import opened Bodies
  import opened CollisionDetection

  const Size: nat := 5
  const Block: Cell := Cell(2, 0, 2)

  /** The grid after `cubeAt(2, 0, 2, ...)` on a fresh default grid. */
  function OneBlock(kind: BlockType): (m: Matrix<Option<Cube>>)
    ensures WellShaped(m, Size)
    ensures forall c :: Inside(m, c) ==> (At(m, c).Some? <==> c == Block)
    ensures At(m, Block) == Some(Cube(MeshPosition(Block), kind))
  {
    Updated(EmptyMatrix(Size, None), Block, Some(Cube(MeshPosition(Block), kind)))
  }

  /** A centre less than half the player's height above the ground collides, whatever the grid. */
  lemma BelowGroundCollides(m: Matrix<Option<Cube>>, size: nat, pos: Vec3)
    requires size >= 1 && WellShaped(m, size)
    requires pos.y < HalfHeight
    ensures CollidesAt(pos, m, size)
  {
  }

  /** A centre in grid column 5 (250 <= x < 300), the first one past the grid's x range,
      collides at any height. */
  lemma PastTheWallCollides(m: Matrix<Option<Cube>>, pos: Vec3)
    requires WellShaped(m, Size)
    requires 5.0 * CubeSize <= pos.x < 6.0 * CubeSize
    ensures BeyondBounds(pos, Size) && CollidesAt(pos, m, Size)
  {
  }

  /** A player whose box reaches into the block from above collides with it through the search
      of nearby cells, not through the ground or the wall tests. */
  lemma OverlappingTheBlockCollides(kind: BlockType)
    ensures var pos := Vec3(100.0, 75.0, 100.0);
      !CollidesWithGround(pos) && !BeyondBounds(pos, Size) &&
      CandidateHit(pos, OneBlock(kind), Size, Block) && CollidesAt(pos, OneBlock(kind), Size)
  {
    var pos := Vec3(100.0, 75.0, 100.0);
    assert BoundingBox(pos) == Box(Vec3(92.5, 34.25, 92.5), Vec3(107.5, 115.75, 107.5));
    assert SearchLow(pos, Size) == Cell(1, 0, 1);
    assert SearchHigh(pos, Size) == Cell(3, 3, 3);
    assert CubeBox(At(OneBlock(kind), Block).value) == Box(Vec3(75.0, 0.0, 75.0), Vec3(125.0, 50.0, 125.0));
    assert CandidateHit(pos, OneBlock(kind), Size, Block);
  }

  /** A player centred on the block's own mesh position collides; so does one 200 units further
      along x: its centre is then below half its height (the ground test) and at x = 300, in
      grid column 6, beyond the x range of a 5-cube grid (the wall test). */
  lemma CentredOnTheBlockAndTwoHundredAway(kind: BlockType)
    ensures CollidesAt(MeshPosition(Block), OneBlock(kind), Size)
    ensures var away := MeshPosition(Block).(x := MeshPosition(Block).x + 200.0);
      away.x == 300.0 && GridCoords(away).x == 6 &&
      CollidesWithGround(away) && BeyondBounds(away, Size) && CollidesAt(away, OneBlock(kind), Size)
  {
  }

  /** Standing on the block: the two boxes touch, which the interval test counts as a collision,
      but the cells searched start at the layer of the player's feet, one above the block, so
      `collides()` is false and the player can rest there. */
  lemma StandingOnTheBlockIsClear(kind: BlockType)
    ensures var pos := Vec3(100.0, CubeSize + HalfHeight, 100.0);
      BoundingBox(pos).vmin.y == CubeBox(Cube(MeshPosition(Block), kind)).vmax.y &&
      CollideWithCube(BoundingBox(pos), Cube(MeshPosition(Block), kind)) &&
      !CollidesAt(pos, OneBlock(kind), Size)
  {
    var pos := Vec3(100.0, CubeSize + HalfHeight, 100.0);
    var m := OneBlock(kind);
    var lo, hi := SearchLow(pos, Size), SearchHigh(pos, Size);
    forall c | Inside(m, c) && InSearch(c, lo, hi)
      ensures At(m, c).None?
    {
    }
  }
}
