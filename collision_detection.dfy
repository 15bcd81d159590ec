/**
 * The collision test of lib/minecraft.js (class CollisionHelper): the player collides when it
 * reaches below the ground plane, when its horizontal cell is outside the grid, or when its box
 * overlaps the box of a cube in one of the cells around it.
 */
module CollisionDetection {
  import opened Wrappers
  import opened Vectors
  import opened Collision
  import opened VoxelGrid
  import opened Bodies

  /** `toGrid(val)`: the cell index of a coordinate, clamped into the grid. */
  function ToGrid(v: real, size: int): (r: int)
    requires size >= 1
    ensures 0 <= r <= size - 1
    ensures 0 <= (v / CubeSize).Floor <= size - 1 ==> r == (v / CubeSize).Floor
  {
    var ret := (v / CubeSize).Floor;
    if ret < 0 then 0
    else if ret > size - 1 then size - 1
    else ret
  }

  lemma ToGridMonotonic(a: real, b: real, size: int)
    requires size >= 1 && a <= b
    ensures ToGrid(a, size) <= ToGrid(b, size)
  {
    assert a / CubeSize <= b / CubeSize;
  }

  /** The box of a cube: its mesh position plus or minus half a cube on every axis. */
  function CubeBox(cube: Cube): (b: Box)
    ensures WellFormed(b) && InBox(cube.position, b)
    ensures b.vmax.x - b.vmin.x == CubeSize && b.vmax.y - b.vmin.y == CubeSize
    ensures b.vmax.z - b.vmin.z == CubeSize
    ensures b.vmin.x + b.vmax.x == 2.0 * cube.position.x && b.vmin.y + b.vmax.y == 2.0 * cube.position.y
    ensures b.vmin.z + b.vmax.z == 2.0 * cube.position.z
  {
    var p, h := cube.position, CubeSize / 2.0;
    Box(Vec3(p.x - h, p.y - h, p.z - h), Vec3(p.x + h, p.y + h, p.z + h))
  }

  /** `_collideWithCube(playerBox, cube)` */
  predicate CollideWithCube(playerBox: Box, cube: Cube)
    ensures InBox(cube.position, playerBox) ==> CollideWithCube(playerBox, cube)
    ensures WellFormed(playerBox) ==>
      (CollideWithCube(playerBox, cube) <==> exists p :: InBox(p, playerBox) && InBox(p, CubeBox(cube)))
  {
    var b := CubeBox(cube);
    if WellFormed(playerBox) then
      CubeCollisionIsIntersection(playerBox, b);
      TestCubeCollision(playerBox, b)
    else
      TestCubeCollision(playerBox, b)
  }

  /** `beyondBounds()`: the player's cell, ignoring its height, is outside the grid. */
  predicate BeyondBounds(pos: Vec3, size: int)
    ensures size >= 1 ==>
      (BeyondBounds(pos, size) <==>
        pos.x < 0.0 || pos.x >= size as real * CubeSize || pos.z < 0.0 || pos.z >= size as real * CubeSize)
  {
    var c := GridCoords(pos);
    !InsideGrid(size, c.x, 0, c.z)
  }

  /** The first corner of the cells `withRange` visits. */
  function SearchLow(pos: Vec3, size: int): (lo: Cell)
    requires size >= 1
    ensures 0 <= lo.x < size && 0 <= lo.y < size && 0 <= lo.z < size
  {
    var b := BoundingBox(pos);
    Cell(ToGrid(b.vmin.x, size), ToGrid(b.vmin.y, size), ToGrid(b.vmin.z, size))
  }

  /** The last corner: the player box's greatest vertex, one cube further on every axis. */
  function SearchHigh(pos: Vec3, size: int): (hi: Cell)
    requires size >= 1
    ensures 0 <= hi.x < size && 0 <= hi.y < size && 0 <= hi.z < size
    ensures SearchLow(pos, size).x <= hi.x && SearchLow(pos, size).y <= hi.y && SearchLow(pos, size).z <= hi.z
  {
    var b := BoundingBox(pos);
    ToGridMonotonic(b.vmin.x, b.vmax.x + CubeSize, size);
    ToGridMonotonic(b.vmin.y, b.vmax.y + CubeSize, size);
    ToGridMonotonic(b.vmin.z, b.vmax.z + CubeSize, size);
    Cell(ToGrid(b.vmax.x + CubeSize, size), ToGrid(b.vmax.y + CubeSize, size), ToGrid(b.vmax.z + CubeSize, size))
  }

  predicate InSearch(c: Cell, lo: Cell, hi: Cell)
  {
    lo.x <= c.x <= hi.x && lo.y <= c.y <= hi.y && lo.z <= c.z <= hi.z
  }

  // The order in which the three nested loops of `withRange` visit cells: z innermost, x outermost.

  function ZRun(x: int, y: int, z0: int, z1: int): seq<Cell>
    decreases z1 - z0
  {
    if z1 < z0 then [] else ZRun(x, y, z0, z1 - 1) + [Cell(x, y, z1)]
  }

  function YRun(x: int, y0: int, y1: int, z0: int, z1: int): seq<Cell>
    decreases y1 - y0
  {
    if y1 < y0 then [] else YRun(x, y0, y1 - 1, z0, z1) + ZRun(x, y1, z0, z1)
  }

  function XRun(x0: int, x1: int, y0: int, y1: int, z0: int, z1: int): seq<Cell>
    decreases x1 - x0
  {
    if x1 < x0 then [] else XRun(x0, x1 - 1, y0, y1, z0, z1) + YRun(x1, y0, y1, z0, z1)
  }

  /** Every cell of the box from `lo` to `hi`, in `withRange`'s order. */
  function BoxCells(lo: Cell, hi: Cell): seq<Cell>
  {
    XRun(lo.x, hi.x, lo.y, hi.y, lo.z, hi.z)
  }

  predicate Distinct(s: seq<Cell>)
  {
    forall i, j :: 0 <= i < j < |s| ==> s[i] != s[j]
  }

  lemma DistinctConcat(a: seq<Cell>, b: seq<Cell>)
    requires Distinct(a) && Distinct(b)
    requires forall c :: c in a ==> c !in b
    ensures Distinct(a + b)
  {
    forall i, j | 0 <= i < j < |a + b| ensures (a + b)[i] != (a + b)[j] {
      if j < |a| {
      } else if i >= |a| {
        assert (a + b)[i] == b[i - |a|] && (a + b)[j] == b[j - |a|];
      } else {
        assert (a + b)[i] in a && (a + b)[j] == b[j - |a|];
      }
    }
  }

  lemma {:induction false} ZRunCells(x: int, y: int, z0: int, z1: int)
    ensures forall c :: c in ZRun(x, y, z0, z1) <==> c.x == x && c.y == y && z0 <= c.z <= z1
    ensures Distinct(ZRun(x, y, z0, z1))
    decreases z1 - z0
  {
    if z1 >= z0 {
      ZRunCells(x, y, z0, z1 - 1);
      DistinctConcat(ZRun(x, y, z0, z1 - 1), [Cell(x, y, z1)]);
    }
  }

  lemma {:induction false} YRunCells(x: int, y0: int, y1: int, z0: int, z1: int)
    ensures forall c :: c in YRun(x, y0, y1, z0, z1) <==> c.x == x && y0 <= c.y <= y1 && z0 <= c.z <= z1
    ensures Distinct(YRun(x, y0, y1, z0, z1))
    decreases y1 - y0
  {
    if y1 >= y0 {
      YRunCells(x, y0, y1 - 1, z0, z1);
      ZRunCells(x, y1, z0, z1);
      DistinctConcat(YRun(x, y0, y1 - 1, z0, z1), ZRun(x, y1, z0, z1));
    }
  }

  lemma {:induction false} XRunCells(x0: int, x1: int, y0: int, y1: int, z0: int, z1: int)
    ensures forall c :: c in XRun(x0, x1, y0, y1, z0, z1) <==>
      x0 <= c.x <= x1 && y0 <= c.y <= y1 && z0 <= c.z <= z1
    ensures Distinct(XRun(x0, x1, y0, y1, z0, z1))
    decreases x1 - x0
  {
    if x1 >= x0 {
      XRunCells(x0, x1 - 1, y0, y1, z0, z1);
      YRunCells(x1, y0, y1, z0, z1);
      DistinctConcat(XRun(x0, x1 - 1, y0, y1, z0, z1), YRun(x1, y0, y1, z0, z1));
    }
  }

  /** `withRange` visits every cell of the box exactly once, and nothing else. */
  lemma BoxCellsExactlyOnce(lo: Cell, hi: Cell)
    ensures forall c :: c in BoxCells(lo, hi) <==> InSearch(c, lo, hi)
    ensures Distinct(BoxCells(lo, hi))
  {
    XRunCells(lo.x, hi.x, lo.y, hi.y, lo.z, hi.z);
  }

  /** The cubes `possibleCubes` collects: those of the non-empty cells among `cells`, in order. */
  function Occupants(m: Matrix<Option<Cube>>, cells: seq<Cell>): seq<Cube>
    requires forall c :: c in cells ==> Inside(m, c)
  {
    if cells == [] then []
    else
      var last := cells[|cells| - 1];
      Occupants(m, cells[..|cells| - 1]) + (if At(m, last).Some? then [At(m, last).value] else [])
  }

  lemma {:induction false} OccupantsMembers(m: Matrix<Option<Cube>>, cells: seq<Cell>, cube: Cube)
    requires forall c :: c in cells ==> Inside(m, c)
    ensures cube in Occupants(m, cells) <==> exists c :: c in cells && At(m, c) == Some(cube)
    decreases |cells|
  {
    if cells != [] {
      var init := cells[..|cells| - 1];
      assert forall c :: c in init ==> c in cells;
      OccupantsMembers(m, init, cube);
      if cube in Occupants(m, init) {
        var c :| c in init && At(m, c) == Some(cube);
        assert c in cells;
      }
      forall c | c in cells && At(m, c) == Some(cube)
        ensures cube in Occupants(m, cells)
      {
        if c != cells[|cells| - 1] {
          assert c in init;
        }
      }
    }
  }

  /** Cell `c` is one `withRange` visits, holds a cube, and that cube's box overlaps the player's. */
  predicate CandidateHit(pos: Vec3, m: Matrix<Option<Cube>>, size: nat, c: Cell)
    requires size >= 1 && WellShaped(m, size)
  {
    InSearch(c, SearchLow(pos, size), SearchHigh(pos, size)) &&
    At(m, c).Some? && CollideWithCube(BoundingBox(pos), At(m, c).value)
  }

  /** What `collides()` answers for a player at `pos` in a grid holding `m`. */
  ghost predicate CollidesAt(pos: Vec3, m: Matrix<Option<Cube>>, size: nat)
    requires size >= 1 && WellShaped(m, size)
  {
    CollidesWithGround(pos) || BeyondBounds(pos, size) || exists c :: CandidateHit(pos, m, size, c)
  }

  /** Every cell `withRange` visits is a cell of the grid. */
  ghost predicate SearchInside(pos: Vec3, m: Matrix<Option<Cube>>, size: nat)
    requires size >= 1
  {
    forall c :: c in BoxCells(SearchLow(pos, size), SearchHigh(pos, size)) ==>
      InsideGrid(size, c.x, c.y, c.z) && Inside(m, c)
  }

  lemma SearchCellsInside(pos: Vec3, m: Matrix<Option<Cube>>, size: nat)
    requires size >= 1 && WellShaped(m, size)
    ensures SearchInside(pos, m, size)
  {
    BoxCellsExactlyOnce(SearchLow(pos, size), SearchHigh(pos, size));
  }

  lemma OccupantsSnoc(m: Matrix<Option<Cube>>, cells: seq<Cell>, i: nat)
    requires i < |cells| && forall c :: c in cells ==> Inside(m, c)
    ensures forall c :: c in cells[..i] ==> Inside(m, c)
    ensures Occupants(m, cells[..i + 1]) ==
      Occupants(m, cells[..i]) + (if At(m, cells[i]).Some? then [At(m, cells[i]).value] else [])
  {
    assert cells[..i + 1][..i] == cells[..i];
  }

  /** A colliding cube among those `possibleCubes` returns is a hit in some visited cell. */
  lemma HitFromOccupant(pos: Vec3, m: Matrix<Option<Cube>>, size: nat, cube: Cube)
    requires size >= 1 && WellShaped(m, size) && SearchInside(pos, m, size)
    requires cube in Occupants(m, BoxCells(SearchLow(pos, size), SearchHigh(pos, size)))
    requires CollideWithCube(BoundingBox(pos), cube)
    ensures exists c :: CandidateHit(pos, m, size, c)
  {
    var lo, hi := SearchLow(pos, size), SearchHigh(pos, size);
    BoxCellsExactlyOnce(lo, hi);
    OccupantsMembers(m, BoxCells(lo, hi), cube);
    var c :| c in BoxCells(lo, hi) && At(m, c) == Some(cube);
    assert CandidateHit(pos, m, size, c);
  }

  /** When no cube `possibleCubes` returns collides, no visited cell is a hit. */
  lemma NoHitWithoutOccupant(pos: Vec3, m: Matrix<Option<Cube>>, size: nat, cubes: seq<Cube>)
    requires size >= 1 && WellShaped(m, size) && SearchInside(pos, m, size)
    requires cubes == Occupants(m, BoxCells(SearchLow(pos, size), SearchHigh(pos, size)))
    requires forall k :: 0 <= k < |cubes| ==> !CollideWithCube(BoundingBox(pos), cubes[k])
    ensures !exists c :: CandidateHit(pos, m, size, c)
  {
    var lo, hi := SearchLow(pos, size), SearchHigh(pos, size);
    BoxCellsExactlyOnce(lo, hi);
    forall c | CandidateHit(pos, m, size, c)
      ensures At(m, c).value in cubes
    {
      OccupantsMembers(m, BoxCells(lo, hi), At(m, c).value);
    }
  }

  /** The innermost loop of `withRange`: z from `z0` to `z1`, both included. */
  method VisitRow(x: int, y: int, z0: int, z1: int) returns (visited: seq<Cell>)
    ensures visited == ZRun(x, y, z0, z1)
  {
    visited := [];
    var z := z0;
    while z <= z1
      invariant z0 <= z && (z <= z1 + 1 || z == z0)
      invariant visited == ZRun(x, y, z0, z - 1)
      decreases z1 - z
    {
      visited := visited + [Cell(x, y, z)];
      z := z + 1;
    }
  }

  /** The middle loop of `withRange`: y from `y0` to `y1`, a row of z for each. */
  method VisitPlane(x: int, y0: int, y1: int, z0: int, z1: int) returns (visited: seq<Cell>)
    ensures visited == YRun(x, y0, y1, z0, z1)
  {
    visited := [];
    var y := y0;
    while y <= y1
      invariant y0 <= y && (y <= y1 + 1 || y == y0)
      invariant visited == YRun(x, y0, y - 1, z0, z1)
      decreases y1 - y
    {
      var row := VisitRow(x, y, z0, z1);
      visited := visited + row;
      y := y + 1;
    }
  }

  /** The three nested loops of `withRange`, x outermost: every cell from `lo` to `hi`. */
  method VisitBox(lo: Cell, hi: Cell) returns (visited: seq<Cell>)
    ensures visited == BoxCells(lo, hi)
  {
    visited := [];
    var x := lo.x;
    while x <= hi.x
      invariant lo.x <= x && (x <= hi.x + 1 || x == lo.x)
      invariant visited == XRun(lo.x, x - 1, lo.y, hi.y, lo.z, hi.z)
      decreases hi.x - x
    {
      var plane := VisitPlane(x, lo.y, hi.y, lo.z, hi.z);
      visited := visited + plane;
      x := x + 1;
    }
  }

  /** The loop of `collides()` over the candidate cubes, stopping at the first one the box touches. */
  method AnyCollides(box: Box, cubes: seq<Cube>) returns (hit: bool)
    ensures hit <==> exists k :: 0 <= k < |cubes| && CollideWithCube(box, cubes[k])
  {
    var l := 0;
    while l < |cubes|
      invariant 0 <= l <= |cubes|
      invariant forall k :: 0 <= k < l ==> !CollideWithCube(box, cubes[k])
    {
      if CollideWithCube(box, cubes[l]) {
        return true;
      }
      l := l + 1;
    }
    return false;
  }

  class CollisionHelper {
    const player: Player
    const grid: Grid

    constructor (player: Player, grid: Grid)
      ensures this.player == player && this.grid == grid
    {
      this.player := player;
      this.grid := grid;
    }

    ghost predicate Valid()
      reads this, grid
    {
      grid.Valid() && grid.size >= 1
    }

    /** `withRange(func)`: the cells it hands to `func`, in order. */
    method WithRange() returns (visited: seq<Cell>)
      requires grid.size >= 1
      ensures visited == BoxCells(SearchLow(player.pos, grid.size), SearchHigh(player.pos, grid.size))
    {
      var lo, hi := SearchLow(player.pos, grid.size), SearchHigh(player.pos, grid.size);
      visited := VisitBox(lo, hi);
    }

    /** `possibleCubes()`: the cubes of the visited cells that are not empty. */
    method PossibleCubes() returns (cubes: seq<Cube>)
      requires Valid()
      ensures SearchInside(player.pos, grid.matrix, grid.size)
      ensures cubes == Occupants(grid.matrix, BoxCells(SearchLow(player.pos, grid.size), SearchHigh(player.pos, grid.size)))
    {
      var cells := WithRange();
      ghost var m := grid.matrix;
      SearchCellsInside(player.pos, m, grid.size);
      cubes := [];
      var i := 0;
      while i < |cells|
        invariant 0 <= i <= |cells|
        invariant cubes == Occupants(m, cells[..i])
      {
        var cell := cells[i];
        var cube := grid.Get(cell.x, cell.y, cell.z);
        OccupantsSnoc(m, cells, i);
        if cube.Some? {
          cubes := cubes + [cube.value];
        }
        i := i + 1;
      }
      assert cells[..i] == cells;
    }

    /** `collides()` */
    method Collides() returns (b: bool)
      requires Valid()
      ensures b == CollidesAt(player.pos, grid.matrix, grid.size)
    {
      if CollidesWithGround(player.pos) {
        return true;
      }
      if BeyondBounds(player.pos, grid.size) {
        return true;
      }
      var cubes := PossibleCubes();
      ghost var pos, m, size := player.pos, grid.matrix, grid.size;
      var hit := AnyCollides(BoundingBox(player.pos), cubes);
      if hit {
        ghost var k :| 0 <= k < |cubes| && CollideWithCube(BoundingBox(pos), cubes[k]);
        HitFromOccupant(pos, m, size, cubes[k]);
        return true;
      }
      NoHitWithoutOccupant(pos, m, size, cubes);
      return false;
    }
  }
}
