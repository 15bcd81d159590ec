/**
 * The voxel store of lib/minecraft.js (class Grid) and the world-to-cell conversion.
 *
 * The grid is `size` x `size` x `size` cells. `matrix` holds the cube placed in each cell;
 * `blockNames` holds, for each cell, the block type name that is saved for it, or nothing.
 * A cube is an opaque record with the position of its mesh and its block type.
 */
module VoxelGrid {
  import opened Wrappers
  import opened Vectors

  /** `CubeSize`: the edge length of one cube, in world units. */
  const CubeSize: real := 50.0

  type BlockType = string

  datatype Cube = Cube(position: Vec3, kind: BlockType)

  datatype Cell = Cell(x: int, y: int, z: int)

  /** A JavaScript array of arrays of arrays, indexed `[x][y][z]`. */
  type Matrix<T> = seq<seq<seq<T>>>

  /** Every level of `m` has `size` entries. */
  ghost predicate WellShaped<T>(m: Matrix<T>, size: nat)
  {
    |m| == size &&
    forall i :: 0 <= i < size ==>
      |m[i]| == size && forall j :: 0 <= j < size ==> |m[i][j]| == size
  }

  /** `m[c.x][c.y][c.z]` exists. */
  predicate Inside<T>(m: Matrix<T>, c: Cell)
  {
    0 <= c.x < |m| && 0 <= c.y < |m[c.x]| && 0 <= c.z < |m[c.x][c.y]|
  }

  /** `insideGrid(x, y, z)` */
  predicate InsideGrid(size: int, x: int, y: int, z: int)
    ensures InsideGrid(size, x, y, z) ==> size >= 1
  {
    (0 <= x && x < size) && (0 <= y && y < size) && (0 <= z && z < size)
  }

  lemma InsideGridIsInside<T>(m: Matrix<T>, size: nat, c: Cell)
    requires WellShaped(m, size)
    ensures InsideGrid(size, c.x, c.y, c.z) <==> Inside(m, c)
  {
  }

  function At<T>(m: Matrix<T>, c: Cell): T
    requires Inside(m, c)
  {
    m[c.x][c.y][c.z]
  }

  /** `m[c.x][c.y][c.z] = v` on a copy. */
  function Updated<T>(m: Matrix<T>, c: Cell, v: T): (r: Matrix<T>)
    requires Inside(m, c)
    ensures WellShaped(m, |m|) ==> WellShaped(r, |m|)
    ensures forall d :: Inside(r, d) <==> Inside(m, d)
    ensures At(r, c) == v
    ensures forall d :: Inside(m, d) && d != c ==> At(r, d) == At(m, d)
  {
    m[c.x := m[c.x][c.y := m[c.x][c.y][c.z := v]]]
  }

  /** The matrix a fresh `new Grid(size)` holds: every cell empty. */
  function EmptyMatrix<T>(size: nat, empty: T): (m: Matrix<T>)
    ensures WellShaped(m, size)
    ensures forall c :: Inside(m, c) ==> At(m, c) == empty
  {
    seq(size, _ => seq(size, _ => seq(size, _ => empty)))
  }

  /** The name saved for a cell's content: the cube's block type, or null for an empty cell. */
  function SavedName(v: Option<Cube>): (r: Option<BlockType>)
    ensures r.None? <==> v.None?
    ensures v.Some? ==> r.value == v.value.kind
  {
    match v
    case None => None
    case Some(cube) => Some(cube.kind)
  }

  /** `gridCoords(x, y, z)`: the cell containing a world point, `floor(coordinate / CubeSize)`
      on each axis. */
  function GridCoords(p: Vec3): (c: Cell)
    ensures c.x as real * CubeSize <= p.x < (c.x + 1) as real * CubeSize
    ensures c.y as real * CubeSize <= p.y < (c.y + 1) as real * CubeSize
    ensures c.z as real * CubeSize <= p.z < (c.z + 1) as real * CubeSize
  {
    Cell((p.x / CubeSize).Floor, (p.y / CubeSize).Floor, (p.z / CubeSize).Floor)
  }

  /** Where `cubeAt(x, y, z)` puts the mesh of a cube: centred on the cell in x and z, and
      half a cube above the cell's floor in y. */
  function MeshPosition(c: Cell): (p: Vec3)
    ensures p.x == c.x as real * CubeSize && p.z == c.z as real * CubeSize
    ensures p.y == c.y as real * CubeSize + CubeSize / 2.0
  {
    Vec3(CubeSize * c.x as real, c.y as real * CubeSize + CubeSize / 2.0, CubeSize * c.z as real)
  }

  lemma FloorIsUnique(k: int, n: int, v: real)
    requires k as real * CubeSize <= v < (k + 1) as real * CubeSize
    requires n as real * CubeSize <= v < (n + 1) as real * CubeSize
    ensures k == n
  {
  }

  /** A cube's mesh position lies in the cube's own cell, which is what deleting a block by
      converting its position back to grid coordinates relies on. */
  lemma GridCoordsOfMeshPosition(c: Cell)
    ensures GridCoords(MeshPosition(c)) == c
  {
    var p, g := MeshPosition(c), GridCoords(MeshPosition(c));
    FloorIsUnique(g.x, c.x, p.x);
    FloorIsUnique(g.y, c.y, p.y);
    FloorIsUnique(g.z, c.z, p.z);
  }

  class Grid {
    const size: nat
    var matrix: Matrix<Option<Cube>>
    /** The source's `map` field: what a save writes for each cell. */
    var blockNames: Matrix<Option<BlockType>>

    /** Both arrays have the grid's shape and the names mirror the cubes. */
    ghost predicate Valid()
      reads this
    {
      WellShaped(matrix, size) && WellShaped(blockNames, size) &&
      forall c :: Inside(matrix, c) ==> Inside(blockNames, c) && At(blockNames, c) == SavedName(At(matrix, c))
    }

    /** `new Grid(size)`, with 5 cells a side when no size is given. */
    constructor (size: Option<nat>)
      ensures Valid()
      ensures this.size == (if size.Some? then size.value else 5)
      ensures forall c :: Inside(matrix, c) ==> At(matrix, c).None?
    {
      var n := if size.Some? then size.value else 5;
      this.size := n;
      matrix := EmptyMatrix(n, None);
      blockNames := EmptyMatrix(n, None);
    }

    /** `get(x, y, z)` */
    function Get(x: int, y: int, z: int): (v: Option<Cube>)
      reads this
      requires Valid() && InsideGrid(size, x, y, z)
      ensures v == At(matrix, Cell(x, y, z))
    {
      matrix[x][y][z]
    }

    /** `put(x, y, z, val)`: stores the cube (or clears the cell for no cube) and records the
        cell's saved name. */
    method Put(x: int, y: int, z: int, val: Option<Cube>)
      requires Valid() && InsideGrid(size, x, y, z)
      modifies this
      ensures Valid()
      ensures matrix == Updated(old(matrix), Cell(x, y, z), val)
      ensures blockNames == Updated(old(blockNames), Cell(x, y, z), SavedName(val))
    {
      var c := Cell(x, y, z);
      matrix := Updated(matrix, c, val);
      blockNames := Updated(blockNames, c, SavedName(val));
    }
  }

  /** After `put`, `get` of the same cell returns the stored value (null for an empty put) and
      every other cell reads as before. */
  lemma PutThenGet<T>(m: Matrix<T>, c: Cell, v: T, d: Cell)
    requires Inside(m, c) && Inside(m, d)
    ensures At(Updated(m, c, v), d) == if d == c then v else At(m, d)
  {
  }
}
