/**
 * The game object of lib/minecraft.js (class Game), restricted to its simulation state: the
 * move vector, the grounded flag, the selected block and the grid, player and collision helper
 * it owns. Rendering, input wiring, ray casting and persistence are not modelled: the held keys,
 * the camera heading, the number of sub-steps of a tick and the block a ray hits or the position
 * it proposes for a new block are parameters.
 */
module Minecraft {
  import opened Wrappers
  import opened Vectors
  import opened VoxelGrid
  import opened Bodies
  import opened CollisionDetection
  import opened Kinematics
  import opened BlockTypes

  /** How far the player reaches, in cubes. */
  const HandLength: real := 7.0
  const GridSize: nat := 100

  /** `withinHandDistance(pos)`: at most `CubeSize * handLength` from the player. */
  predicate WithinHandDistance(p: Vec3, playerPos: Vec3)
    ensures p == playerPos ==> WithinHandDistance(p, playerPos)
    ensures WithinHandDistance(p, playerPos) ==>
      var reach := CubeSize * HandLength;
      -reach <= p.x - playerPos.x <= reach && -reach <= p.y - playerPos.y <= reach &&
      -reach <= p.z - playerPos.z <= reach
  {
    var reach, d := CubeSize * HandLength, DistanceSquared(p, playerPos);
    SquareBound(p.x - playerPos.x, reach);
    SquareBound(p.y - playerPos.y, reach);
    SquareBound(p.z - playerPos.z, reach);
    d <= reach * reach
  }

  /** The reach does not depend on which of the two points is the player. */
  lemma HandDistanceSymmetric(p: Vec3, q: Vec3)
    ensures WithinHandDistance(p, q) == WithinHandDistance(q, p)
  {
  }

  /** Every cube in the grid sits at its own cell's mesh position. */
  ghost predicate CubesAtTheirCells(m: Matrix<Option<Cube>>)
  {
    forall c :: Inside(m, c) && At(m, c).Some? ==> At(m, c).value.position == MeshPosition(c)
  }

  /** The block type of the mesh `cubeAt` builds: the given spec, or the grass cube. */
  function MeshKind(meshSpec: Option<BlockType>): (r: BlockType)
    ensures meshSpec.Some? ==> r == meshSpec.value
    ensures meshSpec.None? ==> r == DefaultBlock && r !in Blocks
  {
    BlocksWellFormed();
    if meshSpec.Some? then meshSpec.value else DefaultBlock
  }

  class Game {
    const grid: Grid
    const player: Player
    const collisionHelper: CollisionHelper
    var move: Vec3
    var onGround: bool
    /** `currentCube`: the mesh spec of the selected block, undefined for an unknown name. */
    var currentCube: Option<BlockType>

    ghost predicate Valid()
      reads grid
    {
      collisionHelper.player == player && collisionHelper.grid == grid &&
      grid.Valid() && grid.size >= 1 && CubesAtTheirCells(grid.matrix)
    }

    /** The state of a fresh game before the world is populated. */
    constructor ()
      ensures Valid() && fresh(grid) && fresh(player)
      ensures grid.size == GridSize && forall c :: Inside(grid.matrix, c) ==> At(grid.matrix, c).None?
      ensures player.pos == Vec3(0.0, 0.0, 0.0) && move == Vec3(0.0, 0.0, 0.0) && onGround
      ensures currentCube == Some(InitialBlock)
    {
      var g := new Grid(Some(GridSize));
      var p := new Player();
      grid := g;
      player := p;
      collisionHelper := new CollisionHelper(p, g);
      currentCube := Some(InitialBlock);
      move := Vec3(0.0, 0.0, 0.0);
      onGround := true;
    }

    ghost function State(): Body
      reads this, player
    {
      Body(player.pos, move, onGround)
    }

    /** `selectCubeBlock(name)`: `cubeBlocks[name]`, which only the listed blocks have. */
    method SelectCubeBlock(name: string)
      modifies this`currentCube
      ensures currentCube == if name in Blocks then Some(name) else None
    {
      currentCube := if name in Blocks then Some(name) else None;
    }

    /** `garanteeXYNorm()` */
    method GaranteeXYNorm()
      modifies this`move
      ensures move == NormalizedXZ(old(move))
    {
      if move.x == 0.0 || move.z == 0.0 {
        return;
      }
      var ratio := DiagonalRatio;
      move := move.(x := move.x * ratio);
      move := move.(z := move.z * ratio);
    }

    /** `projectMoveOnCamera()` for the camera's normalised horizontal heading. */
    method ProjectMoveOnCamera(heading: Heading)
      modifies this`move
      ensures move == Projected(old(move), heading)
    {
      var frontX, frontY := heading.fx * move.z, heading.fz * move.z;
      var rightX, rightY := heading.fz * move.x, -heading.fx * move.x;
      move := move.(x := frontX + rightX, z := frontY + rightY);
    }

    /** The key loop of `defineMove()`: each held key of `bindings` adds its signed speed. */
    method AddKeyVelocities(bindings: seq<KeyBinding>, held: set<string>)
      requires forall j :: 0 <= j < |bindings| ==> bindings[j].axis != Y
      modifies this`move
      ensures move == old(move).(x := old(move).x + KeyVelocity(bindings, held, X),
                                 z := old(move).z + KeyVelocity(bindings, held, Z))
    {
      assert bindings[..0] == [];
      var i := 0;
      while i < |bindings|
        invariant 0 <= i <= |bindings|
        invariant move == old(move).(x := old(move).x + KeyVelocity(bindings[..i], held, X),
                                     z := old(move).z + KeyVelocity(bindings[..i], held, Z))
      {
        var binding := bindings[i];
        var vel := if binding.sign == Minus then -BaseVelocity else BaseVelocity;
        KeyVelocityPrefix(bindings, i, held, X);
        KeyVelocityPrefix(bindings, i, held, Z);
        KeyStepAdds(move, binding, held);
        if binding.key in held {
          move := move.With(binding.axis, move.Get(binding.axis) + vel);
        }
        i := i + 1;
      }
      assert bindings[..i] == bindings;
    }

    /** `defineMove()` for the keys held during this tick. */
    method DefineMove(held: set<string>, heading: Heading)
      modifies this`move, this`onGround
      ensures State() == DefineMoveSpec(old(State()), held, heading)
    {
      move := move.(x := 0.0, z := 0.0);
      PlayerKeysHorizontal();
      AddKeyVelocities(PlayerKeys, held);
      if ShouldJump(held, onGround) {
        onGround := false;
        move := move.(y := JumpSpeed);
      }
      GaranteeXYNorm();
      ProjectMoveOnCamera(heading);
    }

    /** `applyGravity()` */
    method ApplyGravity()
      modifies this`move
      ensures move == old(move).(y := Gravity(old(move).y))
    {
      if move.y < -1.0 {
        return;
      }
      move := move.(y := move.y - GravityStep);
    }

    /** One pass of `moveCube`'s axis loop body. */
    method StepAxis(axis: Axis)
      requires Valid()
      modifies this`onGround, player
      ensures Valid()
      ensures State() == AxisStep(old(State()), axis, grid.matrix, grid.size)
    {
      ghost var b, m, size := State(), grid.matrix, grid.size;
      if move.Get(axis) == 0.0 {
        return;
      }
      var originalpos := player.Position(axis);
      assert originalpos == b.pos.Get(axis);
      player.IncPosition(axis, move.Get(axis));
      ghost var moved := player.pos;
      assert moved == b.pos.With(axis, b.pos.Get(axis) + b.move.Get(axis));
      var collides := collisionHelper.Collides();
      assert AxisStep(b, axis, m, size) ==
        if collides then b.(onGround := if axis == Y && b.move.y < 0.0 then true else b.onGround)
        else b.(pos := moved, onGround := if axis == Y && b.move.y <= 0.0 then false else b.onGround);
      if collides {
        player.SetPosition(axis, originalpos);
        WithRestores(b.pos, axis, b.move.Get(axis));
        if axis == Y && move.y < 0.0 {
          onGround := true;
        }
        assert State() == b.(onGround := if axis == Y && b.move.y < 0.0 then true else b.onGround);
      } else {
        if axis == Y && move.y <= 0.0 {
          onGround := false;
        }
        assert State() == b.(pos := moved, onGround := if axis == Y && b.move.y <= 0.0 then false else b.onGround);
      }
    }

    /** One iteration of `moveCube`'s loop: `applyGravity()`, then the x, y and z passes. */
    method SubStepOnce()
      requires Valid()
      modifies this`move, this`onGround, player
      ensures Valid()
      ensures State() == SubStep(old(State()), grid.matrix, grid.size)
    {
      ApplyGravity();
      ghost var g := State();
      assert Axes[..0] == [];
      var l := 0;
      while l < |Axes|
        invariant 0 <= l <= |Axes|
        invariant Valid()
        invariant State() == AxesSteps(g, Axes[..l], grid.matrix, grid.size)
      {
        StepAxis(Axes[l]);
        assert Axes[..l + 1][..l] == Axes[..l];
        l := l + 1;
      }
      assert Axes[..l] == Axes;
    }

    /** `moveCube(speedRatio)`, given the number of sub-steps, `Math.round(10 * speedRatio)`. */
    method MoveCube(held: set<string>, heading: Heading, iterations: nat)
      requires Valid()
      modifies this`move, this`onGround, player
      ensures Valid()
      ensures State() == SubSteps(DefineMoveSpec(old(State()), held, heading), iterations, grid.matrix, grid.size)
      ensures !CollidesAt(old(player.pos), grid.matrix, grid.size) ==> !CollidesAt(player.pos, grid.matrix, grid.size)
    {
      ghost var m, size := grid.matrix, grid.size;
      DefineMove(held, heading);
      ghost var start := State();
      var iterationCount := iterations;
      while iterationCount > 0
        invariant Valid() && grid.matrix == m && grid.size == size
        invariant SubSteps(State(), iterationCount, m, size) == SubSteps(start, iterations, m, size)
      {
        ghost var before := State();
        SubStepOnce();
        assert SubSteps(before, iterationCount, m, size) == SubSteps(State(), iterationCount - 1, m, size);
        iterationCount := iterationCount - 1;
      }
      if !CollidesAt(old(player.pos), m, size) {
        SubStepsKeepClear(start, iterations, m, size);
      }
    }

    /** `cubeAt(x, y, z, meshSpec, validatingFunction)`; the one validating function the source
        passes (from `createCubeAt`) rejects a cube that would overlap the player. */
    method CubeAt(c: Cell, meshSpec: Option<BlockType>, rejectOverlap: bool)
      requires Valid() && InsideGrid(grid.size, c.x, c.y, c.z)
      modifies grid
      ensures Valid()
      ensures var cube := Cube(MeshPosition(c), MeshKind(meshSpec));
        grid.matrix == if rejectOverlap && CollideWithCube(BoundingBox(player.pos), cube) then old(grid.matrix)
                       else Updated(old(grid.matrix), c, Some(cube))
    {
      var mesh := Cube(MeshPosition(c), MeshKind(meshSpec));
      if rejectOverlap && CollideWithCube(BoundingBox(player.pos), mesh) {
        return;
      }
      grid.Put(c.x, c.y, c.z, Some(mesh));
    }

    /** `createCubeAt(x, y, z)`: the selected block, unless it would overlap the player. */
    method CreateCubeAt(c: Cell)
      requires Valid() && InsideGrid(grid.size, c.x, c.y, c.z)
      modifies grid
      ensures Valid()
      ensures var cube := Cube(MeshPosition(c), MeshKind(currentCube));
        grid.matrix == if CollideWithCube(BoundingBox(player.pos), cube) then old(grid.matrix)
                       else Updated(old(grid.matrix), c, Some(cube))
    {
      CubeAt(c, currentCube, true);
    }

    /** `placeBlockInGrid`, from the position the ray cast proposes for the new block, or none
        when it proposes nothing. */
    method PlaceBlockInGrid(proposed: Option<Vec3>)
      requires Valid()
      modifies grid
      ensures Valid()
      ensures proposed.None? ==> grid.matrix == old(grid.matrix)
      ensures proposed.Some? ==>
        var p := proposed.value;
        var c := GridCoords(p);
        var cube := Cube(MeshPosition(c), MeshKind(currentCube));
        if WithinHandDistance(p, player.pos) && InsideGrid(grid.size, c.x, c.y, c.z) &&
           At(old(grid.matrix), c).None? && !CollideWithCube(BoundingBox(player.pos), cube)
        then grid.matrix == Updated(old(grid.matrix), c, Some(cube))
        else grid.matrix == old(grid.matrix)
    {
      if proposed.None? {
        return;
      }
      var p := proposed.value;
      var c := GridCoords(p);
      if !WithinHandDistance(p, player.pos) {
        return;
      }
      if !InsideGrid(grid.size, c.x, c.y, c.z) {
        return;
      }
      if grid.Get(c.x, c.y, c.z).Some? {
        return;
      }
      CreateCubeAt(c);
    }

    /** `intoGrid(x, y, z, val)`: `put` at the cell of a world position. */
    method IntoGrid(p: Vec3, val: Option<Cube>)
      requires grid.Valid() && InsideGrid(grid.size, GridCoords(p).x, GridCoords(p).y, GridCoords(p).z)
      modifies grid
      ensures grid.Valid() && grid.matrix == Updated(old(grid.matrix), GridCoords(p), val)
    {
      var c := GridCoords(p);
      grid.Put(c.x, c.y, c.z, val);
    }

    /** `deleteBlockInGrid`, given the block the ray hits (a block of the grid), if any. */
    method DeleteBlockInGrid(target: Option<Cube>)
      requires Valid()
      requires target.Some? ==> exists c :: Inside(grid.matrix, c) && At(grid.matrix, c) == target
      modifies grid
      ensures Valid()
      ensures target.Some? && WithinHandDistance(target.value.position, player.pos) ==>
        var c := GridCoords(target.value.position);
        Inside(old(grid.matrix), c) && At(old(grid.matrix), c) == target &&
        grid.matrix == Updated(old(grid.matrix), c, None)
      ensures target.None? || !WithinHandDistance(target.value.position, player.pos) ==>
        grid.matrix == old(grid.matrix)
    {
      if target.None? {
        return;
      }
      if !WithinHandDistance(target.value.position, player.pos) {
        return;
      }
      ghost var c :| Inside(grid.matrix, c) && At(grid.matrix, c) == target;
      GridCoordsOfMeshPosition(c);
      IntoGrid(target.value.position, None);
    }
  }
}
