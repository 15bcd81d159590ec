# webglcraft simulation core, modelled in Dafny

webglcraft is a browser sandbox of 50-unit voxel cubes. The player is an unrotated box that
walks, jumps and falls through a fixed-size grid, and places and removes blocks within arm's
reach. This project models the part of it that decides what happens, rather than how it is drawn:
- the voxel grid and the conversion from world positions to cells;
- the player's bounding box and the collision test against the ground, the grid's walls and the
  cubes nearby;
- the per-tick movement: keys to move vector, diagonal scaling, the turn to the camera heading,
  gravity, and per-axis sub-steps that undo a blocked axis;
- the guards on placing and deleting blocks;
- the three mouse-look controllers: `src/lib/camera.js` with drag and locked-pointer modes,
  the drag-only `lib/camera.js`, and the legacy `public/camera.js`;
- the block picker and its mouse-wheel cycling;
- the number helpers the code patches onto JavaScript (`mod`, `div`, `times`, `assoc`).

Files, one module each:
- wrappers.dfy: `Option`.
- vectors.dfy: axes and 3-vectors.
- collision.dfy: the interval and box tests of `src/lib/collision.js`.
- core_extensions.dfy: `lib/coreExtensions.js`.
- voxel_grid.dfy: `Grid`.
- bodies.dfy: `Player`.
- collision_detection.dfy: `CollisionHelper`.
- collision_scenarios.dfy: `collides()` on concrete worlds.
- kinematics.dfy: the movement rules as functions.
- block_types.dfy: the block list.
- minecraft.dfy: `Game`.
- block_selection.dfy: `BlockSelection`.
- look.dfy: what the controllers share.
- lock_camera.dfy, drag_camera.dfy, legacy_camera.dfy: the controllers.
- camera_agreement.dfy: the drag-only and legacy controllers compared.

How the model is built:
- **Objects.** An object whose fields the code updates in place is a `class` with those fields:
  `Grid`, `Player`, `CollisionHelper`, `Game`, `BlockSelection` and each `Controls`. Its methods
  are proved against pure functions of the old state. `Game.MoveCube`, for example, ends in the
  state `Kinematics.SubSteps` computes, and each controller handler ends in the state its transition
  function computes. The properties are then lemmas about those functions.
- **Loops.** The loops of `lib/minecraft.js` and `lib/coreExtensions.js` are `while` loops with
  their invariants. The early-exit axis loop of `testCubeCollision` in `src/lib/collision.js` is
  the recursive function `Collision.CollidesOnAxes`. Where loops nest, or
  where one loop sits inside a longer method, the inner loop is a method of its own, proved
  against the same specification function. The three loops of `withRange` are
  `CollisionDetection.VisitBox`, `VisitPlane` and `VisitRow`. The scan in `collides()` is
  `AnyCollides`. The key loop of `defineMove` is `Game.AddKeyVelocities`. One iteration of
  `moveCube` is `Game.SubStepOnce`.
- **Collisions.** `collides()` is specified by `CollisionDetection.CollidesAt`, which lists the
  three reasons for a collision.
- **Numbers.** Positions and speeds are real numbers. `Math.floor` is `.Floor`. JavaScript's `%`
  truncates towards zero and is written out as `CoreExtensions.JsRem`.
- **Null and undefined.** A `null` anchor or an `undefined` field is `None`. Arithmetic on
  `null` counts it as 0 (`Look.JsNumber`).
- **I/O as parameters.** Input becomes parameters: the held keys, the camera's horizontal heading,
  the number of sub-steps of a tick, the block a ray hits, the position a ray proposes for a new
  block, the window size and the fields of a mouse event.
- **Block types.** A cube is its mesh position plus its block type name. The grass cube's type
  is `grass_dirt`, the name its first texture gives.

A body moved 200 units along x from a single block at cell (2, 0, 2) still collides. Its centre is
then at x = 300, in grid column 6, beyond the x range of the default 5-cube grid, so the wall test
fires. At the block's own mesh height the centre is also below half the player's height, so the
ground test fires too (`CollisionScenarios.CentredOnTheBlockAndTwoHundredAway`).

Observed behaviours:
- Touching counts as a collision in the interval test. The cells searched still start at the layer
  of the player's feet, so a player standing exactly on a block is clear
  (`CollisionScenarios.StandingOnTheBlockIsClear`).
- In locked mode a delta equal to the previous one is skipped by `update`, even when it comes from
  a new movement of the same size.

## Model

| member | source | states |
|---|---|---|
| Vectors.Vec3.With | lib/minecraft.js:42-44 | setting one coordinate gives that axis the new value and leaves the other two axes unchanged |
| Vectors.WithRestores | lib/minecraft.js:748-751 | writing back the saved coordinate after a move along that axis restores the position exactly |
| Vectors.DistanceSquared | lib/minecraft.js:690-693 | the squared distance is non-negative, so comparing it with the squared reach is the same as comparing distances; it bounds the squared difference on each axis and is 0 from a point to itself |
| Collision.TestIntervalCollision | src/lib/collision.js:3-11 | for well-formed intervals, true exactly when [s1,f1] and [s2,f2] share a point; for any end points, equal starts collide and an earlier interval that ends before the later start does not |
| Collision.IntervalCollisionSymmetric | src/lib/collision.js:3-11 | swapping the two intervals does not change the answer |
| Collision.IntervalCollisionEarlierStart | src/lib/collision.js:7-8 | when s1 < s2 the answer is exactly f1 >= s2, so touching end points collide |
| Collision.CollidesOnAxes | src/lib/collision.js:16-27 | the early-exit loop over the axes is true exactly when every axis of the list overlaps |
| Collision.TestCubeCollision | src/lib/collision.js:15-28 | true exactly when the boxes overlap on x, on y and on z |
| Collision.CubeCollisionSymmetric | src/lib/collision.js:15-28 | the box test is symmetric |
| Collision.SeparatedOnAxis | src/lib/collision.js:15-28 | a gap on any one axis between well-formed boxes means no collision |
| Collision.CubeCollisionIsIntersection | src/lib/collision.js:13-28 | for well-formed boxes, a collision happens exactly when the closed boxes have a common point |
| CoreExtensions.JsRem | lib/coreExtensions.js:3-4 | JavaScript `%`: the remainder is smaller than the divisor in magnitude and takes the sign of the dividend |
| CoreExtensions.JsRemIsRemainder | lib/coreExtensions.js:3-4 | dividend = q * divisor + remainder for some integer q, so `%` is a remainder of truncating division |
| CoreExtensions.ModWrapsOnce | lib/coreExtensions.js:2-5 | on arguments from -arg to arg, `mod` adds arg to a negative number, maps arg to 0 and leaves the rest alone |
| CoreExtensions.Mod | lib/coreExtensions.js:2-5 | for a positive argument, every number from -arg up wraps into [0, arg), and a non-negative number gets its true remainder; below -arg the result keeps the dividend's sign, in (-arg, 0] |
| CoreExtensions.ModOfNonNegative | lib/coreExtensions.js:3 | for a non-negative number and a positive argument the result lies in [0, arg) and is the mathematical remainder |
| CoreExtensions.ModOfSmallNegative | lib/coreExtensions.js:4 | a number in [-arg, 0) wraps round to number + arg, inside [0, arg) |
| CoreExtensions.ModOfFarNegative | lib/coreExtensions.js:4 | below -arg the result can stay negative: (-7).mod(3) is -1 and (-4).mod(2) is 0 |
| CoreExtensions.Div | lib/coreExtensions.js:7-9 | the result is the integer k with k <= n/arg < k + 1 |
| CoreExtensions.DivOfIntegers | lib/coreExtensions.js:7-9 | on integers with a positive divisor, `div` is integer division |
| CoreExtensions.FloorUnique | lib/coreExtensions.js:8 | `Math.floor(v)` is the one integer k with k <= v < k + 1 |
| CoreExtensions.Times | lib/coreExtensions.js:11-16 | the result has one entry per integer i with 0 <= i < n, in that order, and entry i is fn(i) |
| CoreExtensions.Assoc | lib/coreExtensions.js:28-34 | the same object is returned; each copied key gets the given value, every other key keeps its old value, and the key set is the union |
| VoxelGrid.InsideGridIsInside | lib/minecraft.js:77-81 | `insideGrid(x, y, z)` holds exactly for the cells the grid's arrays have |
| VoxelGrid.InsideGrid | lib/minecraft.js:77-81 | no cell is inside a grid of size 0; its partner `InsideGridIsInside` above shows the test agrees with the grid's arrays |
| VoxelGrid.Updated | lib/minecraft.js:87-88 | writing a cell keeps the grid's shape, stores the value there and leaves every other cell unchanged |
| VoxelGrid.EmptyMatrix | lib/minecraft.js:71-74 | a new grid's arrays are size x size x size and every cell is empty |
| VoxelGrid.SavedName | lib/minecraft.js:89-93 | the saved name is null exactly for an empty cell, and the cube's block type otherwise |
| VoxelGrid.GridCoords | lib/minecraft.js:96-101 | the cell returned is the one whose 50-unit span contains the point on every axis |
| VoxelGrid.MeshPosition | lib/minecraft.js:469-470 | a cube's mesh sits at x = 50i, z = 50k and half a cube above the floor of its layer; what this buys is in its partner `GridCoordsOfMeshPosition` below |
| VoxelGrid.FloorIsUnique | lib/minecraft.js:96-101 | a coordinate lies in the span of exactly one cell |
| VoxelGrid.GridCoordsOfMeshPosition | lib/minecraft.js:469-470 | converting a cube's mesh position back to grid coordinates gives its own cell, which deletion relies on |
| VoxelGrid.Grid.constructor | lib/minecraft.js:69-75 | the size defaults to 5, and both arrays are well-shaped and empty |
| VoxelGrid.Grid.Get | lib/minecraft.js:83-85 | returns the cell's stored cube, read through `At`; its partner `PutThenGet` shows it returns what `put` stored and nothing else changes |
| VoxelGrid.Grid.Put | lib/minecraft.js:87-94 | stores the cube (or clears the cell for null), records its saved name, changes no other cell and keeps the names in step with the cubes |
| VoxelGrid.PutThenGet | lib/minecraft.js:83-94 | after `put`, `get` of that cell returns the stored value and every other cell reads as before |
| Bodies.Vertex | lib/minecraft.js:50-56 | the vertex is the centre plus the given numbers of half-width, half-height and half-depth; its partner `BoundingBox` shows the box between vertices (-1, -1, -1) and (1, 1, 1) is well formed and centred on the player |
| Bodies.BoundingBox | lib/minecraft.js:58-65 | the box is well formed, contains the centre, spans the player's width, height and depth, and is centred on the position |
| Bodies.CollidesWithGround | lib/minecraft.js:46-48 | true exactly when the box reaches below y = 0 |
| Bodies.EyesPosition | lib/minecraft.js:25-29 | the eyes are straight above the centre by `eyesDelta` and inside the box |
| Bodies.Player.constructor | lib/minecraft.js:14-23 | a new player stands at the origin |
| Bodies.Player.IncPosition | lib/minecraft.js:38-40 | adds to one coordinate and leaves the others alone |
| Bodies.Player.SetPosition | lib/minecraft.js:42-44 | overwrites one coordinate and leaves the others alone |
| Bodies.Player.Position | lib/minecraft.js:31-36 | reads the coordinate of the named axis, which `IncPosition` and `SetPosition` above change |
| CollisionDetection.ToGrid | lib/minecraft.js:196-205 | the result is a valid layer index, and equals floor(v / 50) when that is in range |
| CollisionDetection.ToGridMonotonic | lib/minecraft.js:196-205 | a larger coordinate never maps to a lower layer |
| CollisionDetection.CubeBox | lib/minecraft.js:151-157 | a cube's box is 50 units on every side and centred on its mesh position |
| CollisionDetection.CollideWithCube | lib/minecraft.js:151-159 | a player box collides with every cube whose centre it contains, and a well-formed one collides with a cube exactly when the two boxes share a point |
| CollisionDetection.BeyondBounds | lib/minecraft.js:130-137 | true exactly when the centre's x or z lies outside [0, 50 * size); its height does not matter |
| CollisionDetection.SearchLow | lib/minecraft.js:174-177 | the first searched cell is a cell of the grid |
| CollisionDetection.SearchHigh | lib/minecraft.js:178-180 | the last searched cell is a cell of the grid, and no axis of it comes before the first cell |
| CollisionDetection.ZRunCells | lib/minecraft.js:186-189 | the innermost loop visits exactly the cells z0..z1 of one column, each once |
| CollisionDetection.YRunCells | lib/minecraft.js:184-191 | the middle loop visits exactly the cells of one x-slice of the range, each once |
| CollisionDetection.XRunCells | lib/minecraft.js:182-193 | the outer loop visits exactly the cells of the whole range, each once |
| CollisionDetection.BoxCellsExactlyOnce | lib/minecraft.js:173-194 | `withRange` visits every cell between the two corners, and only those, exactly once |
| CollisionDetection.OccupantsMembers | lib/minecraft.js:161-171 | a cube is among the possible cubes exactly when some visited cell holds it |
| CollisionDetection.SearchCellsInside | lib/minecraft.js:173-180 | every visited cell is inside the grid, so `get` never reads past it |
| CollisionDetection.HitFromOccupant | lib/minecraft.js:119-126 | a possible cube that overlaps the player's box is a visited, occupied, overlapping cell |
| CollisionDetection.NoHitWithoutOccupant | lib/minecraft.js:119-127 | if no possible cube overlaps the player, no visited cell does |
| CollisionDetection.CollisionHelper.constructor | lib/minecraft.js:105-110 | the helper holds the given player and grid |
| CollisionDetection.VisitRow | lib/minecraft.js:185-189 | the innermost loop visits z from the low to the high bound, both included, and nothing when the range is empty |
| CollisionDetection.VisitPlane | lib/minecraft.js:183-191 | the middle loop visits, for each y in range, the row of z cells, in order |
| CollisionDetection.VisitBox | lib/minecraft.js:181-193 | the three loops visit every cell of the box exactly in the order x outermost, z innermost |
| CollisionDetection.CollisionHelper.WithRange | lib/minecraft.js:173-194 | the cells visited run from the player box's low corner to its high corner plus one cube, clamped into the grid |
| CollisionDetection.CollisionHelper.PossibleCubes | lib/minecraft.js:161-171 | returns the cubes of the visited cells, in visiting order, skipping empty cells |
| CollisionDetection.AnyCollides | lib/minecraft.js:121-126 | the scan answers true exactly when some candidate cube collides with the player's box |
| CollisionDetection.CollisionHelper.Collides | lib/minecraft.js:112-128 | true exactly when the player is below the ground, past a horizontal wall, or overlapping the cube of some searched cell |
| CollisionScenarios.OneBlock | lib/minecraft.js:459-478 | a default grid with one cube placed at (2, 0, 2) holds that cube there and nothing elsewhere |
| CollisionScenarios.BelowGroundCollides | lib/minecraft.js:113-115 | a centre lower than half the player's height always collides |
| CollisionScenarios.PastTheWallCollides | lib/minecraft.js:116-118 | on a 5-cube grid, a centre with 250 <= x < 300 collides at any height |
| CollisionScenarios.OverlappingTheBlockCollides | lib/minecraft.js:119-126 | a box reaching into the block from above collides through the cube search alone |
| CollisionScenarios.CentredOnTheBlockAndTwoHundredAway | lib/minecraft.js:112-128 | a player at the block's mesh position collides, and so does one 200 units further along x, through both the ground and the wall tests |
| CollisionScenarios.StandingOnTheBlockIsClear | lib/minecraft.js:173-180 | a box whose bottom touches the block's top counts as overlapping it, yet `collides()` is false because the search starts one layer up |
| Kinematics.PlayerKeysHorizontal | lib/minecraft.js:299-308 | no key binding drives the vertical axis |
| Kinematics.KeyStepAdds | lib/minecraft.js:775-780 | one pass of the key loop adds the key's signed speed to its own axis when it is held and changes nothing otherwise |
| Kinematics.PlayerKeysVelocity | lib/minecraft.js:766-781 | the key loop gives z = 0.4 (w + up - s - down) and x = 0.4 (a + left - d - right), counting each held key once and leaving y to the jump |
| Kinematics.NormalizedXZ | lib/minecraft.js:790-797 | the horizontal speed never grows; a diagonal move's squared horizontal speed is multiplied by cos² 45 degrees; a move along a single axis is unchanged; y is untouched |
| Kinematics.DiagonalSpeedMatchesAxial | lib/minecraft.js:794-796 | two keys on different axes give equal x and z parts, at the speed of one key up to the rounding of the cosine |
| Kinematics.Projected | lib/minecraft.js:799-807 | a unit heading only turns the horizontal move: its length is kept, y is kept, and a pure forward move goes along the heading |
| Kinematics.DefineMoveSpec | lib/minecraft.js:766-788 | the position stays; the horizontal move is rebuilt from the keys, then scaled, then turned; a jump sets y to 0.8 and clears `onGround` only when space is held on the ground |
| Kinematics.ShouldJump | lib/minecraft.js:762-764 | no jump off the ground or without the space key, and always a jump with space held on the ground |
| Kinematics.Gravity | lib/minecraft.js:809-814 | vertical speed never grows, drops by 0.005 at or above -1, is held below -1, and never falls under -1.005 unless it was there already |
| Kinematics.GravityBounded | lib/minecraft.js:809-814 | from a speed of at least -1.005 the speed never rises and never drops below -1.005; from at least -1 it loses exactly 0.005 a sub-step for as long as that keeps it at -1 or above, after which it is below -1, and once below -1 a further sub-step leaves it unchanged |
| Kinematics.GravityHeld | lib/minecraft.js:809-814 | a speed below -1 is left unchanged by any number of sub-steps |
| Kinematics.AxisStep | lib/minecraft.js:745-757 | one axis step keeps the move vector, skips an axis without motion, and either leaves the player in place or moves it along that axis to a position that does not collide |
| Kinematics.AxisStepGrounding | lib/minecraft.js:750-757 | a blocked downward y-step grounds the player without moving it; a free downward y-step moves it and lifts it off the ground; upward and horizontal steps keep `onGround` |
| Kinematics.SubStepsKeepClear | lib/minecraft.js:740-759 | a player that does not collide still does not collide after any number of sub-steps |
| Kinematics.AxesStepsKeepClear | lib/minecraft.js:743-758 | the axes loop of one sub-step never takes a clear player into a collision |
| Kinematics.SlidingAlongWall | lib/minecraft.js:743-758 | when x is blocked and z is free, x stays and the z-step still advances: the player slides along the wall |
| BlockTypes.BlocksWellFormed | src/lib/blockSelection.js:1-2 | ten distinct block names, with cobblestone first and no grass among them |
| Minecraft.Game.constructor | lib/minecraft.js:257-309 | the state before `populateWorld()`: a 100-cube empty grid, a player at the origin, no move, on the ground, with cobblestone selected |
| Minecraft.Game.SelectCubeBlock | lib/minecraft.js:672-674 | the listed block names select their block; any other name leaves no block selected |
| Minecraft.Game.GaranteeXYNorm | lib/minecraft.js:790-797 | the move becomes `NormalizedXZ` of the old move |
| Minecraft.Game.ProjectMoveOnCamera | lib/minecraft.js:799-807 | the move becomes the old move turned to the heading |
| Minecraft.Game.AddKeyVelocities | lib/minecraft.js:771-781 | the key loop adds to x and z the signed speed of every held key it lists, and leaves y alone |
| Minecraft.Game.DefineMove | lib/minecraft.js:766-788 | the key loop, the jump and the two corrections end in the state `DefineMoveSpec` gives |
| Minecraft.Game.ApplyGravity | lib/minecraft.js:809-814 | only the vertical speed changes, as `Gravity` gives |
| Minecraft.Game.StepAxis | lib/minecraft.js:745-757 | one pass of the axis loop body ends in `AxisStep` of the old state and keeps the grid consistent |
| Minecraft.Game.SubStepOnce | lib/minecraft.js:741-758 | one iteration of the loop, gravity then the x, y and z passes, ends in `SubStep` of the old state |
| Minecraft.Game.MoveCube | lib/minecraft.js:737-760 | the tick ends in the state of `defineMove` followed by the given number of sub-steps, and a player clear of collisions stays clear |
| Minecraft.Game.CubeAt | lib/minecraft.js:459-478 | puts a cube of the given (or grass) type at its mesh position in the cell, unless validation is asked for and the cube would overlap the player |
| Minecraft.MeshKind | lib/minecraft.js:459-460 | the given block type, or, without one, the grass cube, which is none of the ten selectable blocks |
| Minecraft.WithinHandDistance | lib/minecraft.js:690-693 | the player's own position is in reach, and a point in reach is at most 350 (7 cubes of 50) from the player along each axis |
| Minecraft.HandDistanceSymmetric | lib/minecraft.js:690-693 | the reach test gives the same answer with the two points swapped |
| Minecraft.Game.CreateCubeAt | lib/minecraft.js:684-688 | places the selected block in the cell unless it would overlap the player |
| Minecraft.Game.PlaceBlockInGrid | lib/minecraft.js:695-711 | nothing changes when no position is proposed; otherwise the grid gains the selected block at the proposed position's cell exactly when that position is within reach, inside the grid, free and not overlapping the player; otherwise nothing changes |
| Minecraft.Game.IntoGrid | lib/minecraft.js:365-369 | `put` at the cell containing the world position |
| Minecraft.Game.DeleteBlockInGrid | lib/minecraft.js:616-628 | a block within reach is removed from its own cell and nothing else changes; with no target, or one out of reach, the grid is unchanged |
| BlockPicker.IndexOf | src/lib/blockSelection.js:33 | -1 exactly when the name is absent; otherwise the position of its first occurrence |
| BlockPicker.WheelTarget | src/lib/blockSelection.js:31-35 | for any list of two or more blocks, always a listed block: the previous one for a non-negative delta and the next one for a negative delta, wrapping at both ends; from an unlisted selection, the second-to-last or the first |
| BlockPicker.WheelIndexInRange | src/lib/blockSelection.js:33 | the shifted index, wrapped with `mod`, is a valid index into the list |
| BlockPicker.IndexOfDistinct | src/lib/blockSelection.js:33 | in a list without repeats, every entry is found at its own position |
| BlockPicker.WheelRoundTrip | src/lib/blockSelection.js:31-35 | in any list without repeated names, one step up then one step down, or the reverse, returns to the starting block |
| BlockPicker.BlockSelection.constructor | src/lib/blockSelection.js:18-21 | a picker starts on cobblestone for the given game |
| BlockPicker.BlockSelection.Select | src/lib/blockSelection.js:45-53 | re-selecting the current block changes nothing and does not notify the game; a new name is passed to the game and becomes current |
| BlockPicker.BlockSelection.Mousewheel | src/lib/blockSelection.js:31-35 | the selection moves to `WheelTarget`, stays a listed block, and the game hears of it only when it changed |
| Look.IsLeftButtonDown | src/lib/camera.js:8-10 | a held left button is also a left button (`button === 0` only narrows `isLeftButton`); the handlers' contracts in `DragCamera` and `LockCamera` are where it matters |
| Look.IsLeftButton | src/lib/camera.js:2-7 | a left-button event (`which === 1`) is never a right-button event (`which === 3`) |
| Look.ClampLat | src/lib/camera.js:165 | the latitude ends in [-85, 85], is unchanged inside it and is cut to the nearer limit outside it |
| Look.ClampLatIdempotent | src/lib/camera.js:165 | clamping a clamped latitude changes nothing |
| LockCamera.MovementOf | src/lib/camera.js:108-111 | the standard movement field wins whenever present, and the result is a reported value or 0 |
| LockCamera.ZeroMovementIsLost | src/lib/camera.js:109-110 | with only the standard field present and equal to 0, the code's `||` chain yields undefined where 0 is meant |
| LockCamera.MovementAsWritten | src/lib/camera.js:109-110 | the `\|\|` chain as written: the result is one of the three fields, a non-zero standard field wins, a 0 survives only from the last (webkit) field, and nothing comes out only when that field is absent |
| LockCamera.MovementAgreement | src/lib/camera.js:109-110 | the code and `MovementOf` agree whenever the standard field reports a non-zero movement, and the code's undefined only replaces an intended 0 |
| LockCamera.MouseDown | src/lib/camera.js:65-78 | a non-left button changes nothing; the left button sets anchor and mouse to the page position, delta to (0, 0), and turns dragging on |
| LockCamera.MouseEnter | src/lib/camera.js:58-63 | entering ends a drag unless the left button is held, and changes nothing else |
| LockCamera.MouseMove | src/lib/camera.js:104-114 | while dragging, the mouse moves to the page position and the delta is measured from the anchor; otherwise a locked pointer takes as delta `MovementOf` the reported movement, the corrected reading of the `\|\|` chain (see Findings); otherwise nothing changes |
| LockCamera.Updated | src/lib/camera.js:138-167 | with neither dragging nor lock, with the drag mouse on its anchor, or with a locked delta already applied, nothing changes; otherwise lon gains deltaX * 0.2 and lat becomes clamp(lat - deltaY * 0.2), a locked update records the delta and re-anchors at the window centre, and a drag update re-anchors at the mouse; without the lock the recorded previous delta is kept |
| LockCamera.UpdateIdempotent | src/lib/camera.js:138-167 | a second update with no input between changes nothing, in both modes and whatever the window size |
| LockCamera.WithDirection | src/lib/camera.js:96-98 | `getDirection()` afterwards returns exactly the given lat and lon, unclamped, and nothing else changes |
| LockCamera.SetCurrentDirection | src/lib/camera.js:96-102 | setting the direction the controller already has is a no-op |
| LockCamera.RunKeepsLatInRange | src/lib/camera.js:163-165 | no sequence of mouse events, lock changes and updates takes lat out of [-85, 85] once it is inside |
| LockCamera.ReachableLatInRange | src/lib/camera.js:23 | a fresh controller starts inside the range and so never leaves it |
| LockCamera.Controls.constructor | src/lib/camera.js:16-32 | the initial fields: mouse and delta 0, lat -66.59, lon -31.8, no anchor, not dragging, not locked |
| LockCamera.Controls.EnableMouseLocked | src/lib/camera.js:34-36 | sets the lock flag only |
| LockCamera.Controls.DisableMouseLocked | src/lib/camera.js:38-40 | clears the lock flag only |
| LockCamera.Controls.OnMouserEnter | src/lib/camera.js:58-63 | the fields become `MouseEnter` of the old ones |
| LockCamera.Controls.OnMouseDown | src/lib/camera.js:65-78 | the fields become `MouseDown` of the old ones |
| LockCamera.Controls.OnMouseUp | src/lib/camera.js:80-83 | clears the drag flag only |
| LockCamera.Controls.SetMouse | src/lib/camera.js:85-89 | sets the mouse and the delta from the anchor, a null anchor counting as 0 |
| LockCamera.Controls.SetDelta | src/lib/camera.js:91-94 | sets the delta only |
| LockCamera.Controls.SetDirection | src/lib/camera.js:96-98 | sets lat and lon to the given direction, returns it, and `GetDirection` then reads it back |
| LockCamera.Controls.GetDirection | src/lib/camera.js:100-102 | the current lat and lon, and setting the direction it returns changes nothing |
| LockCamera.Controls.OnMouseMove | src/lib/camera.js:104-114 | the fields become `MouseMove` of the old ones |
| LockCamera.Controls.Update | src/lib/camera.js:138-167 | the fields become `Updated` of the old ones for the current window size |
| DragCamera.MouseDown | lib/camera.js:47-57 | a non-left button changes nothing; the left button puts anchor and mouse at the page position, sets delta 0 and starts the drag, leaving the mouse on its anchor |
| DragCamera.MouseEnter | lib/camera.js:40-45 | entering ends a drag unless the left button is held, and changes nothing else |
| DragCamera.MouseMove | lib/camera.js:88-92 | while dragging, the mouse moves to the page position and the delta becomes mouse minus anchor; otherwise nothing changes |
| DragCamera.Updated | lib/camera.js:121-141 | without a drag, or with the mouse on its anchor, nothing changes; otherwise the anchor moves to the mouse, lon gains deltaX * 0.2 and lat becomes clamp(lat - deltaY * 0.2), inside [-85, 85] |
| DragCamera.UpdateIdempotent | lib/camera.js:121-141 | a second update with no mouse move changes nothing |
| DragCamera.WithDirection | lib/camera.js:75-79 | `getDirection()` afterwards returns exactly the given lat and lon, unclamped, and nothing else changes |
| DragCamera.SetCurrentDirection | lib/camera.js:75-86 | setting the direction the controller already has is a no-op |
| DragCamera.RunKeepsLatInRange | lib/camera.js:137-139 | no sequence of mouse events and updates takes lat out of [-85, 85] once it is inside |
| DragCamera.StepKeepsTracking | lib/camera.js:47-92 | every input keeps the drag invariant: while dragging, the anchor is set and the delta is the mouse's offset from it, unless the mouse is on the anchor |
| DragCamera.RunKeepsTracking | lib/camera.js:47-141 | the drag invariant holds after any sequence of inputs |
| DragCamera.Reachable | lib/camera.js:15-31 | every state a fresh controller reaches has lat in range and satisfies the drag invariant |
| DragCamera.Controls.constructor | lib/camera.js:16-31 | the initial fields: mouse and delta 0, lat -66.59, lon -31.8, no anchor, not dragging |
| DragCamera.Controls.OnMouserEnter | lib/camera.js:40-45 | the fields become `MouseEnter` of the old ones |
| DragCamera.Controls.OnMouseDown | lib/camera.js:47-57 | the fields become `MouseDown` of the old ones |
| DragCamera.Controls.OnMouseUp | lib/camera.js:59-62 | clears the drag flag only |
| DragCamera.Controls.SetMouse | lib/camera.js:64-68 | sets the mouse and the delta from the anchor, a null anchor counting as 0 |
| DragCamera.Controls.SetDelta | lib/camera.js:70-73 | sets the delta only |
| DragCamera.Controls.SetDirection | lib/camera.js:75-79 | sets lat and lon to the given direction, and `GetDirection` then reads it back |
| DragCamera.Controls.GetDirection | lib/camera.js:81-86 | the current lat and lon, and setting the direction it returns changes nothing |
| DragCamera.Controls.OnMouseMove | lib/camera.js:88-92 | the fields become `MouseMove` of the old ones |
| DragCamera.Controls.Update | lib/camera.js:121-141 | the fields become `Updated` of the old ones |
| LegacyCamera.MouseDown | public/camera.js:40-49 | any button puts anchor and mouse at the page position and starts the drag, leaving the mouse on its anchor |
| LegacyCamera.MouseMove | public/camera.js:58-64 | ignored unless dragging; while dragging, only the mouse position changes |
| LegacyCamera.Updated | public/camera.js:66-83 | without a drag, or with the mouse on its anchor, nothing changes; otherwise lon gains (mouseX - anchorx) * 0.2, lat becomes clamp(lat - (mouseY - anchory) * 0.2) and the anchor moves to the mouse |
| LegacyCamera.UpdateIdempotent | public/camera.js:71-82 | two updates without a mouse move between them turn the view only once |
| LegacyCamera.RunKeepsLatInRange | public/camera.js:83 | no sequence of inputs takes lat out of [-85, 85] once it is inside |
| LegacyCamera.ReachableLatInRange | public/camera.js:13 | a fresh controller starts at lat 0 and so never leaves the range |
| LegacyCamera.Controls.constructor | public/camera.js:6-22 | the initial fields: mouse 0, lat 0, lon 220, no anchor, not dragging |
| LegacyCamera.Controls.OnMouseDown | public/camera.js:40-49 | the fields become `MouseDown` of the old ones |
| LegacyCamera.Controls.OnMouseUp | public/camera.js:50-53 | clears the drag flag only; `mouseleave` runs the same handler |
| LegacyCamera.Controls.SetMouse | public/camera.js:54-57 | sets the mouse position only |
| LegacyCamera.Controls.OnMouseMove | public/camera.js:58-64 | the fields become `MouseMove` of the old ones |
| LegacyCamera.Controls.Update | public/camera.js:66-94 | the fields become `Updated` of the old ones |
| CameraAgreement.UpdatesAgree | lib/camera.js:121-141 | under the drag invariant, the drag-only update and the legacy update give the same mouse, anchor, lat, lon and drag flag |
| CameraAgreement.StepsAgree | lib/camera.js:47-92 | a left press, a release, a move or an update has the same effect on both controllers under the drag invariant |
| CameraAgreement.RunsAgree | lib/camera.js:121-141 | over any sequence of those shared inputs, the two controllers stay in step |

## Left out

- Rendering: scene, meshes, textures, lights, floor, renderer and camera objects. A cube is its mesh position plus its block type.
- The DOM and jQuery wiring: bindings, crosshair, focus, pointer-lock toggles, `BlockSelection.mousedown`/`insert`, icon highlighting (`ligthUp`/`lightOff`). The handlers take an event's fields as parameters instead.
- Ray casting and unprojection (`placeBlock`, `deleteBlock`, `findBlock` and the helpers that propose a new position). `PlaceBlockInGrid` starts from the proposed position, or none when the ray cast proposes nothing, and `DeleteBlockInGrid` from the block that was hit.
- Trigonometry: `updateLook`, `viewDirection`, `move`, `setCameraEyes`, `toRadians`/`toDegrees`, the legacy `phi`/`theta`. `Math.cos(Math.PI / 4)` is its double value.
- Kinematics.Projected: the heading is assumed already normalised. The `normalize()` of `projectMoveOnCamera` is not modelled.
- Vectors.DistanceSquared: the square root of `distanceTo` is avoided by comparing squares.
- IEEE double rounding and NaN: every number is a real.
- The frame clock, and the rounding of `10 * speedRatio`: `MoveCube` takes the number of sub-steps.
- The texture-path regular expression of `put`: the saved name is the cube's block type.
- World generation, saving and loading, instructions and the method tracer (`lib/methodTracer.js`).
- Bodies.Player.Position: the `axis == null` form of `position()`, which returns the whole position vector, is not modelled; where the source calls it (`withinHandDistance`) the model reads `pos` directly.
- Minecraft.Game.CubeAt: the `raise` on a mesh spec without geometry or material is not modelled. Every block type has both.
- CoreExtensions.Mod: modelled on integers only, the way the block picker uses it.
- CoreExtensions.Times: states the result in terms of `fn`, which is a pure function here. The order of calls to an impure `fn` is not modelled.
- VoxelGrid.Grid.constructor: the innermost arrays of a new JavaScript grid are empty and read `undefined`. Here they hold `size` empty cells, which reads the same.
- LockCamera.Updated and DragCamera.Updated: the repeated anchor test inside the drag branch can never return, so it is written once.
- LockCamera.MouseMove and LockCamera.Controls.OnMouseMove: the locked branch uses the corrected `MovementOf`, not the code's `||` chain, so a lone `movementX = 0` gives delta 0 where the code gives `undefined` (see Findings).
- Minecraft.Game.constructor: the model stops before `populateWorld()`, which fills the grid with cubes and moves the player to (2500, playerHeight, 2500). World generation is not modelled.

## Findings

| source | as written | input that shows it | evidently intended | confidence | as-written member | corrected member |
|---|---|---|---|---|---|---|
| src/lib/camera.js:109-110 | `e.movementX \|\| e.mozMovementX \|\| e.webkitMovementX` (the same for y) | a locked-pointer move with `movementX = 0` in a browser without the prefixed fields: the chain yields `undefined`, `update` adds `undefined * 0.2` to `lon`, and the view angles become NaN | take the first movement field the browser reports, even 0, and 0 when none is reported | medium, not executed | LockCamera.ZeroMovementIsLost | LockCamera.MovementOf |
