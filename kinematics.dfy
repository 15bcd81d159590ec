/**
 * The movement rules of lib/minecraft.js (Game.defineMove, garanteeXYNorm, projectMoveOnCamera,
 * applyGravity, moveCube) as functions of the player's state: its position, the per-tick move
 * vector and the grounded flag. Class Minecraft.Game runs them in place and is proved to agree.
 */
module Kinematics {
  import opened Wrappers
  import opened Vectors
  import opened VoxelGrid
  import opened CollisionDetection

  const BaseVelocity: real := 0.4
  const JumpSpeed: real := 0.8
  const GravityStep: real := 0.005
  /** `Math.cos(Math.PI / 4)` as a JavaScript engine evaluates it. */
  const DiagonalRatio: real := 0.7071067811865476
  /** Sub-steps per tick at the ideal frame rate. */
  const IterationCount: nat := 10

  datatype Sign = Plus | Minus

  /** One entry of `playerKeys`: a key and the signed axis it drives ('z+', 'x-', ...). */
  datatype KeyBinding = KeyBinding(key: string, axis: Axis, sign: Sign)

  /** `playerKeys`, in the order `for (key in ...)` enumerates them. */
  const PlayerKeys: seq<KeyBinding> := [
    KeyBinding("w", Z, Plus), KeyBinding("up", Z, Plus),
    KeyBinding("s", Z, Minus), KeyBinding("down", Z, Minus),
    KeyBinding("a", X, Plus), KeyBinding("left", X, Plus),
    KeyBinding("d", X, Minus), KeyBinding("right", X, Minus)
  ]

  /** No key drives the vertical axis. */
  lemma PlayerKeysHorizontal()
    ensures forall j :: 0 <= j < |PlayerKeys| ==> PlayerKeys[j].axis != Y
  {
  }

  function BindingVelocity(b: KeyBinding): real
  {
    if b.sign == Minus then -BaseVelocity else BaseVelocity
  }

  /** What the key loop of `defineMove` adds to `move[axis]`, starting from 0, for the held keys. */
  function KeyVelocity(bindings: seq<KeyBinding>, held: set<string>, axis: Axis): real
  {
    if bindings == [] then 0.0
    else
      var last := bindings[|bindings| - 1];
      KeyVelocity(bindings[..|bindings| - 1], held, axis)
        + Contribution(last, held, axis)
  }

  function Held(held: set<string>, key: string): real
  {
    if key in held then 1.0 else 0.0
  }

  /** Forward keys (w, up) push z up and back keys (s, down) push it down; a and left push x up,
      d and right push it down; nothing drives y. Two keys for the same direction add up. */
  lemma PlayerKeysVelocity(held: set<string>)
    ensures KeyVelocity(PlayerKeys, held, Z) ==
      BaseVelocity * (Held(held, "w") + Held(held, "up") - Held(held, "s") - Held(held, "down"))
    ensures KeyVelocity(PlayerKeys, held, X) ==
      BaseVelocity * (Held(held, "a") + Held(held, "left") - Held(held, "d") - Held(held, "right"))
    ensures KeyVelocity(PlayerKeys, held, Y) == 0.0
  {
    PlayerKeysOnAxis(held, Z);
    PlayerKeysOnAxis(held, X);
    PlayerKeysOnAxis(held, Y);
  }

  lemma PlayerKeysOnAxis(held: set<string>, axis: Axis)
    ensures var k := PlayerKeys;
      KeyVelocity(k, held, axis) ==
        Contribution(k[0], held, axis) + Contribution(k[1], held, axis) + Contribution(k[2], held, axis)
        + Contribution(k[3], held, axis) + Contribution(k[4], held, axis) + Contribution(k[5], held, axis)
        + Contribution(k[6], held, axis) + Contribution(k[7], held, axis)
  {
    var k := PlayerKeys;
    assert k[..0] == [] && k[..8] == k;
    KeyVelocityPrefix(k, 0, held, axis);
    KeyVelocityPrefix(k, 1, held, axis);
    KeyVelocityPrefix(k, 2, held, axis);
    KeyVelocityPrefix(k, 3, held, axis);
    KeyVelocityPrefix(k, 4, held, axis);
    KeyVelocityPrefix(k, 5, held, axis);
    KeyVelocityPrefix(k, 6, held, axis);
    KeyVelocityPrefix(k, 7, held, axis);
  }

  function Contribution(b: KeyBinding, held: set<string>, axis: Axis): real
  {
    if b.key in held && b.axis == axis then BindingVelocity(b) else 0.0
  }

  lemma KeyVelocityPrefix(bindings: seq<KeyBinding>, i: nat, held: set<string>, axis: Axis)
    requires i < |bindings|
    ensures KeyVelocity(bindings[..i + 1], held, axis) ==
      KeyVelocity(bindings[..i], held, axis) + Contribution(bindings[i], held, axis)
  {
    assert bindings[..i + 1][..i] == bindings[..i];
  }

  /** One pass of the key loop: a held key adds its signed speed to its own axis, x or z. */
  lemma KeyStepAdds(v: Vec3, b: KeyBinding, held: set<string>)
    requires b.axis != Y
    ensures (if b.key in held then v.With(b.axis, v.Get(b.axis) + BindingVelocity(b)) else v)
      == v.(x := v.x + Contribution(b, held, X), z := v.z + Contribution(b, held, Z))
  {
  }

  /** `garanteeXYNorm()`: a diagonal move (both x and z non-zero) is scaled by cos 45 degrees on
      both axes, so that it is no faster than a move along one axis. */
  function NormalizedXZ(v: Vec3): (r: Vec3)
    ensures r.y == v.y
    ensures r.x * r.x + r.z * r.z <= v.x * v.x + v.z * v.z
    ensures v.x != 0.0 && v.z != 0.0 ==>
      r.x * r.x + r.z * r.z == (v.x * v.x + v.z * v.z) * (DiagonalRatio * DiagonalRatio)
    ensures v.x == 0.0 || v.z == 0.0 ==> r == v
  {
    if v.x == 0.0 || v.z == 0.0 then v
    else
      var r := v.(x := v.x * DiagonalRatio, z := v.z * DiagonalRatio);
      assert r.x * r.x + r.z * r.z == (v.x * v.x + v.z * v.z) * (DiagonalRatio * DiagonalRatio);
      assert 0.0 < DiagonalRatio * DiagonalRatio < 1.0;
      r
  }

  /** One forward and one sideways key give the speed of one key on its own, up to the rounding
      of the cosine. */
  lemma DiagonalSpeedMatchesAxial(v: Vec3)
    requires (v.x == BaseVelocity || v.x == -BaseVelocity) && (v.z == BaseVelocity || v.z == -BaseVelocity)
    ensures var r := NormalizedXZ(v);
      r.x * r.x == r.z * r.z &&
      -0.000000000000001 < r.x * r.x + r.z * r.z - BaseVelocity * BaseVelocity < 0.000000000000001
  {
    var r := NormalizedXZ(v);
    assert r.x * r.x == BaseVelocity * BaseVelocity * (DiagonalRatio * DiagonalRatio);
    assert r.z * r.z == BaseVelocity * BaseVelocity * (DiagonalRatio * DiagonalRatio);
  }

  /** The camera's horizontal view direction, normalised (the normalisation is not modelled). */
  datatype Heading = Heading(fx: real, fz: real)

  /** `projectMoveOnCamera()`: `move.z` goes along the view direction and `move.x` along its
      right-hand perpendicular `(fz, -fx)`. */
  function Projected(v: Vec3, h: Heading): (r: Vec3)
    ensures r.y == v.y
    ensures h.fx * h.fx + h.fz * h.fz == 1.0 ==> r.x * r.x + r.z * r.z == v.x * v.x + v.z * v.z
    ensures v.x == 0.0 ==> r.x == v.z * h.fx && r.z == v.z * h.fz
  {
    var front := (h.fx * v.z, h.fz * v.z);
    var right := (h.fz * v.x, -h.fx * v.x);
    assert (h.fx * v.z + h.fz * v.x) * (h.fx * v.z + h.fz * v.x) + (h.fz * v.z - h.fx * v.x) * (h.fz * v.z - h.fx * v.x)
        == (h.fx * h.fx + h.fz * h.fz) * (v.x * v.x + v.z * v.z);
    Vec3(front.0 + right.0, v.y, front.1 + right.1)
  }

  /** The state movement reads and writes: the player's centre, the move vector, `onGround`. */
  datatype Body = Body(pos: Vec3, move: Vec3, onGround: bool)

  /** `shouldJump()` */
  predicate ShouldJump(held: set<string>, onGround: bool)
    ensures !onGround ==> !ShouldJump(held, onGround)
    ensures "space" in held && onGround ==> ShouldJump(held, onGround)
    ensures ShouldJump(held, onGround) ==> "space" in held
  {
    "space" in held && onGround
  }

  /** `defineMove()`: the horizontal move rebuilt from the held keys, a jump when space is held
      on the ground, then the diagonal scaling and the turn to the camera's heading. */
  function DefineMoveSpec(b: Body, held: set<string>, h: Heading): (r: Body)
    ensures r.pos == b.pos
    ensures ShouldJump(held, b.onGround) ==> r.move.y == JumpSpeed && !r.onGround
    ensures !ShouldJump(held, b.onGround) ==> r.move.y == b.move.y && r.onGround == b.onGround
    ensures r.move == Projected(NormalizedXZ(Vec3(KeyVelocity(PlayerKeys, held, X), r.move.y,
                                                  KeyVelocity(PlayerKeys, held, Z))), h)
  {
    var keyed := b.move.(x := KeyVelocity(PlayerKeys, held, X), z := KeyVelocity(PlayerKeys, held, Z));
    var jumped := if ShouldJump(held, b.onGround) then Body(b.pos, keyed.(y := JumpSpeed), false)
                  else b.(move := keyed);
    jumped.(move := Projected(NormalizedXZ(jumped.move), h))
  }

  /** `applyGravity()` on `move.y`: it never grows, and it never falls below -1 - 0.005 unless it
      was already there (a soft terminal velocity). */
  function Gravity(vy: real): (r: real)
    ensures r <= vy
    ensures r >= (if vy < -1.0 - GravityStep then vy else -1.0 - GravityStep)
    ensures vy >= -1.0 ==> r == vy - GravityStep
    ensures vy < -1.0 ==> r == vy
  {
    if vy < -1.0 then vy else vy - GravityStep
  }

  function GravityIterated(vy: real, n: nat): real
    decreases n
  {
    if n == 0 then vy else GravityIterated(Gravity(vy), n - 1)
  }

  /** From rest, vertical speed drops by 0.005 a sub-step until it passes -1; it then stays
      where it is, between -1.005 and -1, with no further drift. */
  lemma {:induction false} GravityBounded(vy: real, n: nat)
    requires vy >= -1.0 - GravityStep
    ensures -1.0 - GravityStep <= GravityIterated(vy, n) <= vy
    ensures vy >= -1.0 && n as real * GravityStep <= vy + 1.0 ==> GravityIterated(vy, n) == vy - n as real * GravityStep
    ensures vy >= -1.0 && n as real * GravityStep > vy + 1.0 ==> GravityIterated(vy, n) < -1.0
    ensures GravityIterated(vy, n) < -1.0 ==> GravityIterated(vy, n + 1) == GravityIterated(vy, n)
    decreases n
  {
    if n > 0 {
      GravityBounded(Gravity(vy), n - 1);
      if vy >= -1.0 && Gravity(vy) < -1.0 {
        GravityHeld(Gravity(vy), n - 1);
      }
    }
    GravitySucc(vy, n);
  }

  /** Below -1 gravity no longer changes the vertical speed. */
  lemma {:induction false} GravityHeld(vy: real, n: nat)
    requires vy < -1.0
    ensures GravityIterated(vy, n) == vy
    decreases n
  {
    if n > 0 {
      GravityHeld(Gravity(vy), n - 1);
    }
  }

  /** One more sub-step applies gravity once more to the result. */
  lemma {:induction false} GravitySucc(vy: real, n: nat)
    ensures GravityIterated(vy, n + 1) == Gravity(GravityIterated(vy, n))
    decreases n
  {
    if n > 0 {
      GravitySucc(Gravity(vy), n - 1);
    }
  }

  /** One axis of a `moveCube` sub-step: an axis with no move is skipped; otherwise the player
      moves along it, and if that collides the saved coordinate is put back. A blocked downward
      y-step grounds the player; a successful y-step that is not upward lifts it off the ground. */
  ghost function AxisStep(b: Body, axis: Axis, m: Matrix<Option<Cube>>, size: nat): (r: Body)
    requires size >= 1 && WellShaped(m, size)
    ensures r.move == b.move
    ensures b.move.Get(axis) == 0.0 ==> r == b
    ensures r.pos == b.pos || (r.pos == b.pos.With(axis, b.pos.Get(axis) + b.move.Get(axis)) && !CollidesAt(r.pos, m, size))
  {
    if b.move.Get(axis) == 0.0 then b
    else
      var moved := b.pos.With(axis, b.pos.Get(axis) + b.move.Get(axis));
      if CollidesAt(moved, m, size) then
        b.(onGround := if axis == Y && b.move.y < 0.0 then true else b.onGround)
      else
        b.(pos := moved, onGround := if axis == Y && b.move.y <= 0.0 then false else b.onGround)
  }

  /** The axis steps for `axes`, in order. */
  ghost function AxesSteps(b: Body, axes: seq<Axis>, m: Matrix<Option<Cube>>, size: nat): Body
    requires size >= 1 && WellShaped(m, size)
  {
    if axes == [] then b
    else AxisStep(AxesSteps(b, axes[..|axes| - 1], m, size), axes[|axes| - 1], m, size)
  }

  /** One iteration of `moveCube`'s loop: gravity, then the x, y and z steps. */
  ghost function SubStep(b: Body, m: Matrix<Option<Cube>>, size: nat): Body
    requires size >= 1 && WellShaped(m, size)
  {
    AxesSteps(b.(move := b.move.(y := Gravity(b.move.y))), Axes, m, size)
  }

  ghost function SubSteps(b: Body, n: nat, m: Matrix<Option<Cube>>, size: nat): Body
    requires size >= 1 && WellShaped(m, size)
    decreases n
  {
    if n == 0 then b else SubSteps(SubStep(b, m, size), n - 1, m, size)
  }

  /** The onGround rules of one axis step, stated on their own. */
  lemma AxisStepGrounding(b: Body, axis: Axis, m: Matrix<Option<Cube>>, size: nat)
    requires size >= 1 && WellShaped(m, size)
    ensures var moved := b.pos.With(axis, b.pos.Get(axis) + b.move.Get(axis));
            var r := AxisStep(b, axis, m, size);
      (axis == Y && b.move.y < 0.0 && CollidesAt(moved, m, size) ==> r.onGround && r.pos == b.pos) &&
      (axis == Y && b.move.y < 0.0 && !CollidesAt(moved, m, size) ==> !r.onGround && r.pos == moved) &&
      (axis == Y && b.move.y > 0.0 ==> r.onGround == b.onGround) &&
      (axis != Y ==> r.onGround == b.onGround)
  {
  }

  /** A player that is clear of everything stays clear across any number of sub-steps. */
  lemma {:induction false} SubStepsKeepClear(b: Body, n: nat, m: Matrix<Option<Cube>>, size: nat)
    requires size >= 1 && WellShaped(m, size)
    requires !CollidesAt(b.pos, m, size)
    ensures !CollidesAt(SubSteps(b, n, m, size).pos, m, size)
    decreases n
  {
    if n > 0 {
      var g := b.(move := b.move.(y := Gravity(b.move.y)));
      AxesStepsKeepClear(g, Axes, m, size);
      SubStepsKeepClear(SubStep(b, m, size), n - 1, m, size);
    }
  }

  lemma {:induction false} AxesStepsKeepClear(b: Body, axes: seq<Axis>, m: Matrix<Option<Cube>>, size: nat)
    requires size >= 1 && WellShaped(m, size)
    requires !CollidesAt(b.pos, m, size)
    ensures !CollidesAt(AxesSteps(b, axes, m, size).pos, m, size)
    decreases |axes|
  {
    if axes != [] {
      AxesStepsKeepClear(b, axes[..|axes| - 1], m, size);
    }
  }

  /** Per-axis resolution lets the player slide along a wall: a blocked x-step leaves x alone
      and the z-step that follows still advances when z is free. */
  lemma SlidingAlongWall(b: Body, m: Matrix<Option<Cube>>, size: nat)
    requires size >= 1 && WellShaped(m, size)
    requires b.move.x != 0.0 && b.move.z != 0.0
    requires CollidesAt(b.pos.With(X, b.pos.x + b.move.x), m, size)
    requires !CollidesAt(b.pos.With(Z, b.pos.z + b.move.z), m, size)
    ensures AxisStep(AxisStep(b, X, m, size), Z, m, size).pos == b.pos.With(Z, b.pos.z + b.move.z)
  {
  }
}
