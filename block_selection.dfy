/**
 * The block picker of src/lib/blockSelection.js: a current selection that the mouse wheel moves
 * around the fixed block list, wrapping at both ends, and that is reported to the game whenever
 * it changes. Highlighting the icons is not modelled.
 */
module BlockPicker {
  import opened Wrappers
  import opened BlockTypes
  import opened CoreExtensions
  import opened Minecraft

  /** `s.indexOf(name)`: the first position of `name`, or -1. */
  function IndexOf(s: seq<string>, name: string): (r: int)
    ensures -1 <= r < |s|
    ensures r == -1 <==> name !in s
    ensures r >= 0 ==> s[r] == name && name !in s[..r]
  {
    if s == [] then -1
    else if s[0] == name then 0
    else
      var k := IndexOf(s[1..], name);
      assert s[1..][..k + 1] == s[1..k + 2] by { if k >= 0 { } }
      if k == -1 then -1 else k + 1
  }

  /** The block `mousewheel(delta)` selects from `current` in the list `blocks`: the entry before
      it for a non-negative delta and the one after it for a negative delta, wrapping around. */
  function WheelTarget(blocks: seq<string>, current: string, delta: real): (r: string)
    requires |blocks| >= 2
    ensures r in blocks
    ensures current in blocks && delta >= 0.0 ==>
      var i := IndexOf(blocks, current); r == if i == 0 then blocks[|blocks| - 1] else blocks[i - 1]
    ensures current in blocks && delta < 0.0 ==>
      var i := IndexOf(blocks, current); r == if i == |blocks| - 1 then blocks[0] else blocks[i + 1]
    // an unknown selection reads as index -1
    ensures current !in blocks ==> r == if delta >= 0.0 then blocks[|blocks| - 2] else blocks[0]
  {
    var dif := if delta >= 0.0 then 1 else -1;
    var n := IndexOf(blocks, current) - dif;
    WheelIndexInRange(n, |blocks|);
    blocks[Mod(n, |blocks|)]
  }

  /** The shifted index of a wheel step, `indexOf(current) - dif`, always lands in the list. */
  lemma WheelIndexInRange(n: int, length: int)
    requires length >= 2 && -2 <= n <= length
    ensures 0 <= Mod(n, length) < length
    ensures Mod(n, length) == if n == length then 0 else if n < 0 then n + length else n
  {
    ModWrapsOnce(n, length);
  }

  /** In a list without repetitions, `indexOf` finds every entry at its own position. */
  lemma IndexOfDistinct(s: seq<string>, i: int)
    requires Distinct(s) && 0 <= i < |s|
    ensures IndexOf(s, s[i]) == i
  {
  }

  /** One wheel step up followed by one step down (or the other way round) returns to the block
      the picker started on, in any list without repetitions. */
  lemma WheelRoundTrip(blocks: seq<string>, current: string, up: real, down: real)
    requires |blocks| >= 2 && Distinct(blocks) && current in blocks && up >= 0.0 && down < 0.0
    ensures WheelTarget(blocks, WheelTarget(blocks, current, up), down) == current
    ensures WheelTarget(blocks, WheelTarget(blocks, current, down), up) == current
  {
    var i := IndexOf(blocks, current);
    var prev := if i == 0 then |blocks| - 1 else i - 1;
    var next := if i == |blocks| - 1 then 0 else i + 1;
    assert WheelTarget(blocks, current, up) == blocks[prev];
    IndexOfDistinct(blocks, prev);
    assert blocks[if prev == |blocks| - 1 then 0 else prev + 1] == current;
    assert WheelTarget(blocks, current, down) == blocks[next];
    IndexOfDistinct(blocks, next);
    assert blocks[if next == 0 then |blocks| - 1 else next - 1] == current;
  }

  class BlockSelection {
    const game: Game
    var current: string

    /** A picker starts on cobblestone. */
    constructor (game: Game)
      ensures this.game == game && current == InitialBlock && current in Blocks
    {
      this.game := game;
      current := InitialBlock;
    }

    /** `select(name)`: nothing happens for the current block; otherwise the game is told about
        the new block and it becomes the current one. */
    method Select(name: string)
      modifies this`current, game`currentCube
      ensures old(current) == name ==> current == old(current) && game.currentCube == old(game.currentCube)
      ensures old(current) != name ==>
        current == name && game.currentCube == if name in Blocks then Some(name) else None
    {
      if current == name {
        return;
      }
      game.SelectCubeBlock(name);
      current := name;
    }

    /** `mousewheel(delta)` */
    method Mousewheel(delta: real)
      modifies this`current, game`currentCube
      ensures current == WheelTarget(Blocks, old(current), delta) && current in Blocks
      ensures current != old(current) ==> game.currentCube == Some(current)
      ensures current == old(current) ==> game.currentCube == old(game.currentCube)
    {
      assert |Blocks| == 10;
      var dif := if delta >= 0.0 then 1 else -1;
      var index := Mod(IndexOf(Blocks, current) - dif, |Blocks|);
      WheelIndexInRange(IndexOf(Blocks, current) - dif, |Blocks|);
      Select(Blocks[index]);
    }
  }
}
