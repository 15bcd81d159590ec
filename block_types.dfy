/**
 * The block types of the game: the list the block picker of src/lib/blockSelection.js cycles
 * through, which is also the set of meshes lib/minecraft.js builds (createBlocksGeometry).
 */
module BlockTypes {

  const Blocks: seq<string> := ["cobblestone", "plank", "brick", "diamond",
    "glowstone", "obsidian", "whitewool", "bluewool", "redwool", "netherrack"]

  /** The block selected when the game starts. */
  const InitialBlock: string := "cobblestone"

  /** The block type a save records for the grass cube, the mesh `cubeAt` falls back to: the
      name of its first texture. */
  const DefaultBlock: string := "grass_dirt"

  predicate Distinct(s: seq<string>)
  {
    forall i, j :: 0 <= i < j < |s| ==> s[i] != s[j]
  }

  /** Ten distinct names, the initial selection first among them. */
  lemma BlocksWellFormed()
    ensures |Blocks| == 10 && Distinct(Blocks)
    ensures Blocks[0] == InitialBlock && InitialBlock in Blocks
    ensures DefaultBlock !in Blocks
  {
  }
}
