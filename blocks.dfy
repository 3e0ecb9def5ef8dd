/** The block and direction enumerations of a chunk, and the direction and
    transparency helpers the mesher and the neighbour links use. */
module Blocks {
  import opened Wrappers

  /** The materials a cell can hold, in the order of the source enum. */
  datatype BlockType =
    | Empty | Grass | Dirt | Stone | Water | Snow | Sand | Lava | Bedrock | Ice | SnowDirt | Leaf | Wood
    | SnowLeaf | Sap | Cactus | SideWood | Gravel | SnowGrassPatch | DirtGrassPatch | Coal | Lapis
    | Copper | Gold | SandCrack

  /** The six axis directions plus the two diagonal tags of the source enum. */
  datatype Direction = XPos | XNeg | YPos | YNeg | ZPos | ZNeg | Diag1 | Diag2

  /** The directions a block face can point in, in enum order: the order in
      which the mesher visits the six neighbours of a cell. */
  const FaceDirections: seq<Direction> := [XPos, XNeg, YPos, YNeg, ZPos, ZNeg]

  /** Every direction, in enum order. */
  const AllDirections: seq<Direction> := FaceDirections + [Diag1, Diag2]

  predicate IsFaceDirection(d: Direction) {
    !d.Diag1? && !d.Diag2?
  }

  /** The enum value of a direction, as used to index the face table. */
  function Ordinal(d: Direction): (r: nat)
    ensures r < |AllDirections| && AllDirections[r] == d
    ensures IsFaceDirection(d) <==> r < |FaceDirections|
  {
    match d
    case XPos => 0
    case XNeg => 1
    case YPos => 2
    case YNeg => 3
    case ZPos => 4
    case ZNeg => 5
    case Diag1 => 6
    case Diag2 => 7
  }

  /** The enum value of the k-th direction is k. */
  lemma {:induction false} OrdinalAt(k: int)
    requires 0 <= k < |AllDirections|
    ensures Ordinal(AllDirections[k]) == k
  {
    assert AllDirections == [XPos, XNeg, YPos, YNeg, ZPos, ZNeg, Diag1, Diag2];
  }

  /** The `oppositeDirection` table; `.at()` throws for the diagonals, which
      have no entry. The table pairs each axis direction with its reverse. */
  function Opposite(d: Direction): (r: Option<Direction>)
    ensures r.None? <==> !IsFaceDirection(d)
    ensures r.Some? ==> IsFaceDirection(r.value) && r.value != d
    ensures r.Some? ==> Ordinal(r.value) / 2 == Ordinal(d) / 2
  {
    match d
    case XPos => Some(XNeg)
    case XNeg => Some(XPos)
    case YPos => Some(YNeg)
    case YNeg => Some(YPos)
    case ZPos => Some(ZNeg)
    case ZNeg => Some(ZPos)
    case _ => None
  }

  /** Taking the opposite twice returns the direction itself. */
  lemma {:induction false} OppositeInvolution(d: Direction)
    requires IsFaceDirection(d)
    ensures Opposite(d).Some? && Opposite(Opposite(d).value) == Some(d)
  {
  }

  /** Blocks that are drawn with the transparent buffers and that let the
      faces of other materials show through them. */
  predicate IsTransparent(b: BlockType) {
    b == Water || b == Ice
  }
}
