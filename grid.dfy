/** The cell layout of a chunk: 16 columns along x, 256 layers along y and
    16 rows along z, stored flat with x varying fastest. */
module Grid {
  import opened Blocks

  const ChunkWidth: int := 16
  const ChunkHeight: int := 256
  const ChunkCells: int := 65536

  /** The cells of a chunk that holds no block. */
  const EmptyCells: seq<BlockType> := seq(ChunkCells, _ => Empty)

  /** Local coordinates that address a cell of the chunk. */
  predicate InBox(x: int, y: int, z: int) {
    0 <= x < ChunkWidth && 0 <= y < ChunkHeight && 0 <= z < ChunkWidth
  }

  /** The position of local cell (x, y, z) in the block array. */
  function FlatIndex(x: int, y: int, z: int): int {
    x + 16 * y + 4096 * z
  }

  /** The local coordinates of the cell stored at position i. */
  function CellX(i: int): int { i % 16 }
  function CellY(i: int): int { (i / 16) % 256 }
  function CellZ(i: int): int { i / 4096 }

  /** The flat index maps the box one-to-one into [0, 65536) ... */
  lemma {:induction false} FlatIndexInjective(x: int, y: int, z: int)
    requires InBox(x, y, z)
    ensures 0 <= FlatIndex(x, y, z) < ChunkCells
    ensures CellX(FlatIndex(x, y, z)) == x && CellY(FlatIndex(x, y, z)) == y && CellZ(FlatIndex(x, y, z)) == z
  {
    var i := FlatIndex(x, y, z);
    assert i / 16 == y + 256 * z;
    assert i / 4096 == z;
  }

  /** ... and onto it: every array position holds exactly one cell. */
  lemma {:induction false} FlatIndexOnto(i: int)
    requires 0 <= i < ChunkCells
    ensures InBox(CellX(i), CellY(i), CellZ(i)) && FlatIndex(CellX(i), CellY(i), CellZ(i)) == i
  {
    var q := i / 16;
    assert i == CellX(i) + 16 * q;
    assert q == CellY(i) + 256 * (q / 256);
    assert q / 256 == CellZ(i);
  }

  /** Two distinct cells of the box never share an array position. */
  lemma {:induction false} FlatIndexDistinct(x: int, y: int, z: int, x': int, y': int, z': int)
    requires InBox(x, y, z) && InBox(x', y', z')
    ensures FlatIndex(x, y, z) == FlatIndex(x', y', z') <==> x == x' && y == y' && z == z'
  {
    FlatIndexInjective(x, y, z);
    FlatIndexInjective(x', y', z');
  }

  /** A bounds-checked read of a chunk's cells: outside the box every cell
      reads as empty. */
  function CellAt(cells: seq<BlockType>, x: int, y: int, z: int): BlockType
    requires |cells| == ChunkCells
  {
    if InBox(x, y, z) then cells[FlatIndex(x, y, z)] else Empty
  }
}
