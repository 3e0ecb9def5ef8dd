/** `fillChunk`: the generation pass that fills a chunk column by column
    (lava layer, layered terrain with caves and ores, sea) and decorates
    each column with a patch and a tree or cactus. The noise fields arrive
    as inputs, `rand()` as a stream of draws. */
module Filling {
  import opened Wrappers
  import opened Machine
  import opened Blocks
  import opened Grid
  import opened Keys
  import opened Chunks
  import opened World
  import opened Layering
  import opened Assets

  /** The noise-derived values `fillChunk` reads: moisture and temperature
      of a column (they choose the biome), its surface height `floor(h)`,
      the grass noise at the surface, the cave noise at each height, and
      the tree score. */
  datatype Field = Field(
    moisture: (int, int) -> real,
    temperature: (int, int) -> real,
    height: (int, int) -> int,
    grass: (int, int, int) -> real,
    caves: (int, int, int) -> real,
    trees: (int, int) -> real)

  /** The writes `generateDefaultSnowTree3` makes for an anchor, given the
      stream position of its first draw. */
  type SnowTree3 = (int32, int32, int32, nat) -> seq<Write>

  /** The draws `generateDefaultSnowTree3` takes: one `rand() % 2` per leaf,
      eighteen angles on each of two layers. */
  const SnowTree3Draws: nat := 36

  /** A 16 x 16 footprint at (x, z) whose columns and their decorations
      stay inside C++ `int`. */
  predicate Fits(x: int, z: int) {
    && -0x8000_0000 + 3 <= x && x + 16 <= 0x8000_0000 - 3
    && -0x8000_0000 + 3 <= z && z + 16 <= 0x8000_0000 - 3
  }

  /** Chunk corners whose footprint fits. */
  predicate FillCorner(x: int, z: int) {
    x % 16 == 0 && z % 16 == 0 && Fits(x, z)
  }

  /** Every column of the chunk at corner (x, z) has its surface inside the
      height range. */
  predicate Heights(f: Field, x: int, z: int) {
    forall cx, cz :: x <= cx < x + 16 && z <= cz < z + 16 ==> 0 <= f.height(cx, cz) < ChunkHeight
  }

  /** `getBiomeType` of the column's moisture and temperature. */
  function Biome(f: Field, x: int, z: int): BiomeType {
    GetBiomeType(f.moisture(x, z), f.temperature(x, z))
  }

  /** `makeGrass`: the grass noise at the surface reaches 25. */
  function MakeGrass(f: Field, x: int, y: int, z: int): bool {
    f.grass(x, y, z) >= 25.0
  }

  /** The cave decision at each height of column (x, z). */
  function CaveAt(f: Field, x: int, z: int): int -> bool {
    y => MakeCaves(f.caves, x, y, z)
  }

  /** The cells s written up column (x, z) from height 0, bottom up. */
  function Stack(x: int32, z: int32, s: seq<BlockType>): (r: seq<Write>)
    requires |s| <= ChunkHeight
    ensures |r| == |s|
  {
    if s == [] then [] else Stack(x, z, s[..|s| - 1]) + [Write(x, |s| - 1, z, s[|s| - 1])]
  }

  /** A stack writes s[y] at height y of its column and nothing else. */
  lemma {:induction false} StackLast(x: int32, z: int32, s: seq<BlockType>, px: int, py: int, pz: int)
    requires |s| <= ChunkHeight
    ensures LastWrite(Stack(x, z, s), px, py, pz) == if px == x && pz == z && 0 <= py < |s| then Some(s[py]) else None
  {
    if s != [] {
      var init := s[..|s| - 1];
      StackLast(x, z, init, px, py, pz);
      LastWriteSnoc(Stack(x, z, init), Write(x, |s| - 1, z, s[|s| - 1]), px, py, pz);
    }
  }

  /** The writes of the three column loops of `fillChunk` at column (x, z)
      of biome b with surface top: LAVA from 0 to 25, the main loop from 0
      to top, and water or ice from top to 138 when top is below 138; and
      the stream position after them. */
  function ColumnPass(x: int32, z: int32, b: BiomeType, top: int32, cave: int -> bool, rnd: Draws, n: nat): (r: (seq<Write>, nat))
    requires 0 <= top < ChunkHeight
    ensures r.1 >= n
  {
    var main := MainLoop(b, top, cave, rnd, n, top + 1);
    (Run(x, z, 0, 26, Lava) + Stack(x, z, main.0) + (if top < 138 then Run(x, z, top, 139, SeaBlock(b)) else []), main.1)
  }

  /** The ground patch of a column: on land (surface at 138 or above)
      where the grass noise is high enough, the surface cell becomes a snow
      grass patch in the snowy plains and mountains, a dirt grass patch in
      the grassland and a sand crack in the desert. */
  function Patch(x: int32, z: int32, b: BiomeType, top: int32, grass: bool): seq<Write> {
    if !(grass && top >= 138) then []
    else if b == SnowyPlains || b == Mountain then [Write(x, top, z, SnowGrassPatch)]
    else if b == Grassland then [Write(x, top, z, DirtGrassPatch)]
    else [Write(x, top, z, SandCrack)]
  }

  /** The tree of a column, and the stream position after it: on land, a
      grassland column with a tree score above 0.85 draws a default tree
      (below 50), a second tree (below 90) or a fallen tree; a snowy column
      above 0.87 draws a snow tree (below 30), a second snow tree (below
      60), a dead snow tree (below 90) or the third snow tree; a desert
      column above 0.89 grows a cactus. */
  function TreeOf(x: int32, z: int32, b: BiomeType, top: int32, tree: real, rnd: Draws, n: nat, snowTree3: SnowTree3): (r: (seq<Write>, nat))
    requires Room(x, top, z)
    ensures r.1 >= n
  {
    if tree > 0.85 && b == Grassland && top >= 138 then
      var r := Percent(rnd, n);
      (if r < 50 then TreeWrites(x, top, z, Leaf) else if r < 90 then Tree2Writes(x, top, z) else FallenTreeWrites(x, top, z), n + 1)
    else if tree > 0.87 && b == SnowyPlains && top >= 138 then
      var r := Percent(rnd, n);
      if r < 30 then (TreeWrites(x, top, z, SnowLeaf), n + 1)
      else if r < 60 then (SnowTree2Writes(x, top, z), n + 1)
      else if r < 90 then (DeadSnowTreeWrites(x, top, z, rnd, n + 1), n + 9)
      else (snowTree3(x, top, z, n + 1), n + 1 + SnowTree3Draws)
    else if tree > 0.89 && b == Desert && top >= 138 then
      (CactusWrites(x, top, z, Percent(rnd, n)), n + 1)
    else ([], n)
  }

  /** The decoration step of a column: its patch, then its tree. */
  function Decoration(x: int32, z: int32, b: BiomeType, top: int32, grass: bool, tree: real, rnd: Draws, n: nat, snowTree3: SnowTree3): (r: (seq<Write>, nat))
    requires Room(x, top, z)
    ensures r.1 >= n
  {
    var trees := TreeOf(x, z, b, top, tree, rnd, n, snowTree3);
    (Patch(x, z, b, top, grass) + trees.0, trees.1)
  }

  /** The column loops of column (x + dx, z + dz) of the field. */
  function ColumnPassAt(f: Field, x: int32, z: int32, dx: int, dz: int, rnd: Draws, n: nat): (r: (seq<Write>, nat))
    requires Fits(x, z) && Heights(f, x, z) && 0 <= dx < 16 && 0 <= dz < 16
    ensures r.1 >= n
  {
    var cx: int32, cz: int32 := x + dx, z + dz;
    ColumnPass(cx, cz, Biome(f, cx, cz), f.height(cx, cz), CaveAt(f, cx, cz), rnd, n)
  }

  /** Everything `fillChunk` writes for column (x + dx, z + dz), and the
      stream position after it. */
  function ColumnStep(f: Field, x: int32, z: int32, dx: int, dz: int, rnd: Draws, n: nat, snowTree3: SnowTree3): (r: (seq<Write>, nat))
    requires Fits(x, z) && Heights(f, x, z) && 0 <= dx < 16 && 0 <= dz < 16
    ensures r.1 >= n
  {
    var cx: int32 := x + dx;
    var cz: int32 := z + dz;
    var b := Biome(f, cx, cz);
    var top: int32 := f.height(cx, cz);
    var pass := ColumnPassAt(f, x, z, dx, dz, rnd, n);
    var deco := Decoration(cx, cz, b, top, MakeGrass(f, cx, top, cz), f.trees(cx, cz), rnd, pass.1, snowTree3);
    (pass.0 + deco.0, deco.1)
  }

  /** What a sweep does at column (dx, dz) from stream position m: its
      writes and the stream position after them. */
  type ColumnSteps = (int, int, nat) -> (seq<Write>, nat)

  /** The writes of a sweep over the columns before column (dx, dz) in
      the order of `fillChunk` (dx outer, dz inner), each column starting
      from the stream position the one before it left, and the position
      after them; (16, 0) stands after the last column. */
  function Sweep(step: ColumnSteps, n: nat, dx: nat, dz: nat): (seq<Write>, nat)
    requires dx <= 16 && dz <= 16 && (dx == 16 ==> dz == 0)
    decreases dx, dz
  {
    if dz == 0 then
      if dx == 0 then ([], n) else Sweep(step, n, dx - 1, 16)
    else
      var prev := Sweep(step, n, dx, dz - 1);
      var col := step(dx, dz - 1, prev.1);
      (prev.0 + col.0, col.1)
  }

  /** The column steps of `fillChunk` for the chunk at corner (x, z). */
  function Columns(f: Field, x: int32, z: int32, rnd: Draws, snowTree3: SnowTree3): ColumnSteps
    requires Fits(x, z) && Heights(f, x, z)
  {
    (dx, dz, m) => if 0 <= dx < 16 && 0 <= dz < 16 then ColumnStep(f, x, z, dx, dz, rnd, m, snowTree3) else ([], m)
  }

  /** The writes of `fillChunk` for the columns before column (dx, dz). */
  function FillTo(f: Field, x: int32, z: int32, rnd: Draws, n: nat, snowTree3: SnowTree3, dx: nat, dz: nat): (seq<Write>, nat)
    requires Fits(x, z) && Heights(f, x, z) && dx <= 16 && dz <= 16 && (dx == 16 ==> dz == 0)
  {
    Sweep(Columns(f, x, z, rnd, snowTree3), n, dx, dz)
  }

  /** The writes of `fillChunk` for the whole chunk. */
  function FillWrites(f: Field, x: int32, z: int32, rnd: Draws, n: nat, snowTree3: SnowTree3): (seq<Write>, nat)
    requires Fits(x, z) && Heights(f, x, z)
  {
    FillTo(f, x, z, rnd, n, snowTree3, 16, 0)
  }

  /** Column dx + dz of a chunk lies in the chunk's footprint. */
  lemma {:induction false} InFootprint(x: int32, dx: int)
    requires x % 16 == 0 && 0 <= dx < 16 && x + 16 <= 0x8000_0000
    ensures x + dx < 0x8000_0000 && ChunkCorner(x + dx) == x && Local(x + dx) == dx
  {
    var q := x / 16;
    assert x == 16 * q;
    assert (x + dx) / 16 == q;
  }

  /** `c->setLocalBlockAt(dx, y, dz, block)` on the chunk the terrain holds
      at corner (x, z): the cell at world position
      (cx, y, cz) = (x + dx, y, z + dz) becomes block. */
  method SetLocal(t: Terrain, c: Chunk, x: int32, z: int32, dx: int, y: int, dz: int, cx: int32, cz: int32, block: BlockType)
    requires t.Valid() && FillCorner(x, z) && t.HasChunkAt(x, z) && c == t.ChunkAt(x, z)
    requires 0 <= dx < 16 && 0 <= dz < 16 && cx == x + dx && cz == z + dz && 0 <= y < ChunkHeight
    modifies c.blocks
    ensures t.Contents() == Put(old(t.Contents()), cx, y, cz, block)
  {
    InFootprint(x, dx);
    InFootprint(z, dz);
    assert CornerKey(cx, cz) == CornerKey(x, z);
    assert t.ChunkAt(cx, cz) == c;
    PutUncheckedInRange(t.Contents(), cx, y, cz, block);
    var _ := t.WriteCell(cx, y, cz, block);
  }

  /** One `setLocalBlockAt` of the column loops after the writes done. */
  method StampLocal(t: Terrain, c: Chunk, ghost w0: Snapshot, ghost done: seq<Write>, x: int32, z: int32, dx: int, y: int, dz: int, cx: int32, cz: int32, block: BlockType)
    requires t.Valid() && FillCorner(x, z) && t.HasChunkAt(x, z) && c == t.ChunkAt(x, z)
    requires 0 <= dx < 16 && 0 <= dz < 16 && cx == x + dx && cz == z + dz && 0 <= y < ChunkHeight
    requires t.Contents() == Stamp(w0, done)
    modifies c.blocks
    ensures t.Contents() == Stamp(w0, done + [Write(cx, y, cz, block)])
  {
    ghost var wr := Write(cx, y, cz, block);
    StampSnoc(w0, done, wr);
    assert Apply(Stamp(w0, done), wr) == Put(Stamp(w0, done), cx, y, cz, block);
    SetLocal(t, c, x, z, dx, y, dz, cx, cz, block);
  }

  /** A column loop that writes block at heights y0 to below top: the
      lava loop and the sea loop. */
  method FillRun(t: Terrain, c: Chunk, x: int32, z: int32, dx: int, dz: int, cx: int32, cz: int32, y0: int32, top: int32, block: BlockType)
    requires t.Valid() && FillCorner(x, z) && t.HasChunkAt(x, z) && c == t.ChunkAt(x, z)
    requires 0 <= dx < 16 && 0 <= dz < 16 && cx == x + dx && cz == z + dz && 0 <= y0 <= top <= ChunkHeight
    modifies c.blocks
    ensures t.Contents() == Stamp(old(t.Contents()), Run(cx, cz, y0, top, block))
  {
    ghost var w0 := t.Contents();
    ghost var done: seq<Write> := [];
    for y := y0 to top
      invariant done == Run(cx, cz, y0, y, block)
      invariant t.Contents() == Stamp(w0, done)
    {
      StampLocal(t, c, w0, done, x, z, dx, y, dz, cx, cz, block);
      done := done + [Write(cx, y, cz, block)];
    }
    assert t.Contents() == Stamp(w0, Run(cx, cz, y0, top, block));
    assert w0 == old(t.Contents());
  }

  /** One step of the main loop: the block for height y and the draws it
      takes, branch by branch as the source decides them. */
  method PickStep(b: BiomeType, y: int, top: int, isEmpty: bool, rnd: Draws, n: nat) returns (block: BlockType, n': nat)
    requires isEmpty ==> b == Mountain
    ensures n' >= n
    ensures Pick(block, n' - n) == PickCell(b, y, top, isEmpty, Percent(rnd, n), Percent(rnd, n + 1))
  {
    n' := n;
    if isEmpty {
      if GetBlockType(b, y, top) == Lava {
        block := Lava;
      } else {
        block := Empty;
      }
    } else {
      var random := Percent(rnd, n');
      n' := n' + 1;
      if random < 80 {
        block := GetBlockType(b, y, top);
      } else if b == Mountain && random < 98 {
        block := Gravel;
      } else {
        random := Percent(rnd, n');
        n' := n' + 1;
        if b == Mountain && y < 140 && y > 27 {
          if random < 85 {
            block := Coal;
          } else if random < 95 {
            block := Copper;
          } else if random < 98 {
            block := Gold;
          } else {
            block := Lapis;
          }
        } else {
          block := GetBlockType(b, y, top);
        }
      }
    }
  }

  /** Appending a cell to a stack writes it one layer higher. */
  lemma {:induction false} StackSnoc(x: int32, z: int32, s: seq<BlockType>, block: BlockType)
    requires |s| < ChunkHeight
    ensures Stack(x, z, s + [block]) == Stack(x, z, s) + [Write(x, |s|, z, block)]
  {
    assert (s + [block])[..|s|] == s;
  }

  /** The pick the main loop makes at height y, from the stream position
      the cells below it reached, extends those cells by one. */
  lemma {:induction false} MainLoopStep(b: BiomeType, top: int, cave: int -> bool, rnd: Draws, n: nat, y: nat, m: nat,
                                        isEmpty: bool, block: BlockType, m': nat)
    requires m == MainLoop(b, top, cave, rnd, n, y).1 && isEmpty == (cave(y) && b == Mountain)
    requires m' >= m && Pick(block, m' - m) == PickCell(b, y, top, isEmpty, Percent(rnd, m), Percent(rnd, m + 1))
    ensures m' == MainLoop(b, top, cave, rnd, n, y + 1).1
    ensures MainLoop(b, top, cave, rnd, n, y + 1).0 == MainLoop(b, top, cave, rnd, n, y).0 + [block]
  {
    MainLoopNext(b, top, cave, rnd, n, y);
    assert PickCell(b, y, top, isEmpty, Percent(rnd, m), Percent(rnd, m + 1))
      == PickCell(b, y, top, cave(y), Percent(rnd, m), Percent(rnd, m + 1));
  }

  /** One pass of the main loop at height y, after the passes below it. */
  method MainStep(t: Terrain, c: Chunk, ghost w0: Snapshot, f: Field, x: int32, z: int32, dx: int, dz: int, cx: int32, cz: int32, b: BiomeType, top: int32,
                  rnd: Draws, n: nat, y: int, m: nat) returns (m': nat)
    requires t.Valid() && FillCorner(x, z) && t.HasChunkAt(x, z) && c == t.ChunkAt(x, z)
    requires 0 <= dx < 16 && 0 <= dz < 16 && cx == x + dx && cz == z + dz && 0 <= y <= top < ChunkHeight
    requires m == MainLoop(b, top, CaveAt(f, cx, cz), rnd, n, y).1
    requires t.Contents() == Stamp(w0, Stack(cx, cz, MainLoop(b, top, CaveAt(f, cx, cz), rnd, n, y).0))
    modifies c.blocks
    ensures m' == MainLoop(b, top, CaveAt(f, cx, cz), rnd, n, y + 1).1
    ensures t.Contents() == Stamp(w0, Stack(cx, cz, MainLoop(b, top, CaveAt(f, cx, cz), rnd, n, y + 1).0))
  {
    ghost var cave := CaveAt(f, cx, cz);
    ghost var prev := MainLoop(b, top, cave, rnd, n, y).0;
    var isEmpty := MakeCaves(f.caves, cx, y, cz) && b == Mountain;
    var block;
    block, m' := PickStep(b, y, top, isEmpty, rnd, m);
    assert cave(y) == MakeCaves(f.caves, cx, y, cz);
    MainLoopStep(b, top, cave, rnd, n, y, m, isEmpty, block, m');
    StackSnoc(cx, cz, prev, block);
    StampLocal(t, c, w0, Stack(cx, cz, prev), x, z, dx, y, dz, cx, cz, block);
  }

  /** The main loop of a column: heights 0 to top, each with its pick. */
  method FillMain(t: Terrain, c: Chunk, f: Field, x: int32, z: int32, dx: int, dz: int, cx: int32, cz: int32, b: BiomeType, top: int32, rnd: Draws, n: nat)
    returns (n': nat)
    requires t.Valid() && FillCorner(x, z) && t.HasChunkAt(x, z) && c == t.ChunkAt(x, z)
    requires 0 <= dx < 16 && 0 <= dz < 16 && cx == x + dx && cz == z + dz && 0 <= top < ChunkHeight
    modifies c.blocks
    ensures n' == MainLoop(b, top, CaveAt(f, cx, cz), rnd, n, top + 1).1
    ensures t.Contents() == Stamp(old(t.Contents()), Stack(cx, cz, MainLoop(b, top, CaveAt(f, cx, cz), rnd, n, top + 1).0))
  {
    ghost var w0 := t.Contents();
    n' := n;
    for y := 0 to top + 1
      invariant n' == MainLoop(b, top, CaveAt(f, cx, cz), rnd, n, y).1
      invariant t.Contents() == Stamp(w0, Stack(cx, cz, MainLoop(b, top, CaveAt(f, cx, cz), rnd, n, y).0))
    {
      n' := MainStep(t, c, w0, f, x, z, dx, dz, cx, cz, b, top, rnd, n, y, n');
    }
    assert w0 == old(t.Contents());
  }

  /** The three column loops of `fillChunk` for column (cx, cz) = (x + dx, z + dz):
      lava, the main loop, and the sea when the surface is below 138. */
  method ColumnLoops(t: Terrain, c: Chunk, f: Field, x: int32, z: int32, dx: int, dz: int, cx: int32, cz: int32, b: BiomeType, top: int32, rnd: Draws, n: nat)
    returns (n': nat)
    requires t.Valid() && FillCorner(x, z) && t.HasChunkAt(x, z) && c == t.ChunkAt(x, z)
    requires 0 <= dx < 16 && 0 <= dz < 16 && cx == x + dx && cz == z + dz && 0 <= top < ChunkHeight
    modifies c.blocks
    ensures n' == ColumnPass(cx, cz, b, top, CaveAt(f, cx, cz), rnd, n).1
    ensures t.Contents() == Stamp(old(t.Contents()), ColumnPass(cx, cz, b, top, CaveAt(f, cx, cz), rnd, n).0)
  {
    ghost var w0 := t.Contents();
    ghost var lava := Run(cx, cz, 0, 26, Lava);
    ghost var main := Stack(cx, cz, MainLoop(b, top, CaveAt(f, cx, cz), rnd, n, top + 1).0);
    ghost var sea := if top < 138 then Run(cx, cz, top, 139, SeaBlock(b)) else [];
    FillRun(t, c, x, z, dx, dz, cx, cz, 0, 26, Lava);
    n' := FillMain(t, c, f, x, z, dx, dz, cx, cz, b, top, rnd, n);
    StampAppend(w0, lava, main);
    if top < 138 {
      FillRun(t, c, x, z, dx, dz, cx, cz, top, 139, if b == SnowyPlains then Ice else Water);
    }
    StampAppend(w0, lava + main, sea);
  }

  /** Stands in for a call of `generateDefaultSnowTree3`: makes the writes
      ws in order, each as `setBlockSafe` does. */
  method StampWrites(t: Terrain, ws: seq<Write>)
    requires t.Valid()
    modifies t.Arrays()
    ensures t.Contents() == Stamp(old(t.Contents()), ws)
  {
    ghost var w0 := t.Contents();
    for i := 0 to |ws|
      invariant t.Contents() == Stamp(w0, ws[..i])
    {
      assert ws[..i + 1] == ws[..i] + [ws[i]];
      StampWrite(t, w0, ws[..i], ws[i]);
    }
    assert ws[..|ws|] == ws;
  }

  /** The tree step of `fillChunk` for column (x, z): which generator runs,
      if any, is decided by the biome, the tree score, the surface height
      and one draw. */
  method PlantTree(t: Terrain, x: int32, z: int32, b: BiomeType, top: int32, tree: real, rnd: Draws, n: nat, snowTree3: SnowTree3)
    returns (n': nat)
    requires t.Valid() && Room(x, top, z)
    modifies t.Arrays()
    ensures n' == TreeOf(x, z, b, top, tree, rnd, n, snowTree3).1
    ensures t.Contents() == Stamp(old(t.Contents()), TreeOf(x, z, b, top, tree, rnd, n, snowTree3).0)
  {
    if tree > 0.85 && b == Grassland && top >= 138 {
      var random := Percent(rnd, n);
      n' := n + 1;
      if random < 50 {
        GenerateDefaultTree(t, x, top, z);
      } else if random < 90 {
        GenerateDefaultTree2(t, x, top, z);
      } else {
        GenerateFallenTree(t, x, top, z);
      }
    } else if tree > 0.87 && b == SnowyPlains && top >= 138 {
      var random := Percent(rnd, n);
      n' := n + 1;
      if random < 30 {
        GenerateDefaultSnowTree(t, x, top, z);
      } else if random < 60 {
        GenerateDefaultSnowTree2(t, x, top, z);
      } else if random < 90 {
        n' := GenerateDeadSnowTree(t, x, top, z, rnd, n');
      } else {
        StampWrites(t, snowTree3(x, top, z, n'));
        n' := n' + SnowTree3Draws;
      }
    } else if tree > 0.89 && b == Desert && top >= 138 {
      n' := GenerateCactus(t, x, top, z, rnd, n);
    } else {
      n' := n;
      assert Stamp(old(t.Contents()), []) == old(t.Contents());
    }
  }

  /** A single write is the checked write. */
  lemma {:induction false} StampOne(w: Snapshot, wr: Write)
    ensures Stamp(w, [wr]) == Put(w, wr.x, wr.y, wr.z, wr.block)
  {
    assert [wr][..0] == [];
  }

  /** The patch step of `fillChunk` for column (x, z). */
  method PlacePatch(t: Terrain, x: int32, z: int32, b: BiomeType, top: int32, grass: bool)
    requires t.Valid()
    modifies t.Arrays()
    ensures t.Contents() == Stamp(old(t.Contents()), Patch(x, z, b, top, grass))
  {
    if (b == SnowyPlains || b == Mountain) && grass && top >= 138 {
      StampOne(t.Contents(), Write(x, top, z, SnowGrassPatch));
      GenerateSnowGrass(t, x, top, z);
    } else if b == Grassland && grass && top >= 138 {
      StampOne(t.Contents(), Write(x, top, z, DirtGrassPatch));
      GenerateDirtGrass(t, x, top, z);
    } else if b == Desert && grass && top >= 138 {
      StampOne(t.Contents(), Write(x, top, z, SandCrack));
      GenerateSandCrack(t, x, top, z);
    } else {
      assert Stamp(t.Contents(), []) == t.Contents();
    }
  }

  /** The decoration step of `fillChunk` for column (x, z): the patch,
      then the tree. */
  method Decorate(t: Terrain, x: int32, z: int32, b: BiomeType, top: int32, grass: bool, tree: real, rnd: Draws, n: nat, snowTree3: SnowTree3)
    returns (n': nat)
    requires t.Valid() && Room(x, top, z)
    modifies t.Arrays()
    ensures n' == Decoration(x, z, b, top, grass, tree, rnd, n, snowTree3).1
    ensures t.Contents() == Stamp(old(t.Contents()), Decoration(x, z, b, top, grass, tree, rnd, n, snowTree3).0)
  {
    ghost var w0 := t.Contents();
    PlacePatch(t, x, z, b, top, grass);
    n' := PlantTree(t, x, z, b, top, tree, rnd, n, snowTree3);
    StampAppend(w0, Patch(x, z, b, top, grass), TreeOf(x, z, b, top, tree, rnd, n, snowTree3).0);
  }

  /** The body of the column loops of `fillChunk` for column
      (x + dx, z + dz): the biome and surface from the noise, the three
      column loops, then the decorations. */
  method FillColumn(t: Terrain, c: Chunk, f: Field, x: int32, z: int32, dx: int, dz: int, rnd: Draws, n: nat, snowTree3: SnowTree3)
    returns (n': nat)
    requires t.Valid() && FillCorner(x, z) && Heights(f, x, z) && t.HasChunkAt(x, z) && c == t.ChunkAt(x, z)
    requires 0 <= dx < 16 && 0 <= dz < 16
    modifies t.Arrays()
    ensures n' == ColumnStep(f, x, z, dx, dz, rnd, n, snowTree3).1
    ensures t.Contents() == Stamp(old(t.Contents()), ColumnStep(f, x, z, dx, dz, rnd, n, snowTree3).0)
  {
    ghost var w0 := t.Contents();
    var currX: int32, currZ: int32 := x + dx, z + dz;
    var b := GetBiomeType(f.moisture(currX, currZ), f.temperature(currX, currZ));
    var top: int32 := f.height(currX, currZ);
    ghost var pass := ColumnPass(currX, currZ, b, top, CaveAt(f, currX, currZ), rnd, n);
    n' := ColumnLoops(t, c, f, x, z, dx, dz, currX, currZ, b, top, rnd, n);
    var grass := MakeGrass(f, currX, top, currZ);
    n' := Decorate(t, currX, currZ, b, top, grass, f.trees(currX, currZ), rnd, n', snowTree3);
    StampAppend(w0, pass.0, Decoration(currX, currZ, b, top, grass, f.trees(currX, currZ), rnd, pass.1, snowTree3).0);
  }

  /** One pass of the inner loop of `fillChunk`: column (dx, dz) after
      the columns before it. */
  method FillNext(t: Terrain, c: Chunk, ghost w0: Snapshot, f: Field, x: int32, z: int32, dx: int, dz: int, rnd: Draws, n: nat, m: nat,
                  snowTree3: SnowTree3) returns (m': nat)
    requires t.Valid() && FillCorner(x, z) && Heights(f, x, z) && t.HasChunkAt(x, z) && c == t.ChunkAt(x, z)
    requires 0 <= dx < 16 && 0 <= dz < 16
    requires m == FillTo(f, x, z, rnd, n, snowTree3, dx, dz).1
    requires t.Contents() == Stamp(w0, FillTo(f, x, z, rnd, n, snowTree3, dx, dz).0)
    modifies t.Arrays()
    ensures m' == FillTo(f, x, z, rnd, n, snowTree3, dx, dz + 1).1
    ensures t.Contents() == Stamp(w0, FillTo(f, x, z, rnd, n, snowTree3, dx, dz + 1).0)
  {
    m' := FillColumn(t, c, f, x, z, dx, dz, rnd, m, snowTree3);
    assert Columns(f, x, z, rnd, snowTree3)(dx, dz, m) == ColumnStep(f, x, z, dx, dz, rnd, m, snowTree3);
    StampAppend(w0, FillTo(f, x, z, rnd, n, snowTree3, dx, dz).0, ColumnStep(f, x, z, dx, dz, rnd, m, snowTree3).0);
  }

  /** One pass of the outer loop of `fillChunk`: the columns of row dx,
      after the rows before it. */
  method FillRow(t: Terrain, c: Chunk, ghost w0: Snapshot, f: Field, x: int32, z: int32, dx: int, rnd: Draws, n: nat, m: nat,
                 snowTree3: SnowTree3) returns (m': nat)
    requires t.Valid() && FillCorner(x, z) && Heights(f, x, z) && t.HasChunkAt(x, z) && c == t.ChunkAt(x, z)
    requires 0 <= dx < 16
    requires m == FillTo(f, x, z, rnd, n, snowTree3, dx, 0).1
    requires t.Contents() == Stamp(w0, FillTo(f, x, z, rnd, n, snowTree3, dx, 0).0)
    modifies t.Arrays()
    ensures m' == FillTo(f, x, z, rnd, n, snowTree3, dx + 1, 0).1
    ensures t.Contents() == Stamp(w0, FillTo(f, x, z, rnd, n, snowTree3, dx + 1, 0).0)
  {
    m' := m;
    for dz := 0 to 16
      invariant m' == FillTo(f, x, z, rnd, n, snowTree3, dx, dz).1
      invariant t.Contents() == Stamp(w0, FillTo(f, x, z, rnd, n, snowTree3, dx, dz).0)
    {
      m' := FillNext(t, c, w0, f, x, z, dx, dz, rnd, n, m', snowTree3);
    }
    assert FillTo(f, x, z, rnd, n, snowTree3, dx + 1, 0) == FillTo(f, x, z, rnd, n, snowTree3, dx, 16);
  }

  /** `fillChunk(c, x, z)` for the chunk c the terrain holds at corner
      (x, z): every column, dx outer and dz inner, gets its column loops
      and its decorations, in order. */
  method FillChunk(t: Terrain, c: Chunk, f: Field, x: int32, z: int32, rnd: Draws, n: nat, snowTree3: SnowTree3) returns (n': nat)
    requires t.Valid() && FillCorner(x, z) && Heights(f, x, z) && t.HasChunkAt(x, z) && c == t.ChunkAt(x, z)
    modifies t.Arrays()
    ensures n' == FillWrites(f, x, z, rnd, n, snowTree3).1
    ensures t.Contents() == Stamp(old(t.Contents()), FillWrites(f, x, z, rnd, n, snowTree3).0)
  {
    ghost var w0 := t.Contents();
    n' := n;
    for dx := 0 to 16
      invariant n' == FillTo(f, x, z, rnd, n, snowTree3, dx, 0).1
      invariant t.Contents() == Stamp(w0, FillTo(f, x, z, rnd, n, snowTree3, dx, 0).0)
    {
      n' := FillRow(t, c, w0, f, x, z, dx, rnd, n, n', snowTree3);
    }
    assert w0 == old(t.Contents());
  }

  /** The last write of a column pass to each position: the sea from top to
      138 when top is below 138, else the main loop's cell up to top, else
      LAVA up to 25; nothing outside the column or above all three. */
  lemma {:induction false} ColumnPassLast(x: int32, z: int32, b: BiomeType, top: int32, cave: int -> bool, rnd: Draws, n: nat, px: int, py: int, pz: int)
    requires 0 <= top < ChunkHeight
    ensures LastWrite(ColumnPass(x, z, b, top, cave, rnd, n).0, px, py, pz) ==
      if px == x && pz == z && top < 138 && top <= py <= 138 then Some(SeaBlock(b))
      else if px == x && pz == z && 0 <= py <= top then Some(MainLoop(b, top, cave, rnd, n, top + 1).0[py])
      else if px == x && pz == z && 0 <= py <= 25 then Some(Lava)
      else None
  {
    var lava := Run(x, z, 0, 26, Lava);
    var main := Stack(x, z, MainLoop(b, top, cave, rnd, n, top + 1).0);
    var sea := if top < 138 then Run(x, z, top, 139, SeaBlock(b)) else [];
    LastWriteAppend(lava + main, sea, px, py, pz);
    LastWriteAppend(lava, main, px, py, pz);
    RunLast(x, z, 0, 26, Lava, px, py, pz);
    StackLast(x, z, MainLoop(b, top, cave, rnd, n, top + 1).0, px, py, pz);
    if top < 138 {
      RunLast(x, z, top, 139, SeaBlock(b), px, py, pz);
    }
  }

  /** After the column loops each cell of the column holds what
      `ColumnCell` says: sea, then the main loop's cell, then lava, then
      what it held before. */
  lemma {:induction false} ColumnPassCell(w: Snapshot, x: int32, z: int32, b: BiomeType, top: int32, cave: int -> bool, rnd: Draws, n: nat, y: int32)
    requires 0 <= top < ChunkHeight && CornerKey(x, z) in w && 0 <= y < ChunkHeight
    ensures BlockIn(Stamp(w, ColumnPass(x, z, b, top, cave, rnd, n).0), x, y, z)
      == Ok(ColumnCell(b, top, MainLoop(b, top, cave, rnd, n, top + 1).0, BlockIn(w, x, y, z).value, y))
  {
    StampCell(w, ColumnPass(x, z, b, top, cave, rnd, n).0, x, y, z);
    ColumnPassLast(x, z, b, top, cave, rnd, n, x, y, z);
  }

  /** The column loops change nothing outside their column, nor above both
      the surface and 138. */
  lemma {:induction false} ColumnPassElsewhere(w: Snapshot, x: int32, z: int32, b: BiomeType, top: int32, cave: int -> bool, rnd: Draws, n: nat,
                                               px: int32, py: int32, pz: int32)
    requires 0 <= top < ChunkHeight
    requires px != x || pz != z || (py > top && py > 138)
    ensures BlockIn(Stamp(w, ColumnPass(x, z, b, top, cave, rnd, n).0), px, py, pz) == BlockIn(w, px, py, pz)
  {
    StampCell(w, ColumnPass(x, z, b, top, cave, rnd, n).0, px, py, pz);
    ColumnPassLast(x, z, b, top, cave, rnd, n, px, py, pz);
  }

  /** Outside the mountains the column loops lay down exactly the layered
      materials from 0 to the surface, whatever the draws (the surface cell
      of a column below 138 is flooded). */
  lemma {:induction false} ColumnPassOutsideMountains(w: Snapshot, x: int32, z: int32, b: BiomeType, top: int32, cave: int -> bool, rnd: Draws, n: nat, y: int32)
    requires b != Mountain && 0 <= top < ChunkHeight && CornerKey(x, z) in w
    requires 0 <= y <= top && (top >= 138 || y < top)
    ensures BlockIn(Stamp(w, ColumnPass(x, z, b, top, cave, rnd, n).0), x, y, z) == Ok(GetBlockType(b, y, top))
  {
    ColumnPassCell(w, x, z, b, top, cave, rnd, n, y);
    ColumnCellOutsideMountains(b, top, cave, rnd, n, BlockIn(w, x, y, z).value, y);
  }

  /** A column below 138 is flooded from its surface up to 138: ice in the
      snowy plains, water elsewhere. */
  lemma {:induction false} ColumnPassSea(w: Snapshot, x: int32, z: int32, b: BiomeType, top: int32, cave: int -> bool, rnd: Draws, n: nat, y: int32)
    requires 0 <= top < 138 && CornerKey(x, z) in w && top <= y <= 138
    ensures BlockIn(Stamp(w, ColumnPass(x, z, b, top, cave, rnd, n).0), x, y, z) == Ok(if b == SnowyPlains then Ice else Water)
  {
    ColumnPassCell(w, x, z, b, top, cave, rnd, n, y);
  }

  /** Gravel appears below the surface only in the mountains, and ores only
      in the mountains strictly between heights 27 and 140. */
  lemma {:induction false} ColumnPassMinerals(w: Snapshot, x: int32, z: int32, b: BiomeType, top: int32, cave: int -> bool, rnd: Draws, n: nat, y: int32)
    requires 0 <= top < ChunkHeight && CornerKey(x, z) in w && 0 <= y <= top
    ensures var c := BlockIn(Stamp(w, ColumnPass(x, z, b, top, cave, rnd, n).0), x, y, z);
      && (c == Ok(Gravel) ==> b == Mountain)
      && (c.Ok? && IsOre(c.value) ==> b == Mountain && 27 < y < 140)
  {
    ColumnPassCell(w, x, z, b, top, cave, rnd, n, y);
    ColumnCellMinerals(b, top, cave, rnd, n, BlockIn(w, x, y, z).value, y);
  }

  /** A mountain cell the cave noise hollows out, below the surface, is
      EMPTY after the column loops (caves lie far above the lava). */
  lemma {:induction false} ColumnPassCaves(w: Snapshot, f: Field, x: int32, z: int32, top: int32, rnd: Draws, n: nat, y: int32)
    requires 0 <= top < ChunkHeight && CornerKey(x, z) in w
    requires 0 <= y <= top && (top >= 138 || y < top) && MakeCaves(f.caves, x, y, z)
    ensures BlockIn(Stamp(w, ColumnPass(x, z, Mountain, top, CaveAt(f, x, z), rnd, n).0), x, y, z) == Ok(Empty)
  {
    var cave := CaveAt(f, x, z);
    ColumnPassCell(w, x, z, Mountain, top, cave, rnd, n, y);
    assert cave(y);
    ColumnCellCaves(f.caves, x, z, top, cave, rnd, n, BlockIn(w, x, y, z).value, y);
  }

  /** Decorations grow only on land: a column whose surface is below 138
      gets no patch and no tree and takes no draw. */
  lemma {:induction false} DecorationNeedsLand(x: int32, z: int32, b: BiomeType, top: int32, grass: bool, tree: real, rnd: Draws, n: nat, snowTree3: SnowTree3)
    requires Room(x, top, z) && top < 138
    ensures Decoration(x, z, b, top, grass, tree, rnd, n, snowTree3) == ([], n)
  {
    assert Patch(x, z, b, top, grass) == [];
    assert TreeOf(x, z, b, top, tree, rnd, n, snowTree3) == ([], n);
    var none: seq<Write> := [];
    assert none + none == none;
  }

  /** Mountains grow no trees: their only decoration is the snow grass
      patch, and they take no draw. */
  lemma {:induction false} MountainsGrowNoTrees(x: int32, z: int32, top: int32, grass: bool, tree: real, rnd: Draws, n: nat, snowTree3: SnowTree3)
    requires Room(x, top, z)
    ensures Decoration(x, z, Mountain, top, grass, tree, rnd, n, snowTree3)
      == (if grass && top >= 138 then [Write(x, top, z, SnowGrassPatch)] else [], n)
  {
    var patch := Patch(x, z, Mountain, top, grass);
    assert TreeOf(x, z, Mountain, top, tree, rnd, n, snowTree3) == ([], n);
    assert patch + [] == patch;
  }

  /** The third snow tree writes nothing below its anchor: its trunk starts
      at the anchor and its leaves and snow lie above. */
  ghost predicate SnowTree3Rises(snowTree3: SnowTree3) {
    forall x, y, z, m, j :: 0 <= j < |snowTree3(x, y, z, m)| ==> snowTree3(x, y, z, m)[j].y >= y
  }

  /** A list whose writes are all at height floor or above writes nothing
      below floor. */
  lemma {:induction false} LastWriteBelow(ws: seq<Write>, floor: int, px: int, py: int, pz: int)
    requires forall j :: 0 <= j < |ws| ==> ws[j].y >= floor
    requires py < floor
    ensures LastWrite(ws, px, py, pz) == None
  {
    if ws != [] {
      var init := ws[..|ws| - 1];
      assert forall j :: 0 <= j < |init| ==> init[j] == ws[j];
      LastWriteBelow(init, floor, px, py, pz);
    }
  }

  /** No tree reaches below the surface of its column. */
  lemma {:induction false} TreeOfAbove(x: int32, z: int32, b: BiomeType, top: int32, tree: real, rnd: Draws, n: nat, snowTree3: SnowTree3,
                                       px: int, py: int, pz: int)
    requires Room(x, top, z) && SnowTree3Rises(snowTree3) && py < top
    ensures LastWrite(TreeOf(x, z, b, top, tree, rnd, n, snowTree3).0, px, py, pz) == None
  {
    if tree > 0.85 && b == Grassland && top >= 138 {
      var r := Percent(rnd, n);
      if r < 50 {
        TreeShape(x, top, z, Leaf, px, py, pz);
      } else if r < 90 {
        Tree2Shape(x, top, z, px, py, pz);
      } else {
        FallenTreeShape(x, top, z, px, py, pz);
      }
    } else if tree > 0.87 && b == SnowyPlains && top >= 138 {
      var r := Percent(rnd, n);
      if r < 30 {
        TreeShape(x, top, z, SnowLeaf, px, py, pz);
      } else if r < 60 {
        SnowTree2Shape(x, top, z, px, py, pz);
      } else if r < 90 {
        DeadSnowTreeShape(x, top, z, rnd, n + 1, px, py, pz);
      } else {
        LastWriteBelow(snowTree3(x, top, z, n + 1), top, px, py, pz);
      }
    } else if tree > 0.89 && b == Desert && top >= 138 {
      CactusShape(x, top, z, Percent(rnd, n), px, py, pz);
    }
  }

  /** Decorations never reach below the surface of their column, nor below
      138. */
  lemma {:induction false} DecorationAbove(x: int32, z: int32, b: BiomeType, top: int32, grass: bool, tree: real, rnd: Draws, n: nat, snowTree3: SnowTree3,
                                           px: int, py: int, pz: int)
    requires Room(x, top, z) && SnowTree3Rises(snowTree3) && (py < top || py < 138)
    ensures LastWrite(Decoration(x, z, b, top, grass, tree, rnd, n, snowTree3).0, px, py, pz) == None
  {
    var patch := Patch(x, z, b, top, grass);
    LastWriteAppend(patch, TreeOf(x, z, b, top, tree, rnd, n, snowTree3).0, px, py, pz);
    if top >= 138 {
      TreeOfAbove(x, z, b, top, tree, rnd, n, snowTree3, px, py, pz);
      if patch != [] {
        assert patch[..0] == [];
      }
    }
  }

  /** Writes that leave a position alone do not change its last write. */
  lemma {:induction false} LastWriteSkip(ws: seq<Write>, a: seq<Write>, b: seq<Write>, px: int, py: int, pz: int)
    requires ws == a + b && LastWrite(b, px, py, pz) == None
    ensures LastWrite(ws, px, py, pz) == LastWrite(a, px, py, pz)
  {
    LastWriteAppend(a, b, px, py, pz);
  }

  /** Below 138, a column's step of `fillChunk` writes what its column
      loops write. */
  lemma {:induction false} ColumnStepBelow(f: Field, x: int32, z: int32, dx: int, dz: int, rnd: Draws, m: nat, snowTree3: SnowTree3, px: int, py: int, pz: int)
    requires Fits(x, z) && Heights(f, x, z) && SnowTree3Rises(snowTree3) && 0 <= dx < 16 && 0 <= dz < 16 && py < 138
    ensures LastWrite(ColumnStep(f, x, z, dx, dz, rnd, m, snowTree3).0, px, py, pz) == LastWrite(ColumnPassAt(f, x, z, dx, dz, rnd, m).0, px, py, pz)
  {
    var cx: int32, cz: int32 := x + dx, z + dz;
    var b := Biome(f, cx, cz);
    var top: int32 := f.height(cx, cz);
    var pass := ColumnPassAt(f, x, z, dx, dz, rnd, m);
    var grass := MakeGrass(f, cx, top, cz);
    var deco := Decoration(cx, cz, b, top, grass, f.trees(cx, cz), rnd, pass.1, snowTree3);
    DecorationAbove(cx, cz, b, top, grass, f.trees(cx, cz), rnd, pass.1, snowTree3, px, py, pz);
    LastWriteSkip(ColumnStep(f, x, z, dx, dz, rnd, m, snowTree3).0, pass.0, deco.0, px, py, pz);
  }

  /** Below 138, a column's step of `fillChunk` writes nothing outside its
      column. */
  lemma {:induction false} ColumnStepOther(f: Field, x: int32, z: int32, dx: int, dz: int, rnd: Draws, m: nat, snowTree3: SnowTree3, px: int, py: int, pz: int)
    requires Fits(x, z) && Heights(f, x, z) && SnowTree3Rises(snowTree3) && 0 <= dx < 16 && 0 <= dz < 16 && py < 138
    requires px != x + dx || pz != z + dz
    ensures LastWrite(ColumnStep(f, x, z, dx, dz, rnd, m, snowTree3).0, px, py, pz) == None
  {
    var cx: int32, cz: int32 := x + dx, z + dz;
    var b := Biome(f, cx, cz);
    var top: int32 := f.height(cx, cz);
    var pass := ColumnPassAt(f, x, z, dx, dz, rnd, m);
    var grass := MakeGrass(f, cx, top, cz);
    var deco := Decoration(cx, cz, b, top, grass, f.trees(cx, cz), rnd, pass.1, snowTree3);
    DecorationAbove(cx, cz, b, top, grass, f.trees(cx, cz), rnd, pass.1, snowTree3, px, py, pz);
    ColumnPassLast(cx, cz, b, top, CaveAt(f, cx, cz), rnd, m, px, py, pz);
    LastWriteSkip(ColumnStep(f, x, z, dx, dz, rnd, m, snowTree3).0, pass.0, deco.0, px, py, pz);
  }

  /** In a sweep whose steps at every column but (dx0, dz0) leave a
      position alone, the last write to it is that column's own, once the
      sweep has passed it. */
  lemma {:induction false} SweepOnly(step: ColumnSteps, n: nat, dx: nat, dz: nat, dx0: int, dz0: int, px: int, py: int, pz: int)
    requires dx <= 16 && dz <= 16 && (dx == 16 ==> dz == 0) && 0 <= dx0 < 16 && 0 <= dz0 < 16
    requires forall i, j, m :: (i != dx0 || j != dz0) ==> LastWrite(step(i, j, m).0, px, py, pz) == None
    ensures LastWrite(Sweep(step, n, dx, dz).0, px, py, pz) ==
      if dx0 < dx || (dx0 == dx && dz0 < dz) then LastWrite(step(dx0, dz0, Sweep(step, n, dx0, dz0).1).0, px, py, pz) else None
    decreases dx, dz
  {
    if dz == 0 {
      if dx > 0 {
        SweepOnly(step, n, dx - 1, 16, dx0, dz0, px, py, pz);
      }
    } else {
      SweepOnly(step, n, dx, dz - 1, dx0, dz0, px, py, pz);
      var prev := Sweep(step, n, dx, dz - 1);
      LastWriteAppend(prev.0, step(dx, dz - 1, prev.1).0, px, py, pz);
    }
  }

  /** Below 138 the last write of a filled chunk to a cell (cx, y, cz) of
      its column (dx, dz) is the one that column's own loops make:
      decorations and the other columns never reach it. */
  lemma {:induction false} FillLastBelowSea(f: Field, x: int32, z: int32, rnd: Draws, n: nat, snowTree3: SnowTree3, dx: int, dz: int, cx: int32, y: int32, cz: int32)
    requires Fits(x, z) && Heights(f, x, z) && SnowTree3Rises(snowTree3)
    requires 0 <= dx < 16 && 0 <= dz < 16 && cx == x + dx && cz == z + dz && y < 138
    ensures LastWrite(FillWrites(f, x, z, rnd, n, snowTree3).0, cx, y, cz)
      == LastWrite(ColumnPassAt(f, x, z, dx, dz, rnd, FillTo(f, x, z, rnd, n, snowTree3, dx, dz).1).0, cx, y, cz)
  {
    var step := Columns(f, x, z, rnd, snowTree3);
    forall i, j, m | i != dx || j != dz
      ensures LastWrite(step(i, j, m).0, cx, y, cz) == None
    {
      if 0 <= i < 16 && 0 <= j < 16 {
        ColumnStepOther(f, x, z, i, j, rnd, m, snowTree3, cx, y, cz);
      }
    }
    SweepOnly(step, n, 16, 0, dx, dz, cx, y, cz);
    var m := Sweep(step, n, dx, dz).1;
    assert FillTo(f, x, z, rnd, n, snowTree3, dx, dz).1 == m;
    assert FillWrites(f, x, z, rnd, n, snowTree3).0 == Sweep(step, n, 16, 0).0;
    assert step(dx, dz, m) == ColumnStep(f, x, z, dx, dz, rnd, m, snowTree3);
    ColumnStepBelow(f, x, z, dx, dz, rnd, m, snowTree3, cx, y, cz);
  }

  /** Below 138 every cell of a filled chunk holds what its own column
      loops put there. */
  lemma FillBelowSea(w: Snapshot, f: Field, x: int32, z: int32, rnd: Draws, n: nat, snowTree3: SnowTree3, dx: int, dz: int, cx: int32, y: int32, cz: int32)
    requires Fits(x, z) && Heights(f, x, z) && SnowTree3Rises(snowTree3)
    requires 0 <= dx < 16 && 0 <= dz < 16 && cx == x + dx && cz == z + dz && y < 138
    ensures BlockIn(Stamp(w, FillWrites(f, x, z, rnd, n, snowTree3).0), cx, y, cz)
      == BlockIn(Stamp(w, ColumnPassAt(f, x, z, dx, dz, rnd, FillTo(f, x, z, rnd, n, snowTree3, dx, dz).1).0), cx, y, cz)
  {
    var all := FillWrites(f, x, z, rnd, n, snowTree3).0;
    var own := ColumnPassAt(f, x, z, dx, dz, rnd, FillTo(f, x, z, rnd, n, snowTree3, dx, dz).1).0;
    FillLastBelowSea(f, x, z, rnd, n, snowTree3, dx, dz, cx, y, cz);
    StampSameLast(w, all, own, cx, y, cz);
  }
}
