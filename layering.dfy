/** The rules that decide what material each cell of a freshly generated
    column holds: biome choice, layering by height, caves, ores and the
    sea. Noise values arrive as inputs; `rand()` is a stream of draws. */
module Layering {
  import opened Blocks

  /** The biomes, in the order of the source enum. */
  datatype BiomeType = Mountain | Grassland | Desert | SnowyPlains

  /** The C library's `rand()`: the n-th value it returns. */
  type Draws = nat -> nat

  /** `rand() % 100` for the n-th draw. */
  function Percent(rnd: Draws, n: nat): (r: nat)
    ensures r < 100
  {
    rnd(n) % 100
  }

  /** The biome of a column: the four quadrants of the moisture and
      temperature square, split at 0.5 on each axis. */
  function GetBiomeType(moisture: real, temp: real): (b: BiomeType)
    ensures b == Mountain <==> moisture < 0.5 && temp < 0.5
    ensures b == Desert <==> moisture < 0.5 && temp >= 0.5
    ensures b == SnowyPlains <==> moisture >= 0.5 && temp < 0.5
    ensures b == Grassland <==> moisture >= 0.5 && temp >= 0.5
  {
    if moisture < 0.5 then
      (if temp < 0.5 then Mountain else Desert)
    else
      (if temp < 0.5 then SnowyPlains else Grassland)
  }

  /** Mountain surface: snow caps on peaks at height 200 and above. */
  function GetMountainBlock(y: int, top: int): (r: BlockType)
    ensures r == Snow <==> y == top && top >= 200
    ensures r == Snow || r == Stone
  {
    if y == top && top >= 200 then Snow else Stone
  }

  /** The layered material at height y of a column whose surface is at top. */
  function GetBlockType(b: BiomeType, y: int, top: int): BlockType {
    if y == 0 then Bedrock
    else if y <= 25 then Lava
    else if y <= 135 then Stone
    else if b == SnowyPlains then (if y == top then SnowDirt else Dirt)
    else if b == Mountain then GetMountainBlock(y, top)
    else if b == Desert then Sand
    else (if y == top then Grass else Dirt)
  }

  /** The bottom layers are the same in every biome: bedrock at 0, lava
      from 1 to 25, stone from 26 to 135. */
  lemma {:induction false} BedrockLavaStone(b: BiomeType, y: int, top: int)
    requires 0 <= y <= 135
    ensures GetBlockType(b, y, top) == Bedrock <==> y == 0
    ensures GetBlockType(b, y, top) == Lava <==> 1 <= y <= 25
    ensures GetBlockType(b, y, top) == Stone <==> 26 <= y <= 135
  {
  }

  /** Above the stone the biome decides: the surface cell gets the biome's
      surface material (snowy dirt, grass, sand, or snow on peaks from 200
      up), the cells below it dirt, sand or stone. */
  lemma {:induction false} UpperLayers(b: BiomeType, y: int, top: int)
    requires 135 < y
    ensures var r := GetBlockType(b, y, top);
      && (r == SnowDirt <==> b == SnowyPlains && y == top)
      && (r == Grass <==> b == Grassland && y == top)
      && (r == Dirt <==> (b == SnowyPlains || b == Grassland) && y != top)
      && (r == Sand <==> b == Desert)
      && (r == Snow <==> b == Mountain && y == top && top >= 200)
      && (r == Stone <==> b == Mountain && !(y == top && top >= 200))
  {
  }

  /** Layering only yields terrain materials: never EMPTY, water, ice, a
      plant, an ore or a decoration. */
  lemma {:induction false} LayersAreTerrain(b: BiomeType, y: int, top: int)
    ensures GetBlockType(b, y, top) in {Bedrock, Lava, Stone, SnowDirt, Dirt, Snow, Sand, Grass}
  {
  }

  /** `makeCaves`: the cave noise is consulted only for 130 <= y < 150. */
  function MakeCaves(caveNoise: (int, int, int) -> real, x: int, y: int, z: int): (r: bool)
    ensures r ==> 130 <= y < 150
  {
    if 130 <= y < 150 then caveNoise(x, y, z) >= 25.0 else false
  }

  /** The four ores. */
  predicate IsOre(k: BlockType) {
    k == Coal || k == Copper || k == Gold || k == Lapis
  }

  /** The ore chosen by a second draw. */
  function Ore(r: nat): BlockType {
    if r < 85 then Coal else if r < 95 then Copper else if r < 98 then Gold else Lapis
  }

  /** What one step of the main fill loop writes, and how many draws it
      takes. */
  datatype Pick = Pick(block: BlockType, draws: nat)

  /** The main fill loop at height y, with the draws r1 and r2 that come next
      in the stream: a mountain cave cell is EMPTY (LAVA if the layer is lava)
      and takes no draw; otherwise r1 < 80 keeps the layered material, a
      mountain turns to gravel for r1 < 98, and the rest take a second draw
      that places an ore in a mountain between heights 28 and 139. */
  function PickCell(b: BiomeType, y: int, top: int, cave: bool, r1: nat, r2: nat): Pick {
    if cave && b == Mountain then
      Pick(if GetBlockType(b, y, top) == Lava then Lava else Empty, 0)
    else if r1 < 80 then Pick(GetBlockType(b, y, top), 1)
    else if b == Mountain && r1 < 98 then Pick(Gravel, 1)
    else if b == Mountain && y < 140 && y > 27 then Pick(Ore(r2), 2)
    else Pick(GetBlockType(b, y, top), 2)
  }

  /** Whatever the draws, a cell outside the mountains gets its layered
      material. */
  lemma {:induction false} PickOutsideMountains(b: BiomeType, y: int, top: int, cave: bool, r1: nat, r2: nat)
    requires b != Mountain
    ensures PickCell(b, y, top, cave, r1, r2).block == GetBlockType(b, y, top)
  {
  }

  /** Gravel and ores appear only in mountains, and ores only strictly
      between heights 27 and 140. */
  lemma {:induction false} PickMineralsOnlyInMountains(b: BiomeType, y: int, top: int, cave: bool, r1: nat, r2: nat)
    ensures var r := PickCell(b, y, top, cave, r1, r2).block;
      && (r == Gravel ==> b == Mountain)
      && (IsOre(r) ==> b == Mountain && 27 < y < 140)
  {
    LayersAreTerrain(b, y, top);
  }

  /** Mountain cave cells are always EMPTY and take no draw: caves lie in
      heights 130 to 149, far above the lava layer, so the branch that keeps
      lava in a cave never applies. */
  lemma {:induction false} CaveCellsEmpty(caveNoise: (int, int, int) -> real, x: int, y: int, z: int, top: int, r1: nat, r2: nat)
    requires MakeCaves(caveNoise, x, y, z)
    ensures PickCell(Mountain, y, top, true, r1, r2) == Pick(Empty, 0)
  {
  }

  /** The cells the main loop writes at heights 0 .. k-1 of a column, and the
      stream position after them. */
  function MainLoop(b: BiomeType, top: int, cave: int -> bool, rnd: Draws, n: nat, k: nat): (res: (seq<BlockType>, nat))
    ensures |res.0| == k && res.1 >= n
  {
    if k == 0 then ([], n)
    else
      var prev := MainLoop(b, top, cave, rnd, n, k - 1);
      var p := PickCell(b, k - 1, top, cave(k - 1), Percent(rnd, prev.1), Percent(rnd, prev.1 + 1));
      (prev.0 + [p.block], prev.1 + p.draws)
  }

  /** One step more of the main loop: the pick at height k from the stream
      position the steps below it reached. */
  lemma {:induction false} MainLoopNext(b: BiomeType, top: int, cave: int -> bool, rnd: Draws, n: nat, k: nat)
    ensures var prev := MainLoop(b, top, cave, rnd, n, k);
      var p := PickCell(b, k, top, cave(k), Percent(rnd, prev.1), Percent(rnd, prev.1 + 1));
      MainLoop(b, top, cave, rnd, n, k + 1) == (prev.0 + [p.block], prev.1 + p.draws)
  {
  }

  /** Later steps of the main loop never change the cells already
      written: the cells of the first j steps start the cells of k steps. */
  lemma {:induction false} MainLoopPrefix(b: BiomeType, top: int, cave: int -> bool, rnd: Draws, n: nat, k: nat, j: nat)
    requires j <= k
    ensures MainLoop(b, top, cave, rnd, n, k).0[..j] == MainLoop(b, top, cave, rnd, n, j).0
  {
    if j < k {
      MainLoopPrefix(b, top, cave, rnd, n, k - 1, j);
      var prev := MainLoop(b, top, cave, rnd, n, k - 1).0;
      assert MainLoop(b, top, cave, rnd, n, k).0[..k - 1] == prev;
    }
  }

  /** Cell y is the pick at height y from the stream position reached
      after the cells below it. */
  lemma {:induction false} MainLoopCell(b: BiomeType, top: int, cave: int -> bool, rnd: Draws, n: nat, k: nat, y: nat)
    requires y < k
    ensures var m := MainLoop(b, top, cave, rnd, n, y).1;
      MainLoop(b, top, cave, rnd, n, k).0[y]
      == PickCell(b, y, top, cave(y), Percent(rnd, m), Percent(rnd, m + 1)).block
  {
    var cells := MainLoop(b, top, cave, rnd, n, k).0;
    var first := MainLoop(b, top, cave, rnd, n, y + 1).0;
    MainLoopPrefix(b, top, cave, rnd, n, k, y + 1);
    assert cells[y] == cells[..y + 1][y] == first[y];
    MainLoopNext(b, top, cave, rnd, n, y);
  }

  /** Outside the mountains the main loop writes exactly the layered
      materials, whatever the draws. */
  lemma {:induction false} MainLoopOutsideMountains(b: BiomeType, top: int, cave: int -> bool, rnd: Draws, n: nat, k: nat, y: nat)
    requires b != Mountain && y < k
    ensures MainLoop(b, top, cave, rnd, n, k).0[y] == GetBlockType(b, y, top)
  {
    MainLoopCell(b, top, cave, rnd, n, k, y);
    var m := MainLoop(b, top, cave, rnd, n, y).1;
    PickOutsideMountains(b, y, top, cave(y), Percent(rnd, m), Percent(rnd, m + 1));
  }

  /** The sea: a column whose surface is below 138 is flooded from its
      surface up to 138, with ice in the snowy plains and water elsewhere. */
  function SeaBlock(b: BiomeType): BlockType {
    if b == SnowyPlains then Ice else Water
  }

  /** The material of cell y of a generated column once its three loops
      have run (lava layer, main loop over 0 .. top, sea), given the cell
      before and the main loop's cells. */
  function ColumnCell(b: BiomeType, top: int, main: seq<BlockType>, before: BlockType, y: int): BlockType
    requires top >= 0 && |main| == top + 1
  {
    if top < 138 && top <= y <= 138 then SeaBlock(b)
    else if 0 <= y <= top then main[y]
    else if 0 <= y <= 25 then Lava
    else before
  }

  /** A column below sea level is water (ice in the snowy plains) from its
      surface to 138; a column at or above it keeps its main-loop cells up
      to its surface. */
  lemma {:induction false} ColumnSea(b: BiomeType, top: int, main: seq<BlockType>, before: BlockType, y: int)
    requires top >= 0 && |main| == top + 1
    ensures top < 138 && top <= y <= 138 ==> ColumnCell(b, top, main, before, y) in {Water, Ice}
    ensures top < 138 && top <= y <= 138 ==> (ColumnCell(b, top, main, before, y) == Ice <==> b == SnowyPlains)
    ensures 0 <= y <= top && (top >= 138 || y < top) ==> ColumnCell(b, top, main, before, y) == main[y]
    ensures y > 138 && y > top ==> ColumnCell(b, top, main, before, y) == before
  {
  }

  /** The main loop puts gravel only in the mountains, and ores only in
      the mountains strictly between heights 27 and 140. */
  lemma {:induction false} MainLoopMinerals(b: BiomeType, top: int, cave: int -> bool, rnd: Draws, n: nat, k: nat, y: nat)
    requires y < k
    ensures var c := MainLoop(b, top, cave, rnd, n, k).0[y];
      && (c == Gravel ==> b == Mountain)
      && (IsOre(c) ==> b == Mountain && 27 < y < 140)
  {
    MainLoopCell(b, top, cave, rnd, n, k, y);
    var m := MainLoop(b, top, cave, rnd, n, y).1;
    PickMineralsOnlyInMountains(b, y, top, cave(y), Percent(rnd, m), Percent(rnd, m + 1));
  }

  /** Below the surface a column holds the sea or its main-loop cell, so
      it has gravel or ore only where the main loop put them. */
  lemma {:induction false} ColumnCellBelowTop(b: BiomeType, top: int, main: seq<BlockType>, before: BlockType, y: int)
    requires |main| == top + 1 && 0 <= y <= top
    requires main[y] == Gravel ==> b == Mountain
    requires IsOre(main[y]) ==> b == Mountain && 27 < y < 140
    ensures var c := ColumnCell(b, top, main, before, y);
      && (c == Gravel ==> b == Mountain)
      && (IsOre(c) ==> b == Mountain && 27 < y < 140)
  {
    if top < 138 && y == top {
      assert ColumnCell(b, top, main, before, y) == SeaBlock(b);
    } else {
      assert ColumnCell(b, top, main, before, y) == main[y];
    }
  }

  /** Below the surface a column holds gravel only in the mountains, and
      ores only in the mountains strictly between heights 27 and 140. */
  lemma {:induction false} ColumnCellMinerals(b: BiomeType, top: int, cave: int -> bool, rnd: Draws, n: nat, before: BlockType, y: int)
    requires 0 <= y <= top
    ensures var c := ColumnCell(b, top, MainLoop(b, top, cave, rnd, n, top + 1).0, before, y);
      && (c == Gravel ==> b == Mountain)
      && (IsOre(c) ==> b == Mountain && 27 < y < 140)
  {
    MainLoopMinerals(b, top, cave, rnd, n, top + 1, y);
    ColumnCellBelowTop(b, top, MainLoop(b, top, cave, rnd, n, top + 1).0, before, y);
  }

  /** Outside the mountains a column holds exactly the layered materials
      from 0 to its surface, whatever the draws (the surface cell of a
      column below 138 is flooded). */
  lemma {:induction false} ColumnCellOutsideMountains(b: BiomeType, top: int, cave: int -> bool, rnd: Draws, n: nat, before: BlockType, y: int)
    requires b != Mountain && 0 <= y <= top && (top >= 138 || y < top)
    ensures ColumnCell(b, top, MainLoop(b, top, cave, rnd, n, top + 1).0, before, y) == GetBlockType(b, y, top)
  {
    MainLoopOutsideMountains(b, top, cave, rnd, n, top + 1, y);
  }

  /** The main loop leaves every mountain cell the cave noise hollows out
      EMPTY (caves lie far above the lava). */
  lemma {:induction false} MainLoopCaves(caveNoise: (int, int, int) -> real, x: int, z: int, top: int, cave: int -> bool, rnd: Draws, n: nat, k: nat, y: nat)
    requires y < k && cave(y) && MakeCaves(caveNoise, x, y, z)
    ensures MainLoop(Mountain, top, cave, rnd, n, k).0[y] == Empty
  {
    MainLoopCell(Mountain, top, cave, rnd, n, k, y);
    var m := MainLoop(Mountain, top, cave, rnd, n, y).1;
    CaveCellsEmpty(caveNoise, x, y, z, top, Percent(rnd, m), Percent(rnd, m + 1));
  }

  /** A mountain cell the cave noise hollows out, below the surface, is
      EMPTY. */
  lemma {:induction false} ColumnCellCaves(caveNoise: (int, int, int) -> real, x: int, z: int, top: int, cave: int -> bool, rnd: Draws, n: nat, before: BlockType, y: int)
    requires 0 <= y <= top && (top >= 138 || y < top)
    requires cave(y) && MakeCaves(caveNoise, x, y, z)
    ensures ColumnCell(Mountain, top, MainLoop(Mountain, top, cave, rnd, n, top + 1).0, before, y) == Empty
  {
    MainLoopCaves(caveNoise, x, z, top, cave, rnd, n, top + 1, y);
  }
}
