/** Decoration stamps: trees, cacti and ground patches written into the
    terrain around an anchor block, one `setBlockSafe` at a time. Each
    generator is specified by the list of writes it makes, in order; the
    cells a list leaves behind are those of its last write to each
    position. */
module Assets {
  import opened Wrappers
  import opened Machine
  import opened Blocks
  import opened Grid
  import opened Keys
  import opened Chunks
  import opened World
  import opened Layering

  /** One `setBlockSafe(x, y, z, block)`. */
  datatype Write = Write(x: int32, y: int32, z: int32, block: BlockType)

  /** A write on a snapshot: the checked write of the corrected
      `setBlockSafe`. */
  function Apply(w: Snapshot, wr: Write): (r: Snapshot)
  {
    Put(w, wr.x, wr.y, wr.z, wr.block)
  }

  /** The snapshot after a list of writes, made in order. */
  function Stamp(w: Snapshot, ws: seq<Write>): (r: Snapshot)
  {
    if ws == [] then w else Apply(Stamp(w, ws[..|ws| - 1]), ws[|ws| - 1])
  }

  /** The block of the last write of a list to position (x, y, z), if any. */
  function LastWrite(ws: seq<Write>, x: int, y: int, z: int): Option<BlockType> {
    if ws == [] then None
    else if ws[|ws| - 1].x == x && ws[|ws| - 1].y == y && ws[|ws| - 1].z == z then Some(ws[|ws| - 1].block)
    else LastWrite(ws[..|ws| - 1], x, y, z)
  }

  /** One write more. */
  lemma {:induction false} StampSnoc(w: Snapshot, ws: seq<Write>, wr: Write)
    ensures Stamp(w, ws + [wr]) == Apply(Stamp(w, ws), wr)
  {
    assert (ws + [wr])[..|ws|] == ws;
  }

  /** Writing two lists in turn is writing their concatenation. */
  lemma {:induction false} StampAppend(w: Snapshot, a: seq<Write>, b: seq<Write>)
    ensures Stamp(w, a + b) == Stamp(Stamp(w, a), b)
    decreases |b|
  {
    if b != [] {
      var init := b[..|b| - 1];
      StampAppend(w, a, init);
      assert (a + b)[..|a + b| - 1] == a + init;
    } else {
      assert a + b == a;
    }
  }

  /** The last write to a position in a concatenation is the second list's
      when it has one, else the first list's. */
  lemma {:induction false} LastWriteAppend(a: seq<Write>, b: seq<Write>, x: int, y: int, z: int)
    ensures LastWrite(a + b, x, y, z) == if LastWrite(b, x, y, z).Some? then LastWrite(b, x, y, z) else LastWrite(a, x, y, z)
    decreases |b|
  {
    if b != [] {
      var init := b[..|b| - 1];
      LastWriteAppend(a, init, x, y, z);
      assert (a + b)[..|a + b| - 1] == a + init;
    } else {
      assert a + b == a;
    }
  }

  /** Later writes overwrite earlier ones: after a list of writes, a cell
      holds the block of the last write to it, when a chunk covers its
      column and its height is in range, and what it held before
      otherwise. */
  lemma {:induction false} StampCell(w: Snapshot, ws: seq<Write>, x: int32, y: int32, z: int32)
    ensures BlockIn(Stamp(w, ws), x, y, z) ==
      if LastWrite(ws, x, y, z).Some? && CornerKey(x, z) in w && 0 <= y < ChunkHeight
      then Ok(LastWrite(ws, x, y, z).value)
      else BlockIn(w, x, y, z)
  {
    if ws != [] {
      var init := ws[..|ws| - 1];
      var wr := ws[|ws| - 1];
      StampCell(w, init, x, y, z);
      PutThenGet(Stamp(w, init), wr.x, wr.y, wr.z, wr.block, x, y, z);
    }
  }

  /** Two lists of writes with the same last write to a cell leave the
      same block there. */
  lemma StampSameLast(w: Snapshot, a: seq<Write>, b: seq<Write>, x: int32, y: int32, z: int32)
    requires LastWrite(a, x, y, z) == LastWrite(b, x, y, z)
    ensures BlockIn(Stamp(w, a), x, y, z) == BlockIn(Stamp(w, b), x, y, z)
  {
    StampCell(w, a, x, y, z);
    StampCell(w, b, x, y, z);
  }

  /** Writes never add or remove a chunk key. */
  lemma {:induction false} StampKeepsKey(w: Snapshot, ws: seq<Write>, k: int64)
    ensures k in Stamp(w, ws) <==> k in w
  {
    if ws != [] {
      StampKeepsKey(w, ws[..|ws| - 1], k);
    }
  }

  /** Every cell of a layer below all the writes of a list keeps its block. */
  lemma {:induction false} StampKeepsBelow(w: Snapshot, ws: seq<Write>, floor: int, k: int64, i: nat)
    requires forall j :: 0 <= j < |ws| ==> ws[j].y >= floor
    requires k in w && i < ChunkCells && CellY(i) < floor
    ensures k in Stamp(w, ws) && Stamp(w, ws)[k][i] == w[k][i]
  {
    if ws != [] {
      var init := ws[..|ws| - 1];
      var wr := ws[|ws| - 1];
      StampKeepsBelow(w, init, floor, k, i);
      StampKeepsKey(w, init, k);
      PutKeepsLowerLayers(Stamp(w, init), wr.x, wr.y, wr.z, wr.block, k, i);
    }
  }

  /** `setBlockSafe` as written: when a chunk covers the column it writes
      through the chunk's unsigned local coordinates with no height check,
      so the write may land in another cell of the chunk or throw; without
      a covering chunk it does nothing. */
  method SetBlockSafeAsWritten(t: Terrain, x: int32, y: int32, z: int32, b: BlockType) returns (r: Outcome)
    requires t.Valid()
    modifies t.Arrays()
    ensures PutUnchecked(old(t.Contents()), x, y, z, b) == if r.Pass? then Ok(t.Contents()) else Err(OutOfRange)
  {
    if t.HasChunkAt(x, z) {
      r := t.WriteCell(x, y, z, b);
    } else {
      r := Pass;
    }
  }

  /** `setBlockSafe` with the height check it needs: the cell at (x, y, z)
      becomes b when a chunk covers the column and y is in range, and
      nothing changes otherwise. */
  method SetBlockSafe(t: Terrain, x: int32, y: int32, z: int32, b: BlockType)
    requires t.Valid()
    modifies t.Arrays()
    ensures t.Contents() == Put(old(t.Contents()), x, y, z, b)
  {
    if t.HasChunkAt(x, z) && 0 <= y < ChunkHeight {
      PutUncheckedInRange(t.Contents(), x, y, z, b);
      var _ := t.WriteCell(x, y, z, b);
    }
  }

  /** One `setBlockSafe` call of a generator whose earlier calls made the
      writes `done`: afterwards the terrain holds the stamp of one write more. */
  method StampWrite(t: Terrain, ghost w0: Snapshot, ghost done: seq<Write>, wr: Write)
    requires t.Valid() && t.Contents() == Stamp(w0, done)
    modifies t.Arrays()
    ensures t.Contents() == Stamp(w0, done + [wr])
  {
    StampSnoc(w0, done, wr);
    SetBlockSafe(t, wr.x, wr.y, wr.z, wr.block);
  }

  /** Anchor positions whose decorations stay inside C++ `int`: up to three
      columns sideways and twenty layers up. */
  predicate Room(x: int, y: int, z: int) {
    && -0x8000_0000 + 3 <= x < 0x8000_0000 - 3
    && -0x8000_0000 + 3 <= z < 0x8000_0000 - 3
    && -0x8000_0000 <= y < 0x8000_0000 - 20
  }

  /** A vertical run: b at (x, y, z) for y = y0 .. top - 1, bottom up. */
  function Run(x: int32, z: int32, y0: int32, top: int, b: BlockType): (r: seq<Write>)
    requires top <= 0x8000_0000
    ensures |r| == if top <= y0 then 0 else top - y0
    decreases top - y0
  {
    if top <= y0 then [] else Run(x, z, y0, top - 1, b) + [Write(x, top - 1, z, b)]
  }


  /** A run writes b exactly at the cells from y0 below top in column
      (x, z). */
  lemma {:induction false} RunLast(x: int32, z: int32, y0: int32, top: int, b: BlockType, px: int, py: int, pz: int)
    requires top <= 0x8000_0000
    ensures LastWrite(Run(x, z, y0, top, b), px, py, pz) == if px == x && pz == z && y0 <= py < top then Some(b) else None
    decreases top - y0
  {
    if top > y0 {
      RunLast(x, z, y0, top - 1, b, px, py, pz);
      LastWriteSnoc(Run(x, z, y0, top - 1, b), Write(x, top - 1, z, b), px, py, pz);
    }
  }

  /** Every write of a run is at height y0 or above. */
  lemma {:induction false} RunAbove(x: int32, z: int32, y0: int32, top: int, b: BlockType)
    requires top <= 0x8000_0000
    ensures forall j :: 0 <= j < |Run(x, z, y0, top, b)| ==> Run(x, z, y0, top, b)[j].y >= y0
    decreases top - y0
  {
    if top > y0 {
      RunAbove(x, z, y0, top - 1, b);
      assert forall j :: 0 <= j < top - 1 - y0 ==> Run(x, z, y0, top, b)[j] == Run(x, z, y0, top - 1, b)[j];
    }
  }

  /** Writes b up column (x, z) from y0 to below top, as the trunk loops
      do. */
  method StampRun(t: Terrain, x: int32, z: int32, y0: int32, top: int32, b: BlockType)
    requires t.Valid() && y0 <= top
    modifies t.Arrays()
    ensures t.Contents() == Stamp(old(t.Contents()), Run(x, z, y0, top, b))
  {
    ghost var w0 := t.Contents();
    ghost var done: seq<Write> := [];
    for i := y0 to top
      invariant done == Run(x, z, y0, i, b)
      invariant t.Contents() == Stamp(w0, done)
    {
      StampWrite(t, w0, done, Write(x, i, z, b));
      done := done + [Write(x, i, z, b)];
    }
    assert t.Contents() == Stamp(w0, Run(x, z, y0, top, b));
    assert w0 == old(t.Contents());
  }

  /** Columns whose neighbours three steps away are still C++ `int`
      values. */
  predicate Span(x: int, z: int) {
    -0x8000_0000 + 3 <= x < 0x8000_0000 - 3 && -0x8000_0000 + 3 <= z < 0x8000_0000 - 3
  }

  /** The leaf writes of one cell (dx, dz) of a square: b at height y1
      when the cell is within Manhattan distance r1 of the centre, then b
      at height y2 when it is within r2. */
  function CellWrites(x: int32, z: int32, dx: int, dz: int, r1: int, y1: int32, r2: int, y2: int32, b: BlockType): seq<Write>
    requires Span(x, z) && -3 <= dx <= 3 && -3 <= dz <= 3
  {
    (if Abs(dx) + Abs(dz) <= r1 then [Write(x + dx, y1, z + dz, b)] else [])
    + (if Abs(dx) + Abs(dz) <= r2 then [Write(x + dx, y2, z + dz, b)] else [])
  }

  /** The leaf writes of the cells dz = -r .. top - 1 of row dx of the
      square of radius r. */
  function RowWrites(x: int32, z: int32, r: int, dx: int, top: int, r1: int, y1: int32, r2: int, y2: int32, b: BlockType): seq<Write>
    requires Span(x, z) && r <= 3 && -3 <= dx <= 3 && top <= r + 1
    decreases top + r
  {
    if top <= -r then [] else RowWrites(x, z, r, dx, top - 1, r1, y1, r2, y2, b) + CellWrites(x, z, dx, top - 1, r1, y1, r2, y2, b)
  }


  /** The leaf writes of the rows dx = -r .. top - 1 of the square of
      radius r; a negative radius has no rows. */
  function SquareWrites(x: int32, z: int32, r: int, top: int, r1: int, y1: int32, r2: int, y2: int32, b: BlockType): seq<Write>
    requires Span(x, z) && r <= 3 && (top <= -r || top <= r + 1)
    decreases top + r
  {
    if top <= -r then [] else SquareWrites(x, z, r, top - 1, r1, y1, r2, y2, b) + RowWrites(x, z, r, top - 1, r + 1, r1, y1, r2, y2, b)
  }


  /** The leaf loops of the trees: over the square of radius r around
      column (x, z), row by row, b at height y1 within distance r1 and at
      height y2 within r2. A negative radius writes nothing. */
  function Leaves(x: int32, z: int32, r: int, r1: int, y1: int32, r2: int, y2: int32, b: BlockType): seq<Write>
    requires Span(x, z) && r <= 3
  {
    SquareWrites(x, z, r, r + 1, r1, y1, r2, y2, b)
  }

  /** Whether the leaf loops reach position (px, py, pz). */
  predicate InLeaves(x: int, z: int, r: int, r1: int, y1: int, r2: int, y2: int, px: int, py: int, pz: int) {
    && -r <= px - x <= r && -r <= pz - z <= r
    && ((py == y1 && Abs(px - x) + Abs(pz - z) <= r1) || (py == y2 && Abs(px - x) + Abs(pz - z) <= r2))
  }

  lemma {:induction false} CellLast(x: int32, z: int32, dx: int, dz: int, r1: int, y1: int32, r2: int, y2: int32, b: BlockType, px: int, py: int, pz: int)
    requires Span(x, z) && -3 <= dx <= 3 && -3 <= dz <= 3
    ensures LastWrite(CellWrites(x, z, dx, dz, r1, y1, r2, y2, b), px, py, pz) ==
      if px == x + dx && pz == z + dz && ((py == y1 && Abs(dx) + Abs(dz) <= r1) || (py == y2 && Abs(dx) + Abs(dz) <= r2))
      then Some(b) else None
  {
    var a := if Abs(dx) + Abs(dz) <= r1 then [Write(x + dx, y1, z + dz, b)] else [];
    var c := if Abs(dx) + Abs(dz) <= r2 then [Write(x + dx, y2, z + dz, b)] else [];
    LastWriteAppend(a, c, px, py, pz);
    if a != [] {
      assert a[..0] == [];
    }
    if c != [] {
      assert c[..0] == [];
    }
  }

  lemma {:induction false} RowLast(x: int32, z: int32, r: int, dx: int, top: int, r1: int, y1: int32, r2: int, y2: int32, b: BlockType, px: int, py: int, pz: int)
    requires Span(x, z) && r <= 3 && -3 <= dx <= 3 && top <= r + 1
    ensures LastWrite(RowWrites(x, z, r, dx, top, r1, y1, r2, y2, b), px, py, pz) ==
      if px == x + dx && -r <= pz - z < top && ((py == y1 && Abs(dx) + Abs(pz - z) <= r1) || (py == y2 && Abs(dx) + Abs(pz - z) <= r2))
      then Some(b) else None
    decreases top + r
  {
    if top > -r {
      RowLast(x, z, r, dx, top - 1, r1, y1, r2, y2, b, px, py, pz);
      LastWriteAppend(RowWrites(x, z, r, dx, top - 1, r1, y1, r2, y2, b), CellWrites(x, z, dx, top - 1, r1, y1, r2, y2, b), px, py, pz);
      CellLast(x, z, dx, top - 1, r1, y1, r2, y2, b, px, py, pz);
    }
  }

  lemma {:induction false} SquareLast(x: int32, z: int32, r: int, top: int, r1: int, y1: int32, r2: int, y2: int32, b: BlockType, px: int, py: int, pz: int)
    requires Span(x, z) && r <= 3 && (top <= -r || top <= r + 1)
    ensures LastWrite(SquareWrites(x, z, r, top, r1, y1, r2, y2, b), px, py, pz) ==
      if px - x < top && InLeaves(x, z, r, r1, y1, r2, y2, px, py, pz) then Some(b) else None
    decreases top + r
  {
    if top > -r {
      SquareLast(x, z, r, top - 1, r1, y1, r2, y2, b, px, py, pz);
      LastWriteAppend(SquareWrites(x, z, r, top - 1, r1, y1, r2, y2, b), RowWrites(x, z, r, top - 1, r + 1, r1, y1, r2, y2, b), px, py, pz);
      RowLast(x, z, r, top - 1, r + 1, r1, y1, r2, y2, b, px, py, pz);
    }
  }

  /** The leaf loops write b exactly at the positions they reach. */
  lemma {:induction false} LeavesLast(x: int32, z: int32, r: int, r1: int, y1: int32, r2: int, y2: int32, b: BlockType, px: int, py: int, pz: int)
    requires Span(x, z) && r <= 3
    ensures LastWrite(Leaves(x, z, r, r1, y1, r2, y2, b), px, py, pz) ==
      if InLeaves(x, z, r, r1, y1, r2, y2, px, py, pz) then Some(b) else None
  {
    SquareLast(x, z, r, r + 1, r1, y1, r2, y2, b, px, py, pz);
  }

  /** Writes the leaves of one cell of a square. */
  method WriteLeafCell(t: Terrain, x: int32, z: int32, dx: int, dz: int, r1: int, y1: int32, r2: int, y2: int32, b: BlockType)
    requires t.Valid() && Span(x, z) && -3 <= dx <= 3 && -3 <= dz <= 3
    modifies t.Arrays()
    ensures t.Contents() == Stamp(old(t.Contents()), CellWrites(x, z, dx, dz, r1, y1, r2, y2, b))
  {
    ghost var w0 := t.Contents();
    var distance := Abs(dx) + Abs(dz);
    ghost var done: seq<Write> := [];
    if distance <= r1 {
      StampWrite(t, w0, done, Write(x + dx, y1, z + dz, b));
      done := done + [Write(x + dx, y1, z + dz, b)];
    }
    if distance <= r2 {
      StampWrite(t, w0, done, Write(x + dx, y2, z + dz, b));
      done := done + [Write(x + dx, y2, z + dz, b)];
    }
    assert done == CellWrites(x, z, dx, dz, r1, y1, r2, y2, b);
  }

  /** One pass of the inner leaf loop: cell dz of row dx after the cells
      before it. */
  method StampRowCell(t: Terrain, ghost w0: Snapshot, x: int32, z: int32, r: int, dx: int, dz: int, r1: int, y1: int32, r2: int, y2: int32, b: BlockType)
    requires t.Valid() && Span(x, z) && 0 <= r <= 3 && -r <= dx <= r && -r <= dz <= r
    requires t.Contents() == Stamp(w0, RowWrites(x, z, r, dx, dz, r1, y1, r2, y2, b))
    modifies t.Arrays()
    ensures t.Contents() == Stamp(w0, RowWrites(x, z, r, dx, dz + 1, r1, y1, r2, y2, b))
  {
    WriteLeafCell(t, x, z, dx, dz, r1, y1, r2, y2, b);
    StampAppend(w0, RowWrites(x, z, r, dx, dz, r1, y1, r2, y2, b), CellWrites(x, z, dx, dz, r1, y1, r2, y2, b));
  }

  /** The inner leaf loop: every cell dz of row dx of the square of
      radius r. */
  method StampRow(t: Terrain, x: int32, z: int32, r: int, dx: int, r1: int, y1: int32, r2: int, y2: int32, b: BlockType)
    requires t.Valid() && Span(x, z) && 0 <= r <= 3 && -r <= dx <= r
    modifies t.Arrays()
    ensures t.Contents() == Stamp(old(t.Contents()), RowWrites(x, z, r, dx, r + 1, r1, y1, r2, y2, b))
  {
    ghost var w0 := t.Contents();
    var dz := -r;
    while dz <= r
      invariant -r <= dz <= r + 1
      invariant t.Contents() == Stamp(w0, RowWrites(x, z, r, dx, dz, r1, y1, r2, y2, b))
      decreases r - dz
    {
      StampRowCell(t, w0, x, z, r, dx, dz, r1, y1, r2, y2, b);
      dz := dz + 1;
    }
    assert w0 == old(t.Contents());
  }

  /** One pass of the outer leaf loop: row dx after the rows before it. */
  method StampSquareRow(t: Terrain, ghost w0: Snapshot, x: int32, z: int32, r: int, dx: int, r1: int, y1: int32, r2: int, y2: int32, b: BlockType)
    requires t.Valid() && Span(x, z) && 0 <= r <= 3 && -r <= dx <= r
    requires t.Contents() == Stamp(w0, SquareWrites(x, z, r, dx, r1, y1, r2, y2, b))
    modifies t.Arrays()
    ensures t.Contents() == Stamp(w0, SquareWrites(x, z, r, dx + 1, r1, y1, r2, y2, b))
  {
    StampRow(t, x, z, r, dx, r1, y1, r2, y2, b);
    StampAppend(w0, SquareWrites(x, z, r, dx, r1, y1, r2, y2, b), RowWrites(x, z, r, dx, r + 1, r1, y1, r2, y2, b));
  }

  /** The leaf loops of the trees: every row dx of the square of radius r,
      every cell dz of the row. */
  method StampLeaves(t: Terrain, x: int32, z: int32, r: int, r1: int, y1: int32, r2: int, y2: int32, b: BlockType)
    requires t.Valid() && Span(x, z) && r <= 3
    modifies t.Arrays()
    ensures t.Contents() == Stamp(old(t.Contents()), Leaves(x, z, r, r1, y1, r2, y2, b))
  {
    ghost var w0 := t.Contents();
    var dx := -r;
    while dx <= r
      invariant -r <= dx && (r >= 0 ==> dx <= r + 1) && (r < 0 ==> dx == -r)
      invariant t.Contents() == Stamp(w0, SquareWrites(x, z, r, dx, r1, y1, r2, y2, b))
      decreases r - dx
    {
      StampSquareRow(t, w0, x, z, r, dx, r1, y1, r2, y2, b);
      dx := dx + 1;
    }
    assert SquareWrites(x, z, r, dx, r1, y1, r2, y2, b) == Leaves(x, z, r, r1, y1, r2, y2, b);
    assert w0 == old(t.Contents());
  }

  /** Manhattan distance between columns (x, z) and (px, pz). */
  function Distance(x: int, z: int, px: int, pz: int): nat {
    Abs(px - x) + Abs(pz - z)
  }

  /** The shape the two default trees share: a WOOD trunk up column (x, z)
      from y below trunkTop, the leaf loops of radius r, and one leaf at
      height peak over the centre. */
  function Crown(x: int32, z: int32, y: int32, trunkTop: int32, r: int, r1: int, y1: int32, r2: int, y2: int32, leaf: BlockType, peak: int32): seq<Write>
    requires Span(x, z) && r <= 3
  {
    Run(x, z, y, trunkTop, Wood) + Leaves(x, z, r, r1, y1, r2, y2, leaf) + [Write(x, peak, z, leaf)]
  }

  /** The writes of `generateDefaultTree` (LEAF) and `generateDefaultSnowTree`
      (SNOW_LEAF): a trunk of four WOOD cells from y, a radius-2 leaf
      diamond at y + 3 and a radius-1 diamond at y + 4 (both from the same
      5 x 5 loop), and one leaf on top at y + 5. */
  function TreeWrites(x: int32, y: int32, z: int32, leaf: BlockType): seq<Write>
    requires Room(x, y, z)
  {
    Crown(x, z, y, y + 4, 2, 2, y + 3, 1, y + 4, leaf, y + 5)
  }

  /** The writes of `generateDefaultTree2`: six WOOD cells from y, the 3 x 3
      loop placing leaves within distance 2 (all nine cells) at y + 4 and
      within distance 1 at y + 5, and one leaf on top at y + 6. */
  function Tree2Writes(x: int32, y: int32, z: int32): seq<Write>
    requires Room(x, y, z)
  {
    Crown(x, z, y, y + 6, 1, 2, y + 4, 1, y + 5, Leaf, y + 6)
  }

  /** The last write of a list that ends with one more write. */
  lemma {:induction false} LastWriteSnoc(ws: seq<Write>, wr: Write, px: int, py: int, pz: int)
    ensures LastWrite(ws + [wr], px, py, pz) ==
      if wr.x == px && wr.y == py && wr.z == pz then Some(wr.block) else LastWrite(ws, px, py, pz)
  {
    assert (ws + [wr])[..|ws|] == ws;
  }

  /** Where the shared tree shape leaves which block: the peak leaf, then
      the cells the leaf loops reach, then the trunk; later writes win. */
  lemma {:induction false} CrownLast(x: int32, z: int32, y: int32, trunkTop: int32, r: int, r1: int, y1: int32, r2: int, y2: int32, leaf: BlockType, peak: int32, px: int, py: int, pz: int)
    requires Span(x, z) && r <= 3
    ensures LastWrite(Crown(x, z, y, trunkTop, r, r1, y1, r2, y2, leaf, peak), px, py, pz) ==
      if px == x && pz == z && py == peak then Some(leaf)
      else if InLeaves(x, z, r, r1, y1, r2, y2, px, py, pz) then Some(leaf)
      else if px == x && pz == z && y <= py < trunkTop then Some(Wood)
      else None
  {
    var trunk := Run(x, z, y, trunkTop, Wood);
    var leaves := Leaves(x, z, r, r1, y1, r2, y2, leaf);
    LastWriteSnoc(trunk + leaves, Write(x, peak, z, leaf), px, py, pz);
    LastWriteAppend(trunk, leaves, px, py, pz);
    LeavesLast(x, z, r, r1, y1, r2, y2, leaf, px, py, pz);
    RunLast(x, z, y, trunkTop, Wood, px, py, pz);
  }

  /** The 5 x 5 leaf loops of the default tree reach 13 cells within
      distance 2 at y + 3 and 5 cells within distance 1 at y + 4. */
  lemma TreeLeavesIn(x: int32, y: int32, z: int32, px: int, py: int, pz: int)
    ensures InLeaves(x, z, 2, 2, y + 3, 1, y + 4, px, py, pz) <==>
      (py == y + 3 && Distance(x, z, px, pz) <= 2) || (py == y + 4 && Distance(x, z, px, pz) <= 1)
  {
  }

  /** Where the default tree leaves which block: the top leaf over the
      centre, then the leaf diamonds (13 cells within distance 2 at y + 3,
      5 cells within distance 1 at y + 4), then the trunk. The trunk runs
      from y to y + 3, so only its top cell, at y + 3, is overwritten by a
      leaf. */
  lemma {:induction false} TreeShape(x: int32, y: int32, z: int32, leaf: BlockType, px: int, py: int, pz: int)
    requires Room(x, y, z)
    ensures LastWrite(TreeWrites(x, y, z, leaf), px, py, pz) ==
      if px == x && pz == z && py == y + 5 then Some(leaf)
      else if (py == y + 3 && Distance(x, z, px, pz) <= 2) || (py == y + 4 && Distance(x, z, px, pz) <= 1) then Some(leaf)
      else if px == x && pz == z && y <= py < y + 4 then Some(Wood)
      else None
  {
    CrownLast(x, z, y, y + 4, 2, 2, y + 3, 1, y + 4, leaf, y + 5, px, py, pz);
    TreeLeavesIn(x, y, z, px, py, pz);
  }

  /** The centre column of a default tree ends as WOOD from y to y + 2 and
      leaves from y + 3 to y + 5. */
  lemma {:induction false} TreeCentreColumn(x: int32, y: int32, z: int32, leaf: BlockType, k: int)
    requires Room(x, y, z) && 0 <= k < 6
    ensures LastWrite(TreeWrites(x, y, z, leaf), x, y + k, z) == if k < 3 then Some(Wood) else Some(leaf)
  {
    TreeShape(x, y, z, leaf, x, y + k, z);
  }

  /** The 3 x 3 leaf loops of the second tree reach all nine cells at
      y + 4 and the five cells within distance 1 at y + 5. */
  lemma Tree2LeavesIn(x: int32, y: int32, z: int32, px: int, py: int, pz: int)
    ensures InLeaves(x, z, 1, 2, y + 4, 1, y + 5, px, py, pz) <==>
      (py == y + 4 && -1 <= px - x <= 1 && -1 <= pz - z <= 1) || (py == y + 5 && Distance(x, z, px, pz) <= 1)
  {
  }

  /** Where the second tree leaves which block: the top leaf at y + 6, all
      nine cells of the 3 x 3 square at y + 4, the five cells within
      distance 1 at y + 5, and the trunk; the leaves overwrite the trunk at
      y + 4 and y + 5. */
  lemma {:induction false} Tree2Shape(x: int32, y: int32, z: int32, px: int, py: int, pz: int)
    requires Room(x, y, z)
    ensures LastWrite(Tree2Writes(x, y, z), px, py, pz) ==
      if px == x && pz == z && py == y + 6 then Some(Leaf)
      else if (py == y + 4 && -1 <= px - x <= 1 && -1 <= pz - z <= 1) || (py == y + 5 && Distance(x, z, px, pz) <= 1) then Some(Leaf)
      else if px == x && pz == z && y <= py < y + 6 then Some(Wood)
      else None
  {
    CrownLast(x, z, y, y + 6, 1, 2, y + 4, 1, y + 5, Leaf, y + 6, px, py, pz);
    Tree2LeavesIn(x, y, z, px, py, pz);
  }

  /** The leaf writes of layer l of `generateDefaultSnowTree2`: when l is
      even, a diamond of radius 3 - l at height y + 4 + l; from layer 4 on
      the radius is negative and the loops write nothing. */
  function LayerStep(x: int32, y: int32, z: int32, layer: nat): seq<Write>
    requires Room(x, y, z) && layer < 15
  {
    if layer % 2 == 0 then Leaves(x, z, 3 - layer, 3 - layer, y + 4 + layer, -1, y + 4 + layer, SnowLeaf) else []
  }

  /** The leaf writes of layers 0 .. k-1. */
  function LayerWrites(x: int32, y: int32, z: int32, k: nat): seq<Write>
    requires Room(x, y, z) && k <= 15
  {
    if k == 0 then [] else LayerWrites(x, y, z, k - 1) + LayerStep(x, y, z, k - 1)
  }


  /** Leaf loops that place leaves only at height h, within distance r,
      write b exactly on the diamond of radius r at that height. */
  lemma {:induction false} DiamondLast(x: int32, z: int32, r: int, h: int32, b: BlockType, px: int, py: int, pz: int)
    requires Span(x, z) && r <= 3
    ensures LastWrite(Leaves(x, z, r, r, h, -1, h, b), px, py, pz) ==
      if py == h && Distance(x, z, px, pz) <= r then Some(b) else None
  {
    LeavesLast(x, z, r, r, h, -1, h, b, px, py, pz);
  }

  /** Even layers write the diamond of their radius. */
  lemma LayerStepEven(x: int32, y: int32, z: int32, layer: nat)
    requires Room(x, y, z) && layer < 15 && layer % 2 == 0
    ensures LayerStep(x, y, z, layer) == Leaves(x, z, 3 - layer, 3 - layer, y + 3 + layer + 1, -1, y + 3 + layer + 1, SnowLeaf)
  {
  }

  /** Odd layers write nothing. */
  lemma LayerStepOdd(x: int32, y: int32, z: int32, layer: nat)
    requires Room(x, y, z) && layer < 15 && layer % 2 == 1
    ensures LayerStep(x, y, z, layer) == []
  {
  }

  /** From layer 4 on the radius is negative and an even layer writes
      nothing. */
  lemma {:induction false} HighLayerLast(x: int32, y: int32, z: int32, layer: nat, px: int, py: int, pz: int)
    requires Room(x, y, z) && layer < 15 && layer % 2 == 0 && layer != 0 && layer != 2
    ensures LastWrite(LayerStep(x, y, z, layer), px, py, pz) == None
  {
    assert 3 - layer < 0;
    DiamondLast(x, z, 3 - layer, y + 4 + layer, SnowLeaf, px, py, pz);
  }

  /** Only layers 0 and 2 place leaves: layer 0 a radius-3 diamond at
      y + 4, layer 2 a radius-1 diamond at y + 6; odd layers are skipped and
      from layer 4 on the radius is negative. */
  lemma {:induction false} LayerStepLast(x: int32, y: int32, z: int32, layer: nat, px: int, py: int, pz: int)
    requires Room(x, y, z) && layer < 15
    ensures LastWrite(LayerStep(x, y, z, layer), px, py, pz) ==
      if (layer == 0 && py == y + 4 && Distance(x, z, px, pz) <= 3) || (layer == 2 && py == y + 6 && Distance(x, z, px, pz) <= 1)
      then Some(SnowLeaf) else None
  {
    if layer % 2 == 1 {
      LayerStepOdd(x, y, z, layer);
    } else if layer == 0 || layer == 2 {
      DiamondLast(x, z, 3 - layer, y + 4 + layer, SnowLeaf, px, py, pz);
    } else {
      HighLayerLast(x, y, z, layer, px, py, pz);
    }
  }

  /** The layers place leaves only from layers 0 and 2: a radius-3 diamond
      at y + 4 and a radius-1 diamond at y + 6. */
  lemma {:induction false} LayersLast(x: int32, y: int32, z: int32, k: nat, px: int, py: int, pz: int)
    requires Room(x, y, z) && k <= 15
    ensures LastWrite(LayerWrites(x, y, z, k), px, py, pz) ==
      if (k > 0 && py == y + 4 && Distance(x, z, px, pz) <= 3) || (k > 2 && py == y + 6 && Distance(x, z, px, pz) <= 1)
      then Some(SnowLeaf) else None
  {
    if k > 0 {
      LayersLast(x, y, z, k - 1, px, py, pz);
      LastWriteAppend(LayerWrites(x, y, z, k - 1), LayerStep(x, y, z, k - 1), px, py, pz);
      LayerStepLast(x, y, z, k - 1, px, py, pz);
    }
  }

  /** The writes of `generateDefaultSnowTree2`: eight WOOD cells from y, the
      fifteen leaf layers, and a peak leaf at y + 8. */
  function SnowTree2Writes(x: int32, y: int32, z: int32): seq<Write>
    requires Room(x, y, z)
  {
    Run(x, z, y, y + 8, Wood) + LayerWrites(x, y, z, 15) + [Write(x, y + 8, z, SnowLeaf)]
  }

  /** Where the tall snow tree leaves which block: only two leaf diamonds
      survive the negative radii, overwriting the trunk at y + 4 and y + 6,
      and the peak sits on the trunk's top. */
  lemma {:induction false} SnowTree2Shape(x: int32, y: int32, z: int32, px: int, py: int, pz: int)
    requires Room(x, y, z)
    ensures LastWrite(SnowTree2Writes(x, y, z), px, py, pz) ==
      if px == x && pz == z && py == y + 8 then Some(SnowLeaf)
      else if (py == y + 4 && Distance(x, z, px, pz) <= 3) || (py == y + 6 && Distance(x, z, px, pz) <= 1) then Some(SnowLeaf)
      else if px == x && pz == z && y <= py < y + 8 then Some(Wood)
      else None
  {
    var trunk := Run(x, z, y, y + 8, Wood);
    var layers := LayerWrites(x, y, z, 15);
    LastWriteSnoc(trunk + layers, Write(x, y + 8, z, SnowLeaf), px, py, pz);
    LastWriteAppend(trunk, layers, px, py, pz);
    LayersLast(x, y, z, 15, px, py, pz);
    RunLast(x, z, y, y + 8, Wood, px, py, pz);
  }

  /** The side leaf of a dead snow tree at height i, chosen by the quartile
      of the level's draw: +x, +z, -z or -x. */
  function SideLeaf(x: int32, i: int32, z: int32, r: nat): (w: Write)
    requires Span(x, z)
    ensures w.y == i && w.block == SnowLeaf
    ensures (w.x == x) != (w.z == z) && -1 <= w.x - x <= 1 && -1 <= w.z - z <= 1
  {
    if r < 25 then Write(x + 1, i, z, SnowLeaf)
    else if r < 50 then Write(x, i, z + 1, SnowLeaf)
    else if r < 75 then Write(x, i, z - 1, SnowLeaf)
    else Write(x - 1, i, z, SnowLeaf)
  }

  /** The writes of the trunk levels y .. top - 1 of `generateDeadSnowTree`,
      with the stream at position n: at each level i, WOOD, and above
      y + 3 the side leaf that the level's draw (stream position
      n + i - y) picks. Every level takes a draw. */
  function DeadTrunkWrites(x: int32, y: int32, z: int32, rnd: Draws, n: nat, top: int): seq<Write>
    requires Room(x, y, z) && y <= top <= y + 8
    decreases top - y
  {
    if top == y then []
    else
      var i := top - 1;
      var wood := DeadTrunkWrites(x, y, z, rnd, n, i) + [Write(x, i, z, Wood)];
      if i > y + 3 then wood + [SideLeaf(x, i, z, Percent(rnd, n + (i - y)))] else wood
  }

  /** One trunk level more. */
  lemma DeadTrunkStep(x: int32, y: int32, z: int32, rnd: Draws, n: nat, i: int32)
    requires Room(x, y, z) && y <= i < y + 8
    ensures DeadTrunkWrites(x, y, z, rnd, n, i + 1) ==
      if i > y + 3 then DeadTrunkWrites(x, y, z, rnd, n, i) + [Write(x, i, z, Wood)] + [SideLeaf(x, i, z, Percent(rnd, n + (i - y)))]
      else DeadTrunkWrites(x, y, z, rnd, n, i) + [Write(x, i, z, Wood)]
  {
  }

  /** The writes of `generateDeadSnowTree`: eight trunk levels, then WOOD at
      y + 8 and y + 9. */
  function DeadSnowTreeWrites(x: int32, y: int32, z: int32, rnd: Draws, n: nat): seq<Write>
    requires Room(x, y, z)
  {
    DeadTrunkWrites(x, y, z, rnd, n, y + 8) + [Write(x, y + 8, z, Wood)] + [Write(x, y + 9, z, Wood)]
  }

  /** Whether the side leaf of level i of a dead snow tree (drawn at
      stream position n + i - y) sits at column (px, pz). */
  predicate SideAt(x: int32, y: int32, z: int32, rnd: Draws, n: nat, i: int, px: int, pz: int)
    requires Room(x, y, z) && y <= i < y + 8
  {
    var w := SideLeaf(x, i, z, Percent(rnd, n + (i - y)));
    w.x == px && w.z == pz
  }

  /** The trunk levels below top leave WOOD in the centre column from y and
      a side leaf beside each level from y + 4. */
  lemma {:induction false} DeadTrunkLast(x: int32, y: int32, z: int32, rnd: Draws, n: nat, top: int, px: int, py: int, pz: int)
    requires Room(x, y, z) && y <= top <= y + 8
    ensures LastWrite(DeadTrunkWrites(x, y, z, rnd, n, top), px, py, pz) ==
      if px == x && pz == z && y <= py < top then Some(Wood)
      else if y + 4 <= py < top && SideAt(x, y, z, rnd, n, py, px, pz) then Some(SnowLeaf)
      else None
    decreases top - y
  {
    if top > y {
      var i: int32 := top - 1;
      var prev := DeadTrunkWrites(x, y, z, rnd, n, i);
      var wood := Write(x, i, z, Wood);
      DeadTrunkStep(x, y, z, rnd, n, i);
      DeadTrunkLast(x, y, z, rnd, n, i, px, py, pz);
      LastWriteSnoc(prev, wood, px, py, pz);
      if i > y + 3 {
        LastWriteSnoc(prev + [wood], SideLeaf(x, i, z, Percent(rnd, n + (i - y))), px, py, pz);
      }
    }
  }

  /** Where the dead snow tree leaves which block: WOOD from y to y + 9 in
      the centre column, and one SNOW_LEAF beside each of the levels y + 4
      to y + 7, on the side the level's draw picks. The draws of levels
      y .. y + 3 are taken and discarded. */
  lemma {:induction false} DeadSnowTreeShape(x: int32, y: int32, z: int32, rnd: Draws, n: nat, px: int, py: int, pz: int)
    requires Room(x, y, z)
    ensures LastWrite(DeadSnowTreeWrites(x, y, z, rnd, n), px, py, pz) ==
      if px == x && pz == z && y <= py < y + 10 then Some(Wood)
      else if y + 4 <= py < y + 8 && SideAt(x, y, z, rnd, n, py, px, pz) then Some(SnowLeaf)
      else None
  {
    var trunk := DeadTrunkWrites(x, y, z, rnd, n, y + 8);
    DeadTrunkLast(x, y, z, rnd, n, y + 8, px, py, pz);
    LastWriteSnoc(trunk, Write(x, y + 8, z, Wood), px, py, pz);
    LastWriteSnoc(trunk + [Write(x, y + 8, z, Wood)], Write(x, y + 9, z, Wood), px, py, pz);
  }

  /** A log along z: b at (x, y, z) for z = z0 .. top - 1, in order of z. */
  function Log(x: int32, y: int32, z0: int32, top: int, b: BlockType): (r: seq<Write>)
    requires top <= 0x8000_0000
    ensures |r| == if top <= z0 then 0 else top - z0
    decreases top - z0
  {
    if top <= z0 then [] else Log(x, y, z0, top - 1, b) + [Write(x, y, top - 1, b)]
  }


  /** The writes of `generateFallenTree`: a log of three SIDE_WOOD cells
      along z, one layer above the anchor. */
  function FallenTreeWrites(x: int32, y: int32, z: int32): seq<Write>
    requires Room(x, y, z)
  {
    Log(x, y + 1, z, z + 3, SideWood)
  }

  /** A log writes b exactly at the cells from z0 below top along row
      (x, y). */
  lemma {:induction false} LogLast(x: int32, y: int32, z0: int32, top: int, b: BlockType, px: int, py: int, pz: int)
    requires top <= 0x8000_0000
    ensures LastWrite(Log(x, y, z0, top, b), px, py, pz) == if px == x && py == y && z0 <= pz < top then Some(b) else None
    decreases top - z0
  {
    if top > z0 {
      LogLast(x, y, z0, top - 1, b, px, py, pz);
      LastWriteSnoc(Log(x, y, z0, top - 1, b), Write(x, y, top - 1, b), px, py, pz);
    }
  }

  /** A fallen tree is three SIDE_WOOD cells at height y + 1, from z to
      z + 2. */
  lemma {:induction false} FallenTreeShape(x: int32, y: int32, z: int32, px: int, py: int, pz: int)
    requires Room(x, y, z)
    ensures LastWrite(FallenTreeWrites(x, y, z), px, py, pz) ==
      if px == x && py == y + 1 && z <= pz <= z + 2 then Some(SideWood) else None
  {
    LogLast(x, y + 1, z, z + 3, SideWood, px, py, pz);
  }

  /** The height of a cactus for the draw r: 1 below 30, 2 below 70, else 3. */
  function CactusHeight(r: nat): nat {
    if r < 30 then 1 else if r < 70 then 2 else 3
  }

  /** The writes of `generateCactus` for the draw r. */
  function CactusWrites(x: int32, y: int32, z: int32, r: nat): seq<Write>
    requires Room(x, y, z)
  {
    Run(x, z, y + 1, y + 1 + CactusHeight(r), Cactus)
  }

  /** A cactus is a stack of 1, 2 or 3 CACTUS cells on top of the anchor
      and writes nothing else. */
  lemma {:induction false} CactusShape(x: int32, y: int32, z: int32, r: nat, px: int, py: int, pz: int)
    requires Room(x, y, z)
    ensures 1 <= CactusHeight(r) <= 3
    ensures LastWrite(CactusWrites(x, y, z, r), px, py, pz) ==
      if px == x && pz == z && y + 1 <= py <= y + CactusHeight(r) then Some(Cactus) else None
  {
    RunLast(x, z, y + 1, y + 1 + CactusHeight(r), Cactus, px, py, pz);
  }

  /** `generateDefaultTree`. */
  method GenerateDefaultTree(t: Terrain, x: int32, y: int32, z: int32)
    requires t.Valid() && Room(x, y, z)
    modifies t.Arrays()
    ensures t.Contents() == Stamp(old(t.Contents()), TreeWrites(x, y, z, Leaf))
  {
    StampCrown(t, x, z, y, y + 4, 2, 2, y + 3, 1, y + 4, Leaf, y + 5);
  }

  /** `generateDefaultSnowTree`: the default tree with SNOW_LEAF. */
  method GenerateDefaultSnowTree(t: Terrain, x: int32, y: int32, z: int32)
    requires t.Valid() && Room(x, y, z)
    modifies t.Arrays()
    ensures t.Contents() == Stamp(old(t.Contents()), TreeWrites(x, y, z, SnowLeaf))
  {
    StampCrown(t, x, z, y, y + 4, 2, 2, y + 3, 1, y + 4, SnowLeaf, y + 5);
  }

  /** The trunk, leaf and top loops the default trees share. */
  method StampCrown(t: Terrain, x: int32, z: int32, y: int32, trunkTop: int32, r: int, r1: int, y1: int32, r2: int, y2: int32, leaf: BlockType, peak: int32)
    requires t.Valid() && Span(x, z) && r <= 3 && y <= trunkTop
    modifies t.Arrays()
    ensures t.Contents() == Stamp(old(t.Contents()), Crown(x, z, y, trunkTop, r, r1, y1, r2, y2, leaf, peak))
  {
    ghost var w0 := t.Contents();
    ghost var trunk := Run(x, z, y, trunkTop, Wood);
    ghost var leaves := Leaves(x, z, r, r1, y1, r2, y2, leaf);
    StampRun(t, x, z, y, trunkTop, Wood);
    StampLeaves(t, x, z, r, r1, y1, r2, y2, leaf);
    StampAppend(w0, trunk, leaves);
    StampWrite(t, w0, trunk + leaves, Write(x, peak, z, leaf));
    assert t.Contents() == Stamp(w0, Crown(x, z, y, trunkTop, r, r1, y1, r2, y2, leaf, peak));
    assert w0 == old(t.Contents());
  }

  /** `generateDefaultTree2`. */
  method GenerateDefaultTree2(t: Terrain, x: int32, y: int32, z: int32)
    requires t.Valid() && Room(x, y, z)
    modifies t.Arrays()
    ensures t.Contents() == Stamp(old(t.Contents()), Tree2Writes(x, y, z))
  {
    StampCrown(t, x, z, y, y + 6, 1, 2, y + 4, 1, y + 5, Leaf, y + 6);
  }

  /** One pass of the layer loop of `generateDefaultSnowTree2`: on an even
      layer, the leaf loops of radius 3 - layer at y + baseLayer + layer + 1,
      with baseLayer = 3. */
  method StampLayer(t: Terrain, x: int32, y: int32, z: int32, layer: nat)
    requires t.Valid() && Room(x, y, z) && layer < 15
    modifies t.Arrays()
    ensures t.Contents() == Stamp(old(t.Contents()), LayerStep(x, y, z, layer))
  {
    ghost var w0 := t.Contents();
    var baseLayer := 3;
    var leafRadius := 3 - layer;
    if layer % 2 == 0 {
      var height := y + baseLayer + layer + 1;
      LayerStepEven(x, y, z, layer);
      StampLeaves(t, x, z, leafRadius, leafRadius, height, -1, height, SnowLeaf);
      assert t.Contents() == Stamp(w0, Leaves(x, z, leafRadius, leafRadius, height, -1, height, SnowLeaf));
    } else {
      LayerStepOdd(x, y, z, layer);
      assert Stamp(w0, []) == w0;
    }
  }

  /** `generateDefaultSnowTree2`: the trunk, the fifteen leaf layers (only
      even layers place leaves), and the peak. */
  method GenerateDefaultSnowTree2(t: Terrain, x: int32, y: int32, z: int32)
    requires t.Valid() && Room(x, y, z)
    modifies t.Arrays()
    ensures t.Contents() == Stamp(old(t.Contents()), SnowTree2Writes(x, y, z))
  {
    ghost var w0 := t.Contents();
    ghost var trunk := Run(x, z, y, y + 8, Wood);
    StampRun(t, x, z, y, y + 8, Wood);
    ghost var w1 := t.Contents();
    ghost var layers: seq<Write> := [];
    var baseLayer := 3;
    for layer := 0 to 15
      invariant layers == LayerWrites(x, y, z, layer)
      invariant t.Contents() == Stamp(w1, layers)
    {
      ghost var step := LayerStep(x, y, z, layer);
      StampLayer(t, x, y, z, layer);
      StampAppend(w1, layers, step);
      layers := layers + step;
    }
    StampAppend(w0, trunk, layers);
    StampWrite(t, w0, trunk + layers, Write(x, y + baseLayer + 5, z, SnowLeaf));
    assert trunk + layers + [Write(x, y + baseLayer + 5, z, SnowLeaf)] == SnowTree2Writes(x, y, z);
    assert t.Contents() == Stamp(w0, SnowTree2Writes(x, y, z));
    assert w0 == old(t.Contents());
  }

  /** The side-leaf branch of `generateDeadSnowTree` at height i for the
      level's draw: one write, on the side the draw's quartile picks. */
  method StampSideLeaf(t: Terrain, ghost w0: Snapshot, ghost done: seq<Write>, x: int32, i: int32, z: int32, random: nat)
    requires t.Valid() && Span(x, z) && t.Contents() == Stamp(w0, done)
    modifies t.Arrays()
    ensures t.Contents() == Stamp(w0, done + [SideLeaf(x, i, z, random)])
  {
    if random < 25 {
      StampWrite(t, w0, done, Write(x + 1, i, z, SnowLeaf));
    } else if random < 50 {
      StampWrite(t, w0, done, Write(x, i, z + 1, SnowLeaf));
    } else if random < 75 {
      StampWrite(t, w0, done, Write(x, i, z - 1, SnowLeaf));
    } else {
      StampWrite(t, w0, done, Write(x - 1, i, z, SnowLeaf));
    }
  }

  /** One trunk level of `generateDeadSnowTree`: WOOD at level i and, above
      y + 3, the side leaf that the level's draw picks. */
  method StampDeadLevel(t: Terrain, ghost w0: Snapshot, x: int32, y: int32, z: int32, rnd: Draws, n: nat, i: int32)
    requires t.Valid() && Room(x, y, z) && y <= i < y + 8
    requires t.Contents() == Stamp(w0, DeadTrunkWrites(x, y, z, rnd, n, i))
    modifies t.Arrays()
    ensures t.Contents() == Stamp(w0, DeadTrunkWrites(x, y, z, rnd, n, i + 1))
  {
    ghost var done := DeadTrunkWrites(x, y, z, rnd, n, i);
    var random := Percent(rnd, n + (i - y));
    DeadTrunkStep(x, y, z, rnd, n, i);
    StampWrite(t, w0, done, Write(x, i, z, Wood));
    if i > y + 3 {
      StampSideLeaf(t, w0, done + [Write(x, i, z, Wood)], x, i, z, random);
    }
  }

  /** The trunk loop of `generateDeadSnowTree`: one draw per level from
      stream position n. */
  method StampDeadTrunk(t: Terrain, x: int32, y: int32, z: int32, rnd: Draws, n: nat) returns (n': nat)
    requires t.Valid() && Room(x, y, z)
    modifies t.Arrays()
    ensures n' == n + 8
    ensures t.Contents() == Stamp(old(t.Contents()), DeadTrunkWrites(x, y, z, rnd, n, y + 8))
  {
    ghost var w0 := t.Contents();
    assert DeadTrunkWrites(x, y, z, rnd, n, y) == [];
    n' := n;
    for i := y to y + 8
      invariant n' == n + (i - y)
      invariant t.Contents() == Stamp(w0, DeadTrunkWrites(x, y, z, rnd, n, i))
    {
      StampDeadLevel(t, w0, x, y, z, rnd, n, i);
      n' := n' + 1;
    }
  }

  /** `generateDeadSnowTree`: takes one draw per trunk level from stream
      position n, and returns the position after the eight draws. */
  method GenerateDeadSnowTree(t: Terrain, x: int32, y: int32, z: int32, rnd: Draws, n: nat) returns (n': nat)
    requires t.Valid() && Room(x, y, z)
    modifies t.Arrays()
    ensures n' == n + 8
    ensures t.Contents() == Stamp(old(t.Contents()), DeadSnowTreeWrites(x, y, z, rnd, n))
  {
    ghost var w0 := t.Contents();
    n' := StampDeadTrunk(t, x, y, z, rnd, n);
    ghost var trunk := DeadTrunkWrites(x, y, z, rnd, n, y + 8);
    StampWrite(t, w0, trunk, Write(x, y + 8, z, Wood));
    StampWrite(t, w0, trunk + [Write(x, y + 8, z, Wood)], Write(x, y + 9, z, Wood));
  }

  /** Writes b along row (x, y) from z0 to below top, as the loop of
      `generateFallenTree` does. */
  method StampLog(t: Terrain, x: int32, y: int32, z0: int32, top: int32, b: BlockType)
    requires t.Valid() && z0 <= top
    modifies t.Arrays()
    ensures t.Contents() == Stamp(old(t.Contents()), Log(x, y, z0, top, b))
  {
    ghost var w0 := t.Contents();
    ghost var done: seq<Write> := [];
    for i := z0 to top
      invariant done == Log(x, y, z0, i, b)
      invariant t.Contents() == Stamp(w0, done)
    {
      StampWrite(t, w0, done, Write(x, y, i, b));
      done := done + [Write(x, y, i, b)];
    }
    assert t.Contents() == Stamp(w0, Log(x, y, z0, top, b));
    assert w0 == old(t.Contents());
  }

  /** `generateFallenTree`. */
  method GenerateFallenTree(t: Terrain, x: int32, y: int32, z: int32)
    requires t.Valid() && Room(x, y, z)
    modifies t.Arrays()
    ensures t.Contents() == Stamp(old(t.Contents()), FallenTreeWrites(x, y, z))
  {
    StampLog(t, x, y + 1, z, z + 3, SideWood);
  }

  /** `generateCactus`: takes one draw from stream position n. */
  method GenerateCactus(t: Terrain, x: int32, y: int32, z: int32, rnd: Draws, n: nat) returns (n': nat)
    requires t.Valid() && Room(x, y, z)
    modifies t.Arrays()
    ensures n' == n + 1
    ensures t.Contents() == Stamp(old(t.Contents()), CactusWrites(x, y, z, Percent(rnd, n)))
  {
    ghost var w0 := t.Contents();
    ghost var done: seq<Write> := [];
    var random := Percent(rnd, n);
    n' := n + 1;
    if random < 30 {
      StampWrite(t, w0, done, Write(x, y + 1, z, Cactus));
      done := done + [Write(x, y + 1, z, Cactus)];
      assert done == Run(x, z, y + 1, y + 2, Cactus);
    } else if random < 70 {
      StampWrite(t, w0, done, Write(x, y + 1, z, Cactus));
      done := done + [Write(x, y + 1, z, Cactus)];
      assert done == Run(x, z, y + 1, y + 2, Cactus);
      StampWrite(t, w0, done, Write(x, y + 2, z, Cactus));
      done := done + [Write(x, y + 2, z, Cactus)];
      assert done == Run(x, z, y + 1, y + 3, Cactus);
    } else {
      StampWrite(t, w0, done, Write(x, y + 1, z, Cactus));
      done := done + [Write(x, y + 1, z, Cactus)];
      assert done == Run(x, z, y + 1, y + 2, Cactus);
      StampWrite(t, w0, done, Write(x, y + 2, z, Cactus));
      done := done + [Write(x, y + 2, z, Cactus)];
      assert done == Run(x, z, y + 1, y + 3, Cactus);
      StampWrite(t, w0, done, Write(x, y + 3, z, Cactus));
      done := done + [Write(x, y + 3, z, Cactus)];
    }
    assert done == CactusWrites(x, y, z, random);
    assert t.Contents() == Stamp(w0, CactusWrites(x, y, z, random));
    assert w0 == old(t.Contents());
  }


  /** `generateSnowGrass`: replaces exactly the anchor cell. */
  method GenerateSnowGrass(t: Terrain, x: int32, y: int32, z: int32)
    requires t.Valid()
    modifies t.Arrays()
    ensures t.Contents() == Put(old(t.Contents()), x, y, z, SnowGrassPatch)
  {
    SetBlockSafe(t, x, y, z, SnowGrassPatch);
  }

  /** `generateDirtGrass`: replaces exactly the anchor cell. */
  method GenerateDirtGrass(t: Terrain, x: int32, y: int32, z: int32)
    requires t.Valid()
    modifies t.Arrays()
    ensures t.Contents() == Put(old(t.Contents()), x, y, z, DirtGrassPatch)
  {
    SetBlockSafe(t, x, y, z, DirtGrassPatch);
  }

  /** `generateSandCrack`: replaces exactly the anchor cell. */
  method GenerateSandCrack(t: Terrain, x: int32, y: int32, z: int32)
    requires t.Valid()
    modifies t.Arrays()
    ensures t.Contents() == Put(old(t.Contents()), x, y, z, SandCrack)
  {
    SetBlockSafe(t, x, y, z, SandCrack);
  }
}
