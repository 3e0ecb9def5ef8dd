/** The terrain: every chunk, keyed by its corner, and the world-space block
    lookups built on them. */
module World {
  import opened Wrappers
  import opened Machine
  import opened Blocks
  import opened Grid
  import opened Keys
  import opened Meshing
  import opened Chunks

  /** One `drawInterleaved` call: the chunk and whether its transparent
      buffers are drawn. */
  datatype DrawCall = DrawCall(chunk: Chunk, transparent: bool)

  /** The position of world coordinate v inside the chunk whose span holds it. */
  function Local(v: int32): (r: uint32)
    ensures r < 16 && ChunkCorner(v) + r == v
  {
    v - ChunkCorner(v)
  }

  /** The cells of one chunk. */
  type Cells = s: seq<BlockType> | |s| == ChunkCells witness EmptyCells

  /** The cells of every chunk the terrain holds, by corner key. */
  type Snapshot = map<int64, Cells>

  /** The block lookup on a snapshot: throws when no chunk covers the
      column, EMPTY outside the height range, else the covering cell. */
  function BlockIn(w: Snapshot, x: int32, y: int32, z: int32): Result<BlockType> {
    if CornerKey(x, z) !in w then Err(OutOfRange)
    else if y < 0 || y >= ChunkHeight then Ok(Empty)
    else Ok(w[CornerKey(x, z)][FlatIndex(Local(x), y, Local(z))])
  }

  /** A write that checks the height: the cell at (x, y, z) becomes b when
      a chunk covers the column and y is in range; otherwise nothing
      changes. */
  function Put(w: Snapshot, x: int32, y: int32, z: int32, b: BlockType): (r: Snapshot)
  {
    if CornerKey(x, z) in w && 0 <= y < ChunkHeight then
      w[CornerKey(x, z) := w[CornerKey(x, z)][FlatIndex(Local(x), y, Local(z)) := b]]
    else w
  }

  /** A write through the unsigned local coordinates with no height check:
      the wrapped array index decides which cell changes, and an index past
      the array throws. Without a covering chunk nothing changes. */
  function PutUnchecked(w: Snapshot, x: int32, y: int32, z: int32, b: BlockType): (r: Result<Snapshot>)
    ensures r.Ok? ==> r.value.Keys == w.Keys
  {
    if CornerKey(x, z) !in w then Ok(w)
    else
      var i := WrappedIndex(Local(x), Unsigned(y), Local(z));
      if i < ChunkCells then Ok(w[CornerKey(x, z) := w[CornerKey(x, z)][i := b]])
      else Err(OutOfRange)
  }

  /** Reading back after a checked write: the written position reads b when
      the write landed, and every other position reads what it did. */
  lemma {:induction false} PutThenGet(w: Snapshot, x: int32, y: int32, z: int32, b: BlockType, x': int32, y': int32, z': int32)
    ensures BlockIn(Put(w, x, y, z, b), x', y', z') ==
      if x' == x && y' == y && z' == z && CornerKey(x, z) in w && 0 <= y < ChunkHeight then Ok(b)
      else BlockIn(w, x', y', z')
  {
    CornerKeyShared(x, z, x', z');
    if CornerKey(x, z) == CornerKey(x', z') && 0 <= y < ChunkHeight && 0 <= y' < ChunkHeight {
      FlatIndexDistinct(Local(x), y, Local(z), Local(x'), y', Local(z'));
    }
  }

  /** Inside the height range the unchecked write is the checked one. */
  lemma {:induction false} PutUncheckedInRange(w: Snapshot, x: int32, y: int32, z: int32, b: BlockType)
    requires 0 <= y < ChunkHeight
    ensures PutUnchecked(w, x, y, z, b) == Ok(Put(w, x, y, z, b))
  {
    if CornerKey(x, z) in w {
      WrappedIndexInBox(Local(x), y, Local(z));
    }
  }

  /** One layer above the top, the unchecked write lands on the bottom cell
      of the next row along z of the same chunk. */
  lemma {:induction false} PutUncheckedAboveTop(w: Snapshot, x: int32, z: int32, b: BlockType)
    requires CornerKey(x, z) in w && Local(z) < 15
    ensures PutUnchecked(w, x, ChunkHeight, z, b).Ok?
    ensures BlockIn(PutUnchecked(w, x, ChunkHeight, z, b).value, x, 0, z + 1) == Ok(b)
  {
    var key := CornerKey(x, z);
    CornerStep(z);
    assert Local(z + 1) == Local(z) + 1;
    CornerKeyShared(x, z, x, z + 1);
    WriteAboveTopAliases(Local(x), Local(z));
    var i := FlatIndex(Local(x), 0, Local(z) + 1);
    assert PutUnchecked(w, x, ChunkHeight, z, b) == Ok(w[key := w[key][i := b]]);
  }

  /** A checked write at height y leaves every cell of a lower layer alone. */
  lemma {:induction false} PutKeepsLowerLayers(w: Snapshot, x: int32, y: int32, z: int32, b: BlockType, k: int64, i: nat)
    requires k in w && i < ChunkCells && CellY(i) < y
    ensures Put(w, x, y, z, b)[k][i] == w[k][i]
  {
    if CornerKey(x, z) in w && 0 <= y < ChunkHeight && k == CornerKey(x, z) {
      FlatIndexInjective(Local(x), y, Local(z));
    }
  }

  /** Two maps that hold the same chunks under the same keys, whatever
      null slots they have, hold the same chunks, arrays and cells. */
  ghost predicate SameChunks(m: ChunkMap, m': ChunkMap) {
    && (forall k :: (k in m && m[k] != null) <==> (k in m' && m'[k] != null))
    && (forall k | k in m && m[k] != null :: m'[k] == m[k])
  }

  lemma {:induction false} SameChunksKeepCells(m: ChunkMap, m': ChunkMap)
    requires SameChunks(m, m')
    ensures ChunksIn(m) == ChunksIn(m') && ArraysIn(m) == ArraysIn(m') && ContentsIn(m) == ContentsIn(m')
  {
    forall v: Chunk
      ensures v in m'.Values <==> v in m.Values
    {
      if v in m'.Values {
        var k :| k in m' && m'[k] == v;
        assert k in m && m[k] == v;
      }
      if v in m.Values {
        var k :| k in m && m[k] == v;
        assert m'[k] == v;
      }
    }
  }

  lemma {:induction false} SameChunksCover(m: ChunkMap, m': ChunkMap, x: int32, z: int32)
    requires SameChunks(m, m')
    ensures Covered(m, x, z) == Covered(m', x, z) && ProbeIn(m, x, z) == ProbeIn(m', x, z)
  {
  }

  lemma {:induction false} SameChunksTrans(m: ChunkMap, m': ChunkMap, m'': ChunkMap)
    requires SameChunks(m, m') && SameChunks(m', m'')
    ensures SameChunks(m, m'')
  {
  }

  /** Storing a chunk with a new block array under the key of its own
      corner keeps the map well keyed and adds exactly its cells. */
  lemma {:induction false} StoreChunk(m: ChunkMap, key: int64, c: Chunk)
    requires WellKeyed(m) && c.Valid() && ToKey(c.minX, c.minZ) == key && c.blocks !in ArraysIn(m)
    ensures WellKeyed(m[key := c])
    ensures ContentsIn(m[key := c]) == ContentsIn(m)[key := c.blocks[..]]
  {
    var m' := m[key := c];
    forall k | k in m && m[k] != null
      ensures m[k].blocks in ArraysIn(m)
    {
      assert m[k] in m.Values;
    }
  }

  /** Corner coordinates whose lateral neighbours, 16 away, are still C++
      `int` values. */
  predicate InnerCorner(x: int, z: int) {
    -0x8000_0000 + 16 <= x < 0x8000_0000 - 16 && -0x8000_0000 + 16 <= z < 0x8000_0000 - 16
  }

  /** The slots after a lookup of key that inserts a null slot when the
      lookup is made (present) and the key is absent. */
  ghost function Slot(m: ChunkMap, key: int64, present: bool): ChunkMap {
    if present && key !in m then m[key := null] else m
  }

  /** The key a lookup adds when it is made. */
  function Looked(key: int64, present: bool): set<int64> {
    if present then {key} else {}
  }

  /** Four lookups add exactly the keys looked up that were absent, each
      with a null slot. */
  lemma {:induction false} SlotChain(m: ChunkMap, k1: int64, b1: bool, k2: int64, b2: bool, k3: int64, b3: bool, k4: int64, b4: bool)
    ensures var r := Slot(Slot(Slot(Slot(m, k1, b1), k2, b2), k3, b3), k4, b4);
      && (forall k :: k in r <==> k in m || k in Looked(k1, b1) + Looked(k2, b2) + Looked(k3, b3) + Looked(k4, b4))
      && (forall k | k in r :: r[k] == if k in m then m[k] else null)
  {
  }

  /** The slots after the lookup `m_chunks[toKey(x, z)]` for a column a
      chunk covers. */
  ghost function Slotted(m: ChunkMap, x: int32, z: int32): ChunkMap {
    Slot(m, ToKey(x, z), Covered(m, x, z))
  }

  /** A lookup keeps every chunk. */
  lemma {:induction false} SlottedSame(m: ChunkMap, x: int32, z: int32)
    ensures SameChunks(m, Slotted(m, x, z))
  {
  }

  /** The slots after the four neighbour lookups around corner (x, z). */
  ghost function Around(m: ChunkMap, x: int32, z: int32): ChunkMap
    requires InnerCorner(x, z)
  {
    Slotted(Slotted(Slotted(Slotted(m, x, z + 16), x, z - 16), x + 16, z), x - 16, z)
  }

  /** The raw neighbour keys looked up around corner (x, z): those of the
      four lateral columns a chunk covers. */
  ghost function ProbedKeysIn(m: ChunkMap, x: int32, z: int32): set<int64>
    requires InnerCorner(x, z)
  {
    Looked(ToKey(x, z + 16), Covered(m, x, z + 16)) + Looked(ToKey(x, z - 16), Covered(m, x, z - 16))
    + Looked(ToKey(x + 16, z), Covered(m, x + 16, z)) + Looked(ToKey(x - 16, z), Covered(m, x - 16, z))
  }

  /** A lookup changes no column's cover. */
  lemma {:induction false} SlottedCover(m: ChunkMap, x: int32, z: int32, x': int32, z': int32)
    ensures Covered(Slotted(m, x, z), x', z') == Covered(m, x', z')
  {
    SlottedSame(m, x, z);
    SameChunksCover(m, Slotted(m, x, z), x', z');
  }

  /** Around corner (x, z), the lookups look up the keys of the four
      lateral columns, each when a chunk covers that column before any of
      the four lookups. */
  lemma {:induction false} AroundUnfolds(m: ChunkMap, x: int32, z: int32)
    requires InnerCorner(x, z)
    ensures Around(m, x, z) == Slot(Slot(Slot(Slot(m, ToKey(x, z + 16), Covered(m, x, z + 16)),
      ToKey(x, z - 16), Covered(m, x, z - 16)), ToKey(x + 16, z), Covered(m, x + 16, z)), ToKey(x - 16, z), Covered(m, x - 16, z))
  {
    var m1 := Slotted(m, x, z + 16);
    var m2 := Slotted(m1, x, z - 16);
    SlottedCover(m, x, z + 16, x, z - 16);
    SlottedCover(m, x, z + 16, x + 16, z);
    SlottedCover(m, x, z + 16, x - 16, z);
    SlottedCover(m1, x, z - 16, x + 16, z);
    SlottedCover(m1, x, z - 16, x - 16, z);
    SlottedCover(m2, x + 16, z, x - 16, z);
  }

  /** The four lookups keep every chunk, add exactly the probed keys that
      were absent, and give each of them a null slot. */
  lemma {:induction false} AroundSlots(m: ChunkMap, x: int32, z: int32)
    requires InnerCorner(x, z)
    ensures forall k :: k in Around(m, x, z) <==> k in m || k in ProbedKeysIn(m, x, z)
    ensures forall k | k in Around(m, x, z) :: Around(m, x, z)[k] == if k in m then m[k] else null
  {
    AroundUnfolds(m, x, z);
    SlotChain(m, ToKey(x, z + 16), Covered(m, x, z + 16), ToKey(x, z - 16), Covered(m, x, z - 16),
      ToKey(x + 16, z), Covered(m, x + 16, z), ToKey(x - 16, z), Covered(m, x - 16, z));
  }

  lemma {:induction false} AroundSame(m: ChunkMap, x: int32, z: int32)
    requires InnerCorner(x, z)
    ensures SameChunks(m, Around(m, x, z))
  {
    var m1 := Slotted(m, x, z + 16);
    var m2 := Slotted(m1, x, z - 16);
    var m3 := Slotted(m2, x + 16, z);
    SlottedSame(m, x, z + 16);
    SlottedSame(m1, x, z - 16);
    SlottedSame(m2, x + 16, z);
    SlottedSame(m3, x - 16, z);
    SameChunksTrans(m, m1, m2);
    SameChunksTrans(m, m2, m3);
    SameChunksTrans(m, m3, Around(m, x, z));
  }

  /** The slots of a chunk after it links towards nb in direction d: a
      null neighbour links nothing. */
  function Linked(nbrs: map<Direction, ChunkPtr>, d: Direction, nb: ChunkPtr): map<Direction, ChunkPtr> {
    if nb == null then nbrs else nbrs[d := nb]
  }

  /** A new chunk that links north, south, east and west in turn ends up
      holding exactly the four neighbours found, null where none was. */
  lemma {:induction false} LinkedAround(links: map<Direction, ChunkPtr>)
    requires links.Keys == {XPos, XNeg, ZPos, ZNeg}
    ensures var none := map[XPos := null, XNeg := null, ZPos := null, ZNeg := null];
      Linked(Linked(Linked(Linked(none, ZPos, links[ZPos]), ZNeg, links[ZNeg]), XPos, links[XPos]), XNeg, links[XNeg]) == links
  {
  }

  /** The slots of chunk ch after a new chunk c linked towards nb from the
      side facing back (the slot back of ch): only nb itself changes. */
  function Backlinked(nbrs: map<Direction, ChunkPtr>, ch: Chunk, nb: ChunkPtr, back: Direction, c: ChunkPtr): map<Direction, ChunkPtr> {
    if nb == ch then nbrs[back := c] else nbrs
  }

  /** The neighbour slots of chunk ch after a chunk c linked to the chunks
      in links: each slot facing back towards c now holds c. */
  function Relinked(nbrs: map<Direction, ChunkPtr>, ch: Chunk, links: map<Direction, ChunkPtr>, c: ChunkPtr): map<Direction, ChunkPtr>
    requires links.Keys == {XPos, XNeg, ZPos, ZNeg}
  {
    var n1 := Backlinked(nbrs, ch, links[ZPos], ZNeg, c);
    var n2 := Backlinked(n1, ch, links[ZNeg], ZPos, c);
    var n3 := Backlinked(n2, ch, links[XPos], XNeg, c);
    Backlinked(n3, ch, links[XNeg], XPos, c)
  }

  /** The chunk slots of a terrain, by key. */
  type ChunkMap = map<int64, ChunkPtr>

  /** Each chunk sits under the key of its own corner, and no two chunks
      share a block array. */
  ghost predicate WellKeyed(m: ChunkMap) {
    && (forall k | k in m && m[k] != null :: ToKey(m[k].minX, m[k].minZ) == k)
    && (forall k, k' | k in m && k' in m && m[k] != null && m[k'] != null && k != k' :: m[k].blocks != m[k'].blocks)
  }

  /** Whether a chunk covers column (x, z): the column's corner key is
      present and holds a chunk rather than null. */
  predicate Covered(m: ChunkMap, x: int32, z: int32) {
    CornerKey(x, z) in m && m[CornerKey(x, z)] != null
  }

  /** The neighbour `instantiateChunkAt` finds at column (x, z): when a
      chunk covers the column, the slot under the column's own key (null
      when that key is absent or is not a corner key), else null. */
  function ProbeIn(m: ChunkMap, x: int32, z: int32): ChunkPtr {
    if Covered(m, x, z) && ToKey(x, z) in m then m[ToKey(x, z)] else null
  }

  ghost function ChunksIn(m: ChunkMap): set<Chunk> {
    set c: Chunk | c in m.Values
  }

  ghost function ArraysIn(m: ChunkMap): set<array<BlockType>> {
    set c: Chunk | c in m.Values :: c.blocks
  }

  /** The cells of every chunk in the map, by key. */
  ghost function ContentsIn(m: ChunkMap): (w: Snapshot)
    reads ArraysIn(m)
  {
    map k | k in m && m[k] != null :: m[k].blocks[..]
  }

  /** Adding a null slot under a new key changes nothing that is observed:
      the chunks, their arrays and cells, and which columns are covered. */
  lemma {:induction false} NullSlotKeepsChunks(m: ChunkMap, key: int64)
    requires key !in m
    ensures ChunksIn(m[key := null]) == ChunksIn(m) && ArraysIn(m[key := null]) == ArraysIn(m)
  {
    var m' := m[key := null];
    forall v: Chunk
      ensures v in m'.Values <==> v in m.Values
    {
      if v in m'.Values {
        var k :| k in m' && m'[k] == v;
        assert k in m && m[k] == v;
      }
      if v in m.Values {
        var k :| k in m && m[k] == v;
        assert m'[k] == v;
      }
    }
  }

  lemma {:induction false} NullSlotKeepsCells(m: ChunkMap, key: int64)
    requires key !in m
    ensures ContentsIn(m[key := null]) == ContentsIn(m)
  {
    NullSlotKeepsChunks(m, key);
  }

  lemma {:induction false} NullSlotKeepsCover(m: ChunkMap, key: int64)
    requires key !in m
    ensures WellKeyed(m) ==> WellKeyed(m[key := null])
    ensures forall x, z :: Covered(m[key := null], x, z) == Covered(m, x, z) && ProbeIn(m[key := null], x, z) == ProbeIn(m, x, z)
  {
  }

  /** The largest loop bound for which stepping a corner by 16 stays an
      `int`. */
  const MaxBound: int32 := 0x7fff_fff0

  /** The corners a draw loop visits: lo, lo + 16, ... while below hi. */
  function Starts(lo: int32, hi: int32): seq<int32>
    requires hi <= MaxBound
    decreases hi - lo
  {
    if lo >= hi then [] else [lo] + Starts(lo + 16, hi)
  }

  /** The loop visits exactly the values from lo below hi that lie a whole
      number of steps from lo. */
  lemma {:induction false} StartsMembers(lo: int32, hi: int32, v: int)
    requires hi <= MaxBound
    ensures v in Starts(lo, hi) <==> lo <= v < hi && (v - lo) % 16 == 0
    decreases hi - lo
  {
    if lo < hi {
      StartsMembers(lo + 16, hi, v);
      if v != lo && lo <= v && (v - lo) % 16 == 0 {
        assert v - lo >= 16;
        assert (v - (lo + 16)) % 16 == 0;
      }
      if v in Starts(lo + 16, hi) {
        assert (v - lo) % 16 == (v - (lo + 16)) % 16;
      }
    }
  }

  /** The index count a pass tests: the transparent one or the opaque one. */
  function Count(c: Chunk, transparent: bool): int
    reads c
  {
    if transparent then c.transIndexCount else c.indexCount
  }

  /** The index counts of one pass, by chunk. */
  type Tally = map<Chunk, int>

  /** Whether the pass for transparent draws the chunk over corner (x, z)
      as call, given the slots m and the pass's counts: a chunk covers the
      column, it is the call's chunk, and its count is positive. */
  predicate ShowsIn(m: ChunkMap, counts: Tally, x: int32, z: int32, call: DrawCall) {
    && Covered(m, x, z) && call.chunk == m[CornerKey(x, z)]
    && call.chunk in counts && counts[call.chunk] > 0
  }

  /** The call a pass makes at corner (x, z), if any. */
  function CallIn(m: ChunkMap, counts: Tally, x: int32, z: int32, transparent: bool): seq<DrawCall> {
    if Covered(m, x, z) && m[CornerKey(x, z)] in counts && counts[m[CornerKey(x, z)]] > 0
    then [DrawCall(m[CornerKey(x, z)], transparent)]
    else []
  }

  /** The calls of one pass along the row x, over the corners zs. */
  function RowCallsIn(m: ChunkMap, counts: Tally, x: int32, zs: seq<int32>, transparent: bool): seq<DrawCall> {
    if zs == [] then [] else CallIn(m, counts, x, zs[0], transparent) + RowCallsIn(m, counts, x, zs[1..], transparent)
  }

  /** The calls of one pass over the rows xs, each over the corners zs. */
  function PassCallsIn(m: ChunkMap, counts: Tally, xs: seq<int32>, zs: seq<int32>, transparent: bool): seq<DrawCall> {
    if xs == [] then [] else RowCallsIn(m, counts, xs[0], zs, transparent) + PassCallsIn(m, counts, xs[1..], zs, transparent)
  }

  /** The calls of `draw`: the opaque pass over the area, then the
      transparent pass over it. */
  function DrawCallsIn(m: ChunkMap, solid: Tally, trans: Tally, minX: int32, maxX: int32, minZ: int32, maxZ: int32): seq<DrawCall>
    requires maxX <= MaxBound && maxZ <= MaxBound
  {
    var xs, zs := Starts(minX, maxX), Starts(minZ, maxZ);
    PassCallsIn(m, solid, xs, zs, false) + PassCallsIn(m, trans, xs, zs, true)
  }

  lemma {:induction false} AppendAssoc(a: seq<DrawCall>, b: seq<DrawCall>, c: seq<DrawCall>)
    ensures a + (b + c) == (a + b) + c
  {
  }

  /** The row from corner z on is the call at z, then the row from the next
      corner on. */
  lemma {:induction false} RowCallsStep(m: ChunkMap, counts: Tally, x: int32, z: int32, hi: int32, transparent: bool)
    requires z < hi <= MaxBound
    ensures RowCallsIn(m, counts, x, Starts(z, hi), transparent)
            == CallIn(m, counts, x, z, transparent) + RowCallsIn(m, counts, x, Starts(z + 16, hi), transparent)
  {
    var zs := Starts(z, hi);
    assert zs[0] == z && zs[1..] == Starts(z + 16, hi);
  }

  /** The pass from row x on is the row x, then the pass from the next row
      on. */
  lemma {:induction false} PassCallsStep(m: ChunkMap, counts: Tally, x: int32, hi: int32, zs: seq<int32>, transparent: bool)
    requires x < hi <= MaxBound
    ensures PassCallsIn(m, counts, Starts(x, hi), zs, transparent)
            == RowCallsIn(m, counts, x, zs, transparent) + PassCallsIn(m, counts, Starts(x + 16, hi), zs, transparent)
  {
    var xs := Starts(x, hi);
    assert xs[0] == x && xs[1..] == Starts(x + 16, hi);
  }

  /** A row makes a call exactly for the corners whose chunk it shows. */
  lemma {:induction false} RowCallsIff(m: ChunkMap, counts: Tally, x: int32, zs: seq<int32>, transparent: bool, call: DrawCall)
    ensures call in RowCallsIn(m, counts, x, zs, transparent) <==>
      call.transparent == transparent && exists z :: z in zs && ShowsIn(m, counts, x, z, call)
  {
    if zs != [] {
      RowCallsIff(m, counts, x, zs[1..], transparent, call);
      assert forall z :: z in zs <==> z == zs[0] || z in zs[1..];
      if call in CallIn(m, counts, x, zs[0], transparent) {
        assert ShowsIn(m, counts, x, zs[0], call);
      }
      if call.transparent == transparent && ShowsIn(m, counts, x, zs[0], call) {
        assert call in CallIn(m, counts, x, zs[0], transparent);
      }
    }
  }

  /** A pass makes a call exactly for the corners whose chunk it shows. */
  lemma {:induction false} PassCallsIff(m: ChunkMap, counts: Tally, xs: seq<int32>, zs: seq<int32>, transparent: bool, call: DrawCall)
    ensures call in PassCallsIn(m, counts, xs, zs, transparent) <==>
      call.transparent == transparent && exists x, z :: x in xs && z in zs && ShowsIn(m, counts, x, z, call)
  {
    if xs != [] {
      PassCallsIff(m, counts, xs[1..], zs, transparent, call);
      RowCallsIff(m, counts, xs[0], zs, transparent, call);
      assert forall x :: x in xs <==> x == xs[0] || x in xs[1..];
    }
  }

  /** `draw` draws a chunk's buffers of one kind exactly when the chunk
      covers a visited corner and its index count of that kind is
      positive. */
  lemma {:induction false} DrawnIff(m: ChunkMap, solid: Tally, trans: Tally, minX: int32, maxX: int32, minZ: int32, maxZ: int32, call: DrawCall)
    requires maxX <= MaxBound && maxZ <= MaxBound
    ensures !call.transparent ==> (call in DrawCallsIn(m, solid, trans, minX, maxX, minZ, maxZ) <==>
      exists x, z :: x in Starts(minX, maxX) && z in Starts(minZ, maxZ) && ShowsIn(m, solid, x, z, call))
    ensures call.transparent ==> (call in DrawCallsIn(m, solid, trans, minX, maxX, minZ, maxZ) <==>
      exists x, z :: x in Starts(minX, maxX) && z in Starts(minZ, maxZ) && ShowsIn(m, trans, x, z, call))
  {
    var xs, zs := Starts(minX, maxX), Starts(minZ, maxZ);
    PassCallsIff(m, solid, xs, zs, false, call);
    PassCallsIff(m, trans, xs, zs, true, call);
  }

  /** Every call of a pass is of that pass's kind. */
  lemma {:induction false} PassCallsKind(m: ChunkMap, counts: Tally, xs: seq<int32>, zs: seq<int32>, transparent: bool)
    ensures forall j :: 0 <= j < |PassCallsIn(m, counts, xs, zs, transparent)| ==>
      PassCallsIn(m, counts, xs, zs, transparent)[j].transparent == transparent
  {
    forall j | 0 <= j < |PassCallsIn(m, counts, xs, zs, transparent)|
      ensures PassCallsIn(m, counts, xs, zs, transparent)[j].transparent == transparent
    {
      PassCallsIff(m, counts, xs, zs, transparent, PassCallsIn(m, counts, xs, zs, transparent)[j]);
    }
  }

  /** Every opaque call of `draw` comes before every transparent call. */
  lemma {:induction false} DrawOpaqueFirst(m: ChunkMap, solid: Tally, trans: Tally, minX: int32, maxX: int32, minZ: int32, maxZ: int32)
    requires maxX <= MaxBound && maxZ <= MaxBound
    ensures var calls := DrawCallsIn(m, solid, trans, minX, maxX, minZ, maxZ);
      forall i, j :: 0 <= i < j < |calls| && calls[i].transparent ==> calls[j].transparent
  {
    var xs, zs := Starts(minX, maxX), Starts(minZ, maxZ);
    PassCallsKind(m, solid, xs, zs, false);
    PassCallsKind(m, trans, xs, zs, true);
  }

  class Terrain {
    /** Every chunk, by the key of its corner; a slot may hold null. */
    var chunks: ChunkMap
    /** The keys of the chunks instantiated so far. */
    var generated: set<int64>

    ghost predicate Valid()
      reads this`chunks
    {
      WellKeyed(chunks)
    }

    /** The chunks held. */
    ghost function Chunks(): set<Chunk>
      reads this`chunks
    {
      ChunksIn(chunks)
    }

    /** The block arrays of the chunks held. */
    ghost function Arrays(): set<array<BlockType>>
      reads this`chunks
    {
      ArraysIn(chunks)
    }

    /** The cells of every chunk held, by key. */
    ghost function Contents(): Snapshot
      reads this`chunks, Arrays()
    {
      ContentsIn(chunks)
    }

    /** A new terrain holds no chunk. */
    constructor ()
      ensures Valid() && chunks == map[] && generated == {}
    {
      chunks, generated := map[], {};
    }

    /** Whether a chunk exists whose footprint holds column (x, z): its
        corner key must be present and hold a chunk rather than null. */
    predicate HasChunkAt(x: int32, z: int32)
      reads this`chunks
    {
      Covered(chunks, x, z)
    }

    /** The chunk over column (x, z): its corner is the corner of the
        column's 16 x 16 span, so the column lies in its footprint. */
    function ChunkAt(x: int32, z: int32): (c: Chunk)
      requires Valid() && HasChunkAt(x, z)
      reads this`chunks
      ensures c in Chunks() && c.blocks in Arrays() && c.Valid()
      ensures c.minX == ChunkCorner(x) && c.minZ == ChunkCorner(z)
      ensures c.minX <= x < c.minX + 16 && c.minZ <= z < c.minZ + 16
    {
      var c := chunks[CornerKey(x, z)];
      KeyInjective(c.minX, c.minZ, ChunkCorner(x), ChunkCorner(z));
      c
    }

    /** The const `getChunkAt`: `.at()` on the corner key, which throws when
        the key is absent and may return a null slot. A chunk it returns
        covers the column. */
    function LookupChunkAt(x: int32, z: int32): (r: Result<ChunkPtr>)
      requires Valid()
      reads this`chunks
      ensures r.Err? <==> CornerKey(x, z) !in chunks
      ensures r.Ok? && r.value != null <==> HasChunkAt(x, z)
      ensures r.Ok? && r.value != null ==> r.value.minX == ChunkCorner(x) && r.value.minZ == ChunkCorner(z)
    {
      if CornerKey(x, z) in chunks then
        (if HasChunkAt(x, z) then Ok(ChunkAt(x, z)) else Ok(null))
      else Err(OutOfRange)
    }

    /** The block at world position (x, y, z): throws when no chunk covers
        the column, reads EMPTY above and below the height range, and
        otherwise reads the covering chunk's cell. */
    function GetGlobalBlockAt(x: int32, y: int32, z: int32): (r: Result<BlockType>)
      requires Valid()
      reads this`chunks, Arrays()
      ensures r.Err? <==> !HasChunkAt(x, z)
      ensures HasChunkAt(x, z) && !(0 <= y < ChunkHeight) ==> r == Ok(Empty)
      ensures r == BlockIn(Contents(), x, y, z)
    {
      if HasChunkAt(x, z) then
        if y < 0 || y >= 256 then Ok(Empty)
        else
          var c := ChunkAt(x, z);
          Ok(c.GetLocalBlockAtUnsigned(Local(x), y, Local(z)))
      else Err(OutOfRange)
    }

    /** Whether a write at (x, y, z) reaches a cell: a chunk covers the column
        and y is inside the height range. */
    predicate Lands(x: int32, y: int32, z: int32)
      reads this`chunks
    {
      HasChunkAt(x, z) && 0 <= y < ChunkHeight
    }

    /** `m_chunks[key]`: the slot under the key, inserting a null slot when
        the key is absent. Which columns have a chunk does not change. */
    method ChunkSlot(key: int64) returns (c: ChunkPtr)
      requires Valid()
      modifies this`chunks
      ensures Valid() && key in chunks && c == chunks[key]
      ensures key in old(chunks) ==> chunks == old(chunks)
      ensures key !in old(chunks) ==> chunks == old(chunks)[key := null]
      ensures SameChunks(old(chunks), chunks)
    {
      if key !in chunks {
        NullSlotKeepsCover(chunks, key);
        chunks := chunks[key := null];
      }
      c := chunks[key];
    }

    /** The mutable `getChunkAt`: `m_chunks[...]` on the corner key, which
        inserts a null slot when the key is absent. */
    method GetChunkAt(x: int32, z: int32) returns (c: ChunkPtr)
      requires Valid()
      modifies this`chunks
      ensures Valid() && Chunks() == old(Chunks()) && Arrays() == old(Arrays())
      ensures CornerKey(x, z) in chunks && c == chunks[CornerKey(x, z)]
      ensures old(HasChunkAt(x, z)) ==> c == old(ChunkAt(x, z)) && chunks == old(chunks)
      ensures !old(HasChunkAt(x, z)) ==> c == null
      ensures forall x', z' :: HasChunkAt(x', z') == old(HasChunkAt(x', z'))
    {
      c := ChunkSlot(CornerKey(x, z));
      SameChunksKeepCells(old(chunks), chunks);
      forall x': int32, z': int32
        ensures HasChunkAt(x', z') == old(HasChunkAt(x', z'))
      {
        SameChunksCover(old(chunks), chunks, x', z');
      }
    }

    /** The chunk covering column (x, z), if any, and its block array. */
    ghost function Covering(x: int32, z: int32): set<Chunk>
      requires Valid()
      reads this`chunks
    {
      if HasChunkAt(x, z) then {ChunkAt(x, z)} else {}
    }

    ghost function CoveringArray(x: int32, z: int32): set<array<BlockType>>
      requires Valid()
      reads this`chunks
    {
      if HasChunkAt(x, z) then {ChunkAt(x, z).blocks} else {}
    }

    /** Writes one cell through the covering chunk's unsigned local
        coordinates, as both `setGlobalBlockAt` and `setBlockSafe` do: the
        snapshot changes as the unchecked write says, and a write whose
        index leaves the array throws and changes nothing. */
    method WriteCell(x: int32, y: int32, z: int32, t: BlockType) returns (r: Outcome)
      requires Valid() && HasChunkAt(x, z)
      modifies ChunkAt(x, z).blocks
      ensures var c := ChunkAt(x, z);
        var i := WrappedIndex(Local(x), Unsigned(y), Local(z));
        && (i < ChunkCells ==> r == Pass && c.blocks[..] == old(c.blocks[..])[i := t])
        && (i >= ChunkCells ==> r == Fail(OutOfRange) && c.blocks[..] == old(c.blocks[..]))
      ensures PutUnchecked(old(Contents()), x, y, z, t) == if r.Pass? then Ok(Contents()) else Err(OutOfRange)
      ensures r.Fail? ==> Contents() == old(Contents())
    {
      var c := ChunkAt(x, z);
      ghost var key := CornerKey(x, z);
      ghost var w := Contents();
      r := c.SetLocalBlockAt(Local(x), Unsigned(y), Local(z), t);
      ghost var w' := if r.Pass? then w[key := w[key][WrappedIndex(Local(x), Unsigned(y), Local(z)) := t]] else w;
      ghost var now := Contents();
      assert now.Keys == w'.Keys;
      forall k | k in w'
        ensures now[k] == w'[k]
      {
        if k != key {
          assert chunks[k].blocks != chunks[key].blocks;
        }
      }
      assert now == w';
    }

    /** Writes the block at world position (x, y, z) and rebuilds the
        covering chunk's mesh and index counts; throws when no chunk covers
        the column, and when the write or the rebuild throws. The write does
        not check the height: see `PutUnchecked` and `WriteCell`. */
    method SetGlobalBlockAt(x: int32, y: int32, z: int32, t: BlockType) returns (r: Outcome)
      requires Valid()
      modifies CoveringArray(x, z), Covering(x, z)`vbo, Covering(x, z)`indexCount, Covering(x, z)`transIndexCount
      ensures !HasChunkAt(x, z) ==> r == Fail(OutOfRange)
      ensures HasChunkAt(x, z) ==>
        var c := ChunkAt(x, z);
        var i := WrappedIndex(Local(x), Unsigned(y), Local(z));
        var m := ChunkMesh(c.MeshSource());
        && (i >= ChunkCells ==>
              r == Fail(OutOfRange) && c.blocks[..] == old(c.blocks[..]) && c.vbo == old(c.vbo)
              && c.indexCount == old(c.indexCount) && c.transIndexCount == old(c.transIndexCount))
        && (i < ChunkCells ==> c.blocks[..] == old(c.blocks[..])[i := t])
        && (i < ChunkCells && m.Ok? ==>
              r == Pass && c.vbo == Published(m.value)
              && c.indexCount == |m.value.solid.idx| && c.transIndexCount == |m.value.trans.idx|)
        && (i < ChunkCells && m.Err? ==>
              r == Fail(m.error) && c.vbo == old(c.vbo)
              && c.indexCount == old(c.indexCount) && c.transIndexCount == old(c.transIndexCount))
      ensures HasChunkAt(x, z) && 0 <= y < ChunkHeight ==>
        Contents() == Put(old(Contents()), x, y, z, t) && GetGlobalBlockAt(x, y, z) == Ok(t)
    {
      if !HasChunkAt(x, z) {
        return Fail(OutOfRange);
      }
      ghost var before := Contents();
      r := WriteCell(x, y, z, t);
      ghost var written := Contents();
      if r.Pass? {
        r := ChunkAt(x, z).Refresh();
      }
      assert Contents() == written;
      if 0 <= y < ChunkHeight {
        PutUncheckedInRange(before, x, y, z, t);
        PutThenGet(before, x, y, z, t, x, y, z);
      }
    }

    /** The neighbour `instantiateChunkAt` finds for the column (x, z): when
        a chunk covers that column, the slot under the column's own key
        (null when that key is absent or not a corner key), else null. */
    function Probe(x: int32, z: int32): ChunkPtr
      reads this`chunks
    {
      ProbeIn(chunks, x, z)
    }

    /** The four neighbours a chunk instantiated at (x, z) links to. */
    function Links(x: int32, z: int32): (m: map<Direction, ChunkPtr>)
      requires InnerCorner(x, z)
      reads this`chunks
      ensures m.Keys == {XPos, XNeg, ZPos, ZNeg}
    {
      map[ZPos := Probe(x, z + 16), ZNeg := Probe(x, z - 16), XPos := Probe(x + 16, z), XNeg := Probe(x - 16, z)]
    }

    /** `c->linkNeighbor(nb, d)` for a new chunk c: the cells of the
        terrain do not change, c links towards nb, and nb links back. */
    method LinkTo(c: Chunk, nb: ChunkPtr, d: Direction, back: Direction, ghost others: set<Chunk>)
      requires Valid() && c.Valid() && c !in others && Opposite(d) == Some(back)
      requires nb == null || nb in others
      modifies c`neighbors, others`neighbors
      ensures Contents() == old(Contents())
      ensures c.neighbors == Linked(old(c.neighbors), d, nb)
      ensures forall ch | ch in others :: ch.neighbors == Backlinked(old(ch.neighbors), ch, nb, back, c)
    {
      var _ := c.LinkNeighbor(nb, d);
    }

    /** Links chunk c towards the chunk over column (x', z') in direction
        d, as one guarded block of `instantiateChunkAt` does: the lookup
        `m_chunks[...]` may insert a null slot, and a null slot links
        nothing. m0 names the slots before the first of the four blocks;
        the earlier blocks have only added null slots to them. */
    method LinkIfPresent(c: Chunk, x': int32, z': int32, d: Direction, back: Direction, ghost m0: ChunkMap, ghost nb: ChunkPtr)
      requires Valid() && c.Valid() && c !in ChunksIn(m0) && Opposite(d) == Some(back) && SameChunks(m0, chunks)
      requires nb == ProbeIn(m0, x', z')
      modifies this`chunks, c`neighbors, ChunksIn(m0)`neighbors
      ensures Valid() && chunks == Slotted(old(chunks), x', z') && SameChunks(m0, chunks)
      ensures Contents() == old(Contents())
      ensures c.neighbors == Linked(old(c.neighbors), d, nb)
      ensures forall ch | ch in ChunksIn(m0) :: ch.neighbors == Backlinked(old(ch.neighbors), ch, nb, back, c)
    {
      SameChunksKeepCells(m0, chunks);
      SameChunksCover(m0, chunks, x', z');
      ghost var m := chunks;
      if HasChunkAt(x', z') {
        var slot := ChunkSlot(ToKey(x', z'));
        SameChunksKeepCells(m, chunks);
        assert slot == null || slot in chunks.Values;
        LinkTo(c, slot, d, back, ChunksIn(m0));
      }
      SameChunksTrans(m0, m, chunks);
    }

    /** Two guarded blocks of `instantiateChunkAt` in a row, towards the
        columns (x1, z1) in direction d1 and (x2, z2) in direction d2. */
    method LinkPair(c: Chunk, x1: int32, z1: int32, d1: Direction, b1: Direction, x2: int32, z2: int32, d2: Direction, b2: Direction,
                    ghost m0: ChunkMap, ghost nb1: ChunkPtr, ghost nb2: ChunkPtr)
      requires Valid() && c.Valid() && c !in ChunksIn(m0) && Opposite(d1) == Some(b1) && Opposite(d2) == Some(b2) && SameChunks(m0, chunks)
      requires nb1 == ProbeIn(m0, x1, z1) && nb2 == ProbeIn(m0, x2, z2)
      modifies this`chunks, c`neighbors, ChunksIn(m0)`neighbors
      ensures Valid() && chunks == Slotted(Slotted(old(chunks), x1, z1), x2, z2) && SameChunks(m0, chunks)
      ensures Contents() == old(Contents())
      ensures c.neighbors == Linked(Linked(old(c.neighbors), d1, nb1), d2, nb2)
      ensures forall ch | ch in ChunksIn(m0) ::
        ch.neighbors == Backlinked(Backlinked(old(ch.neighbors), ch, nb1, b1, c), ch, nb2, b2, c)
    {
      LinkIfPresent(c, x1, z1, d1, b1, m0, nb1);
      LinkIfPresent(c, x2, z2, d2, b2, m0, nb2);
    }

    /** The four guarded blocks of `instantiateChunkAt`, north, south, east
        and west in that order: c ends up linked to every neighbour found,
        and each neighbour links back to c. */
    method LinkAll(c: Chunk, x: int32, z: int32, ghost links: map<Direction, ChunkPtr>)
      requires Valid() && c.Valid() && c !in Chunks() && InnerCorner(x, z) && links == Links(x, z)
      requires c.neighbors == map[XPos := null, XNeg := null, ZPos := null, ZNeg := null]
      modifies this`chunks, c`neighbors, Chunks()`neighbors
      ensures Valid() && chunks == Around(old(chunks), x, z)
      ensures Contents() == old(Contents())
      ensures c.neighbors == links
      ensures forall ch | ch in old(Chunks()) :: ch.neighbors == Relinked(old(ch.neighbors), ch, links, c)
    {
      ghost var m0 := chunks;
      LinkedAround(links);
      LinkPair(c, x, z + 16, ZPos, ZNeg, x, z - 16, ZNeg, ZPos, m0, links[ZPos], links[ZNeg]);
      LinkPair(c, x + 16, z, XPos, XNeg, x - 16, z, XNeg, XPos, m0, links[XPos], links[XNeg]);
    }

    /** Stores chunk c under the key of its corner, replacing any chunk
        there, and records the key as generated. */
    method StoreAt(c: Chunk)
      requires Valid() && c.Valid() && c.blocks !in Arrays()
      modifies this`chunks, this`generated
      ensures Valid() && chunks == old(chunks)[ToKey(c.minX, c.minZ) := c]
      ensures generated == old(generated) + {ToKey(c.minX, c.minZ)}
      ensures Contents() == old(Contents())[ToKey(c.minX, c.minZ) := old(c.blocks[..])]
    {
      var key := ToKey(c.minX, c.minZ);
      StoreChunk(chunks, key, c);
      chunks, generated := chunks[key := c], generated + {key};
    }

    /** The first part of `instantiateChunkAt`: a new empty chunk with
        corner (x, z), linked both ways with its neighbours, not yet
        stored. */
    method NewLinkedChunk(x: int32, z: int32) returns (c: Chunk)
      requires Valid() && InnerCorner(x, z)
      modifies this`chunks, Chunks()`neighbors
      ensures Valid() && c.Valid() && fresh(c) && fresh(c.blocks) && c.minX == x && c.minZ == z
      ensures chunks == Around(old(chunks), x, z) && Arrays() == old(Arrays()) && Contents() == old(Contents())
      ensures c.blocks[..] == EmptyCells
      ensures c.neighbors == old(Links(x, z)) && c.vbo == NoVBOdata && c.indexCount == -1 && c.transIndexCount == -1
      ensures forall ch | ch in old(Chunks()) :: ch.neighbors == Relinked(old(ch.neighbors), ch, old(Links(x, z)), c)
    {
      c := new Chunk(x, z);
      LinkAll(c, x, z, Links(x, z));
      AroundSame(old(chunks), x, z);
      SameChunksKeepCells(old(chunks), chunks);
    }

    /** Creates an empty chunk with corner (x, z), links it both ways with
        the chunks found north, south, east and west of it (in that order),
        stores it under its key, replacing any chunk there, and records the
        key as generated. */
    method InstantiateChunkAt(x: int32, z: int32) returns (c: Chunk)
      requires Valid() && InnerCorner(x, z)
      modifies this, Chunks()`neighbors
      ensures Valid() && c.Valid() && fresh(c) && fresh(c.blocks) && c.minX == x && c.minZ == z
      ensures chunks == Around(old(chunks), x, z)[ToKey(x, z) := c] && generated == old(generated) + {ToKey(x, z)}
      ensures Contents() == old(Contents())[ToKey(x, z) := EmptyCells]
      ensures c.neighbors == old(Links(x, z)) && c.vbo == NoVBOdata && c.indexCount == -1 && c.transIndexCount == -1
      ensures forall ch | ch in old(Chunks()) :: ch.neighbors == Relinked(old(ch.neighbors), ch, old(Links(x, z)), c)
    {
      c := NewLinkedChunk(x, z);
      StoreAt(c);
    }

    /** The index counts of one pass for every chunk held. */
    ghost function CountsOf(transparent: bool): (r: Tally)
      reads this`chunks, Chunks()
      ensures Agrees(r, transparent)
    {
      map c | c in Chunks() :: Count(c, transparent)
    }

    /** Whether counts holds the current index counts of one pass for
        exactly the chunks held. */
    ghost predicate Agrees(counts: Tally, transparent: bool)
      reads this`chunks, Chunks()
    {
      counts.Keys == Chunks() && forall c | c in Chunks() :: counts[c] == Count(c, transparent)
    }

    /** In terms of the terrain: the pass draws the chunk over corner
        (x, z) when a chunk covers that column and its index count for the
        pass is positive. */
    lemma {:induction false} ShowsNow(x: int32, z: int32, call: DrawCall)
      requires Valid()
      ensures ShowsIn(chunks, CountsOf(call.transparent), x, z, call) <==>
        HasChunkAt(x, z) && call.chunk == ChunkAt(x, z) && Count(call.chunk, call.transparent) > 0
    {
      if HasChunkAt(x, z) {
        assert ChunkAt(x, z) in Chunks();
      }
    }

    /** The chunks held are allocated objects, so a step that changes no
        object leaves their fields alone. */
    lemma {:induction false} ChunksAllocated()
      ensures forall c | c in Chunks() :: allocated(c)
    {
    }

    /** One row of one pass: the inner loop of `draw`. */
    method DrawRow(x: int32, minZ: int32, maxZ: int32, transparent: bool, ghost m: ChunkMap, ghost counts: Tally) returns (calls: seq<DrawCall>)
      requires Valid() && maxZ <= MaxBound && m == chunks && Agrees(counts, transparent)
      ensures calls == RowCallsIn(m, counts, x, Starts(minZ, maxZ), transparent)
    {
      calls := [];
      var z: int32 := minZ;
      while z < maxZ
        invariant RowCallsIn(m, counts, x, Starts(minZ, maxZ), transparent) == calls + RowCallsIn(m, counts, x, Starts(z, maxZ), transparent)
        decreases maxZ - z
      {
        RowCallsStep(m, counts, x, z, maxZ, transparent);
        ghost var before := calls;
        if HasChunkAt(x, z) {
          var chunk := ChunkAt(x, z);
          var count := if transparent then chunk.transIndexCount else chunk.indexCount;
          if count > 0 {
            calls := calls + [DrawCall(chunk, transparent)];
          }
        }
        assert calls == before + CallIn(m, counts, x, z, transparent);
        AppendAssoc(before, CallIn(m, counts, x, z, transparent), RowCallsIn(m, counts, x, Starts(z + 16, maxZ), transparent));
        z := z + 16;
      }
    }

    /** One pass of `draw` over every corner of the area. */
    method DrawPass(minX: int32, maxX: int32, minZ: int32, maxZ: int32, transparent: bool, ghost m: ChunkMap, ghost counts: Tally)
      returns (calls: seq<DrawCall>)
      requires Valid() && maxX <= MaxBound && maxZ <= MaxBound && m == chunks && Agrees(counts, transparent)
      ensures calls == PassCallsIn(m, counts, Starts(minX, maxX), Starts(minZ, maxZ), transparent)
    {
      calls := [];
      ChunksAllocated();
      var x: int32 := minX;
      while x < maxX
        invariant PassCallsIn(m, counts, Starts(minX, maxX), Starts(minZ, maxZ), transparent)
                  == calls + PassCallsIn(m, counts, Starts(x, maxX), Starts(minZ, maxZ), transparent)
        decreases maxX - x
      {
        PassCallsStep(m, counts, x, maxX, Starts(minZ, maxZ), transparent);
        var row := DrawRow(x, minZ, maxZ, transparent, m, counts);
        AppendAssoc(calls, row, PassCallsIn(m, counts, Starts(x + 16, maxX), Starts(minZ, maxZ), transparent));
        calls := calls + row;
        x := x + 16;
      }
    }

    /** `draw`: the sequence of `drawInterleaved` calls it makes, the opaque
        pass over the area and then the transparent pass over it. */
    method Draw(minX: int32, maxX: int32, minZ: int32, maxZ: int32) returns (calls: seq<DrawCall>)
      requires Valid() && maxX <= MaxBound && maxZ <= MaxBound
      ensures calls == DrawCallsIn(chunks, CountsOf(false), CountsOf(true), minX, maxX, minZ, maxZ)
    {
      ghost var solidCounts, transCounts := CountsOf(false), CountsOf(true);
      ChunksAllocated();
      var solid := DrawPass(minX, maxX, minZ, maxZ, false, chunks, solidCounts);
      var trans := DrawPass(minX, maxX, minZ, maxZ, true, chunks, transCounts);
      calls := solid + trans;
      assert CountsOf(false) == solidCounts && CountsOf(true) == transCounts;
    }

    /** Two columns either share a covering chunk or are covered by chunks
        with different block arrays. */
    lemma {:induction false} SameChunkOrOther(x: int32, z: int32, x': int32, z': int32)
      requires Valid() && HasChunkAt(x, z) && HasChunkAt(x', z')
      ensures ChunkAt(x, z) == ChunkAt(x', z') <==> ChunkCorner(x) == ChunkCorner(x') && ChunkCorner(z) == ChunkCorner(z')
      ensures ChunkAt(x, z) != ChunkAt(x', z') ==> ChunkAt(x, z).blocks != ChunkAt(x', z').blocks
    {
      CornerKeyShared(x, z, x', z');
    }
  }

}
