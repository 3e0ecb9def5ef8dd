/** What `generateVBOdata` computes, as functions of a chunk's cells and the
    cells of its linked lateral neighbours: which faces are visible, in
    which order they are emitted, and the interleaved vertex and index
    buffers they produce. */
module Meshing {
  import opened Wrappers
  import opened Blocks
  import opened FaceTables
  import opened Grid

  /** Everything the mesher reads: the chunk's cells, the cells of each
      linked lateral neighbour (None when the slot is absent or null) and
      the chunk's corner. */
  datatype MeshInput = MeshInput(cells: seq<BlockType>, xPos: Option<seq<BlockType>>, xNeg: Option<seq<BlockType>>,
                                 zPos: Option<seq<BlockType>>, zNeg: Option<seq<BlockType>>, minX: int, minZ: int)
  {
    predicate Valid() {
      && |cells| == ChunkCells
      && (xPos.Some? ==> |xPos.value| == ChunkCells)
      && (xNeg.Some? ==> |xNeg.value| == ChunkCells)
      && (zPos.Some? ==> |zPos.value| == ChunkCells)
      && (zNeg.Some? ==> |zNeg.value| == ChunkCells)
    }
  }

  /** The block next to local cell (x, y, z) in direction d. Inside the box
      it is the chunk's own cell; across a lateral edge it is the facing edge
      cell of the linked neighbour, or EMPTY without one; above the top and
      below the bottom layer it is EMPTY. */
  function AdjacentBlock(m: MeshInput, x: int, y: int, z: int, d: Direction): BlockType
    requires m.Valid() && InBox(x, y, z) && IsFaceDirection(d)
  {
    match d
    case XPos => if x == 15 && m.xPos.Some? then CellAt(m.xPos.value, 0, y, z) else CellAt(m.cells, x + 1, y, z)
    case XNeg => if x == 0 && m.xNeg.Some? then CellAt(m.xNeg.value, 15, y, z) else CellAt(m.cells, x - 1, y, z)
    case YPos => if y == 255 then Empty else CellAt(m.cells, x, y + 1, z)
    case YNeg => if y == 0 then Empty else CellAt(m.cells, x, y - 1, z)
    case ZPos => if z == 15 && m.zPos.Some? then CellAt(m.zPos.value, x, y, 0) else CellAt(m.cells, x, y, z + 1)
    case ZNeg => if z == 0 && m.zNeg.Some? then CellAt(m.zNeg.value, x, y, 15) else CellAt(m.cells, x, y, z - 1)
  }

  /** The six blocks beside local cell (x, y, z), in enum order. */
  function Neighbourhood(m: MeshInput, x: int, y: int, z: int): seq<BlockType>
    requires m.Valid() && InBox(x, y, z)
  {
    [AdjacentBlock(m, x, y, z, XPos), AdjacentBlock(m, x, y, z, XNeg), AdjacentBlock(m, x, y, z, YPos),
     AdjacentBlock(m, x, y, z, YNeg), AdjacentBlock(m, x, y, z, ZPos), AdjacentBlock(m, x, y, z, ZNeg)]
  }

  lemma {:induction false} NeighbourhoodInOrder(m: MeshInput, x: int, y: int, z: int)
    requires m.Valid() && InBox(x, y, z)
    ensures forall k :: 0 <= k < 6 ==> Neighbourhood(m, x, y, z)[k] == AdjacentBlock(m, x, y, z, FaceDirections[k])
  {
    var n := Neighbourhood(m, x, y, z);
    forall k | 0 <= k < 6
      ensures n[k] == AdjacentBlock(m, x, y, z, FaceDirections[k])
    {
      if k == 0 {} else if k == 1 {} else if k == 2 {} else if k == 3 {} else if k == 4 {} else {}
    }
  }

  /** A face of a block is drawn when the block beside it is empty, is a
      different transparent material, or is a cactus (which is drawn inset). */
  predicate FaceVisible(current: BlockType, adjacent: BlockType) {
    adjacent == Empty || (IsTransparent(adjacent) && adjacent != current) || adjacent == Cactus
  }

  /** One emitted face: the world position of its block, its direction and
      the block's material. */
  datatype Face = Face(blockPos: Vec4, dir: Direction, block: BlockType)

  /** The world position of local cell (x, y, z) of the chunk at (minX, minZ). */
  function BlockPos(m: MeshInput, x: int, y: int, z: int): Vec4 {
    Vec4((x + m.minX) as real, y as real, (z + m.minZ) as real, 0.0)
  }

  /** The faces cell i emits among its first k neighbour directions, in the
      order XPOS, XNEG, YPOS, YNEG, ZPOS, ZNEG. */
  function CellFacesUpTo(m: MeshInput, i: int, k: int): seq<Face>
    requires m.Valid() && 0 <= i < ChunkCells && 0 <= k <= 6
  {
    var cur := m.cells[i];
    if k == 0 || cur == Empty then []
    else
      var d := FaceDirections[k - 1];
      var x, y, z := CellX(i), CellY(i), CellZ(i);
      FlatIndexOnto(i);
      CellFacesUpTo(m, i, k - 1)
      + (if FaceVisible(cur, AdjacentBlock(m, x, y, z, d)) then [Face(BlockPos(m, x, y, z), d, cur)] else [])
  }

  function CellFaces(m: MeshInput, i: int): seq<Face>
    requires m.Valid() && 0 <= i < ChunkCells
  {
    CellFacesUpTo(m, i, 6)
  }

  /** One direction more of a cell, in local coordinates. */
  lemma {:induction false} CellFacesStep(m: MeshInput, x: int, y: int, z: int, k: int)
    requires m.Valid() && InBox(x, y, z) && 0 <= k < 6
    ensures var i := FlatIndex(x, y, z);
      var cur := m.cells[i];
      var d := FaceDirections[k];
      CellFacesUpTo(m, i, k + 1)
      == CellFacesUpTo(m, i, k)
         + (if cur != Empty && FaceVisible(cur, AdjacentBlock(m, x, y, z, d)) then [Face(BlockPos(m, x, y, z), d, cur)] else [])
  {
    FlatIndexInjective(x, y, z);
  }

  /** Building one direction more of a non-empty cell adds its face when
      the face is visible and nothing otherwise. */
  lemma {:induction false} BuildCellStep(m: MeshInput, x: int, y: int, z: int, k: int, before: seq<Face>, mesh: Mesh)
    requires m.Valid() && InBox(x, y, z) && 0 <= k < 6
    requires m.cells[FlatIndex(x, y, z)] != Empty
    requires Build(before + CellFacesUpTo(m, FlatIndex(x, y, z), k)) == Ok(mesh)
    ensures var i := FlatIndex(x, y, z);
      var cur := m.cells[i];
      var d := FaceDirections[k];
      Build(before + CellFacesUpTo(m, i, k + 1))
      == if FaceVisible(cur, AdjacentBlock(m, x, y, z, d)) then AddFace(mesh, Face(BlockPos(m, x, y, z), d, cur)) else Ok(mesh)
  {
    var i := FlatIndex(x, y, z);
    var cur := m.cells[i];
    var d := FaceDirections[k];
    CellFacesStep(m, x, y, z, k);
    var sofar := before + CellFacesUpTo(m, i, k);
    if FaceVisible(cur, AdjacentBlock(m, x, y, z, d)) {
      var f := Face(BlockPos(m, x, y, z), d, cur);
      assert before + CellFacesUpTo(m, i, k + 1) == sofar + [f];
      BuildAppend(sofar, f);
    } else {
      assert before + CellFacesUpTo(m, i, k + 1) == sofar;
    }
  }

  /** The faces of cells 0 .. n-1. Visiting z, then y, then x, as the source's
      loops do, visits the cells in increasing array position. */
  function FacesBefore(m: MeshInput, n: int): seq<Face>
    requires m.Valid() && 0 <= n <= ChunkCells
  {
    if n == 0 then [] else FacesBefore(m, n - 1) + CellFaces(m, n - 1)
  }

  /** One output buffer pair (interleaved vertex data and indices) with the
      running vertex count. */
  datatype Buffers = Buffers(data: seq<Vec4>, idx: seq<int>, vertCount: int)

  const NoBuffers: Buffers := Buffers([], [], 0)

  /** The opaque and the transparent buffers of a chunk mesh. */
  datatype Mesh = Mesh(solid: Buffers, trans: Buffers)

  const EmptyMesh: Mesh := Mesh(NoBuffers, NoBuffers)

  /** The atlas vector a face receives: the table entry, with z set to 1 for
      the animated materials WATER and LAVA. */
  function FaceUV(b: BlockType, d: Direction): Option<Vec4> {
    match AtlasCellOf(b, d)
    case None => None
    case Some(c) =>
      var uv := AtlasVec(c);
      Some(if b == Water || b == Lava then uv.(z := 1.0) else uv)
  }

  /** The normal record of a face: its direction vector with w = 1. */
  function Normal(f: BlockFace): Vec4 {
    Vec4(f.dirVector.x as real, f.dirVector.y as real, f.dirVector.z as real, 1.0)
  }

  /** The interleaved records (position, normal, atlas coordinate) of the
      first n corners of a face. */
  function QuadData(f: BlockFace, uv: Vec4, blockPos: Vec4, n: int): seq<Vec4>
    requires 0 <= n <= |f.vertices|
  {
    if n == 0 then []
    else QuadData(f, uv, blockPos, n - 1)
         + [f.vertices[n - 1].pos.Plus(blockPos), Normal(f), uv.Plus(f.vertices[n - 1].uv)]
  }

  /** The two triangles of a quad whose first corner is vertex v. */
  function QuadIndices(v: int): seq<int> {
    [v, v + 1, v + 2, v, v + 2, v + 3]
  }

  /** Appends the quad of one face to a buffer pair; fails when a table has
      no entry for the face. */
  function AppendQuad(b: Buffers, f: Face): Result<Buffers> {
    match FaceAt(f.dir)
    case None => Err(OutOfRange)
    case Some(bf) =>
      match FaceUV(f.block, f.dir)
      case None => Err(OutOfRange)
      case Some(uv) => Ok(Buffers(b.data + QuadData(bf, uv, f.blockPos, 4), b.idx + QuadIndices(b.vertCount), b.vertCount + 4))
  }

  /** Routes a face to the transparent buffers for WATER and ICE and to the
      opaque buffers otherwise. */
  function AddFace(m: Mesh, f: Face): Result<Mesh> {
    if IsTransparent(f.block) then
      match AppendQuad(m.trans, f)
      case Err(e) => Err(e)
      case Ok(t) => Ok(m.(trans := t))
    else
      match AppendQuad(m.solid, f)
      case Err(e) => Err(e)
      case Ok(s) => Ok(m.(solid := s))
  }

  /** The mesh of a face list, or the error of its first face that has no
      table entry. */
  function Build(fs: seq<Face>): Result<Mesh> {
    if fs == [] then Ok(EmptyMesh)
    else
      match Build(fs[..|fs| - 1])
      case Err(e) => Err(e)
      case Ok(m) => AddFace(m, fs[|fs| - 1])
  }

  /** The mesh of a whole chunk. */
  function ChunkMesh(m: MeshInput): Result<Mesh>
    requires m.Valid()
  {
    Build(FacesBefore(m, |m.cells|))
  }

  /** The number of faces of a list that are (or are not) transparent. */
  function CountFaces(fs: seq<Face>, transparent: bool): nat {
    if fs == [] then 0
    else CountFaces(fs[..|fs| - 1], transparent) + (if IsTransparent(fs[|fs| - 1].block) == transparent then 1 else 0)
  }

  /** The buffers hold n quads: 4 vertices of 3 records each, and the index
      pattern of quad q is the two triangles of vertices 4q .. 4q+3. */
  predicate HoldsQuads(b: Buffers, n: int) {
    && b.vertCount == 4 * n
    && |b.data| == 12 * n
    && |b.idx| == 6 * n
    && (forall q :: 0 <= q < n ==> b.idx[6 * q..6 * q + 6] == QuadIndices(4 * q))
    && (forall j :: 0 <= j < |b.idx| ==> 0 <= b.idx[j] < b.vertCount)
  }

  lemma {:induction false} QuadDataLength(f: BlockFace, uv: Vec4, blockPos: Vec4, n: int)
    requires 0 <= n <= |f.vertices|
    ensures |QuadData(f, uv, blockPos, n)| == 3 * n
  {
    if n > 0 {
      QuadDataLength(f, uv, blockPos, n - 1);
    }
  }

  /** Appending one quad to buffers that hold n quads gives buffers that hold
      n + 1. */
  lemma {:induction false} AppendQuadHolds(b: Buffers, f: Face, n: int)
    requires HoldsQuads(b, n) && AppendQuad(b, f).Ok?
    ensures HoldsQuads(AppendQuad(b, f).value, n + 1)
  {
    var bf := FaceAt(f.dir).value;
    var uv := FaceUV(f.block, f.dir).value;
    QuadDataLength(bf, uv, f.blockPos, 4);
    var b' := AppendQuad(b, f).value;
    assert b'.idx == b.idx + QuadIndices(4 * n);
    forall q | 0 <= q < n + 1
      ensures b'.idx[6 * q..6 * q + 6] == QuadIndices(4 * q)
    {
      if q < n {
        assert b'.idx[6 * q..6 * q + 6] == b.idx[6 * q..6 * q + 6];
      } else {
        assert b'.idx[6 * q..6 * q + 6] == QuadIndices(4 * n);
      }
    }
  }

  /** A built mesh holds one quad per face in each buffer pair: 6 indices and
      12 records per face, every index below 4 x the face count, WATER and
      ICE faces counted in the transparent pair and all others in the
      opaque one. */
  lemma {:induction false} BuildCounts(fs: seq<Face>)
    requires Build(fs).Ok?
    ensures HoldsQuads(Build(fs).value.solid, CountFaces(fs, false))
    ensures HoldsQuads(Build(fs).value.trans, CountFaces(fs, true))
  {
    if fs != [] {
      var init := fs[..|fs| - 1];
      BuildCounts(init);
      var m := Build(init).value;
      var f := fs[|fs| - 1];
      if IsTransparent(f.block) {
        AppendQuadHolds(m.trans, f, CountFaces(init, true));
      } else {
        AppendQuadHolds(m.solid, f, CountFaces(init, false));
      }
    }
  }

  /** Predicate of a face the tables can draw. */
  predicate Drawable(f: Face) {
    IsFaceDirection(f.dir) && f.block != Empty && f.block != Sap
  }

  predicate AllDrawable(fs: seq<Face>) {
    forall j :: 0 <= j < |fs| ==> Drawable(fs[j])
  }

  /** A list is drawable throughout when all but its last face are and the
      last face is. */
  lemma {:induction false} AllDrawableSnoc(fs: seq<Face>)
    requires fs != []
    ensures AllDrawable(fs) <==> AllDrawable(fs[..|fs| - 1]) && Drawable(fs[|fs| - 1])
  {
    var init := fs[..|fs| - 1];
    assert forall j :: 0 <= j < |init| ==> init[j] == fs[j];
  }

  /** Adding one face succeeds exactly when the tables can draw it. */
  lemma {:induction false} AddFaceOkIff(m: Mesh, f: Face)
    ensures AddFace(m, f).Ok? <==> Drawable(f)
  {
    var r := AtlasCellOf(f.block, f.dir);
    assert FaceAt(f.dir).Some? <==> IsFaceDirection(f.dir);
    assert r.Some? <==> f.block != Empty && f.block != Sap && IsFaceDirection(f.dir);
  }

  /** A list of axis-aligned faces builds exactly when none of them is of a
      material missing from the atlas table (EMPTY or SAP). */
  lemma {:induction false} BuildSucceedsIff(fs: seq<Face>)
    requires forall j :: 0 <= j < |fs| ==> IsFaceDirection(fs[j].dir)
    ensures Build(fs).Ok? <==> forall j :: 0 <= j < |fs| ==> Drawable(fs[j])
  {
    if fs != [] {
      var init := fs[..|fs| - 1];
      BuildSucceedsIff(init);
      AllDrawableSnoc(fs);
      if Build(init).Ok? {
        AddFaceOkIff(Build(init).value, fs[|fs| - 1]);
      }
    }
  }

  /** Every face a cell emits is at the cell's position, carries the cell's
      material and points in an axis direction; a cell emits at most one
      face per direction checked. */
  lemma {:induction false} CellFacesShape(m: MeshInput, i: int, k: int)
    requires m.Valid() && 0 <= i < ChunkCells && 0 <= k <= 6
    ensures |CellFacesUpTo(m, i, k)| <= k
    ensures forall j :: 0 <= j < |CellFacesUpTo(m, i, k)| ==>
      var f := CellFacesUpTo(m, i, k)[j];
      && f.block == m.cells[i] && f.block != Empty && IsFaceDirection(f.dir)
      && f.blockPos == BlockPos(m, CellX(i), CellY(i), CellZ(i))
  {
    if k > 0 && m.cells[i] != Empty {
      CellFacesShape(m, i, k - 1);
    }
  }

  /** Cell i emits a face in direction d, among the first k directions,
      exactly when the cell is not empty and its face toward d is visible. */
  lemma {:induction false} CellFaceIff(m: MeshInput, i: int, k: int, d: Direction)
    requires m.Valid() && 0 <= i < ChunkCells && 0 <= k <= 6 && IsFaceDirection(d) && Ordinal(d) < k
    ensures Face(BlockPos(m, CellX(i), CellY(i), CellZ(i)), d, m.cells[i]) in CellFacesUpTo(m, i, k)
      <==> m.cells[i] != Empty && FaceVisible(m.cells[i], AdjacentBlock(m, CellX(i), CellY(i), CellZ(i), d))
  {
    FlatIndexOnto(i);
    var cur := m.cells[i];
    if cur != Empty {
      var x, y, z := CellX(i), CellY(i), CellZ(i);
      var last := FaceDirections[k - 1];
      var pos := BlockPos(m, x, y, z);
      var pre := CellFacesUpTo(m, i, k - 1);
      var tail := if FaceVisible(cur, AdjacentBlock(m, x, y, z, last)) then [Face(pos, last, cur)] else [];
      assert CellFacesUpTo(m, i, k) == pre + tail;
      if Ordinal(d) < k - 1 {
        CellFaceIff(m, i, k - 1, d);
      } else {
        assert d == last;
        CellFacesDirections(m, i, k - 1);
      }
    }
  }

  /** The faces among the first k directions point only in those directions. */
  lemma {:induction false} CellFacesDirections(m: MeshInput, i: int, k: int)
    requires m.Valid() && 0 <= i < ChunkCells && 0 <= k <= 6
    ensures forall f :: f in CellFacesUpTo(m, i, k) ==> IsFaceDirection(f.dir) && Ordinal(f.dir) < k
  {
    if k > 0 && m.cells[i] != Empty {
      CellFacesDirections(m, i, k - 1);
    }
  }

  /** The linked neighbour a lateral direction reads across the chunk edge. */
  function Slot(m: MeshInput, d: Direction): Option<seq<BlockType>> {
    match d
    case XPos => m.xPos
    case XNeg => m.xNeg
    case ZPos => m.zPos
    case ZNeg => m.zNeg
    case _ => None
  }

  /** Local cell (x, _, z) lies on the chunk edge that d points across. */
  predicate OnEdge(x: int, z: int, d: Direction) {
    (d == XPos && x == 15) || (d == XNeg && x == 0) || (d == ZPos && z == 15) || (d == ZNeg && z == 0)
  }

  /** Across a lateral edge a face reads the facing edge cell of the linked
      neighbour (x = 0 of the chunk to +x, x = 15 of the chunk to -x, and
      likewise along z), and EMPTY when no neighbour is linked. */
  lemma {:induction false} EdgeFaceReadsNeighbour(m: MeshInput, x: int, y: int, z: int, d: Direction)
    requires m.Valid() && InBox(x, y, z) && OnEdge(x, z, d)
    ensures var across := Slot(m, d);
      AdjacentBlock(m, x, y, z, d)
      == if across.None? then Empty
         else if d == XPos then across.value[FlatIndex(0, y, z)]
         else if d == XNeg then across.value[FlatIndex(15, y, z)]
         else if d == ZPos then across.value[FlatIndex(x, y, 0)]
         else across.value[FlatIndex(x, y, 15)]
  {
  }

  /** WATER and LAVA faces, and only they, carry the animation flag
      uv.z = 1; the table itself never sets it. */
  lemma {:induction false} AnimatedIffWaterOrLava(b: BlockType, d: Direction)
    requires FaceUV(b, d).Some?
    ensures FaceUV(b, d).value.z == 1.0 <==> b == Water || b == Lava
    ensures FaceUV(b, d).value.z == 0.0 <==> b != Water && b != Lava
  {
    AtlasCellsOnGrid(b, d);
  }

  /** A cell whose six neighbours are all of its own material, other than
      cactus, emits no face. */
  lemma {:induction false} EnclosedCellEmitsNothing(m: MeshInput, i: int, k: int)
    requires m.Valid() && 0 <= i < ChunkCells && 0 <= k <= 6
    requires m.cells[i] != Cactus
    requires forall d :: d in FaceDirections ==> AdjacentBlock(m, CellX(i), CellY(i), CellZ(i), d) == m.cells[i]
    ensures CellFacesUpTo(m, i, k) == []
  {
    if k > 0 && m.cells[i] != Empty {
      EnclosedCellEmitsNothing(m, i, k - 1);
      assert FaceDirections[k - 1] in FaceDirections;
    }
  }

  /** The neighbours of a block that is alone in an unlinked chunk are all
      EMPTY: inside the box they are other cells, outside it they read as
      EMPTY. */
  lemma {:induction false} IsolatedNeighboursEmpty(m: MeshInput, p: int, d: Direction)
    requires m.Valid() && m.xPos.None? && m.xNeg.None? && m.zPos.None? && m.zNeg.None?
    requires 0 <= p < ChunkCells && IsFaceDirection(d)
    requires forall i :: 0 <= i < ChunkCells && i != p ==> m.cells[i] == Empty
    ensures AdjacentBlock(m, CellX(p), CellY(p), CellZ(p), d) == Empty
  {
    FlatIndexOnto(p);
    var x, y, z := CellX(p), CellY(p), CellZ(p);
    var ax, ay, az :=
      if d == XPos then x + 1 else if d == XNeg then x - 1 else x,
      if d == YPos then y + 1 else if d == YNeg then y - 1 else y,
      if d == ZPos then z + 1 else if d == ZNeg then z - 1 else z;
    if InBox(ax, ay, az) {
      FlatIndexDistinct(ax, ay, az, x, y, z);
      FlatIndexInjective(ax, ay, az);
    }
  }

  /** The lone block emits one opaque face per direction checked. */
  lemma {:induction false} IsolatedCellFaces(m: MeshInput, p: int, k: int)
    requires m.Valid() && m.xPos.None? && m.xNeg.None? && m.zPos.None? && m.zNeg.None?
    requires 0 <= p < ChunkCells && 0 <= k <= 6
    requires forall i :: 0 <= i < ChunkCells && i != p ==> m.cells[i] == Empty
    requires m.cells[p] != Empty && !IsTransparent(m.cells[p])
    ensures |CellFacesUpTo(m, p, k)| == k
    ensures CountFaces(CellFacesUpTo(m, p, k), false) == k && CountFaces(CellFacesUpTo(m, p, k), true) == 0
  {
    if k > 0 {
      IsolatedCellFaces(m, p, k - 1);
      IsolatedNeighboursEmpty(m, p, FaceDirections[k - 1]);
      var fs := CellFacesUpTo(m, p, k);
      assert fs[..|fs| - 1] == CellFacesUpTo(m, p, k - 1);
    }
  }

  /** Only the lone block contributes faces to the chunk's face list. */
  lemma {:induction false} IsolatedFaceList(m: MeshInput, p: int, n: int)
    requires m.Valid() && 0 <= p < ChunkCells && 0 <= n <= ChunkCells
    requires forall i :: 0 <= i < ChunkCells && i != p ==> m.cells[i] == Empty
    ensures FacesBefore(m, n) == if n <= p then [] else CellFaces(m, p)
  {
    if n > 0 {
      IsolatedFaceList(m, p, n - 1);
    }
  }

  /** A single opaque block alone in a chunk without linked neighbours is
      drawn as a whole cube: 6 quads, 36 indices and 72 vertex records in
      the opaque buffers and nothing in the transparent ones. */
  lemma {:induction false} IsolatedBlockMesh(m: MeshInput, p: int)
    requires m.Valid() && m.xPos.None? && m.xNeg.None? && m.zPos.None? && m.zNeg.None?
    requires 0 <= p < ChunkCells
    requires forall i :: 0 <= i < ChunkCells && i != p ==> m.cells[i] == Empty
    requires m.cells[p] != Empty && m.cells[p] != Sap && !IsTransparent(m.cells[p])
    ensures ChunkMesh(m).Ok?
    ensures var mesh := ChunkMesh(m).value;
      |mesh.solid.idx| == 36 && |mesh.solid.data| == 72 && mesh.trans == NoBuffers
  {
    IsolatedFaceList(m, p, ChunkCells);
    var fs := CellFaces(m, p);
    IsolatedCellFaces(m, p, 6);
    CellFacesShape(m, p, 6);
    BuildSucceedsIff(fs);
    BuildCounts(fs);
  }

  /** One step of a build: the mesh of a list is the mesh of all but its
      last face, with the last face added. */
  lemma {:induction false} BuildStep(fs: seq<Face>)
    requires fs != []
    ensures Build(fs) == match Build(fs[..|fs| - 1])
                         case Err(e) => Err(e)
                         case Ok(m) => AddFace(m, fs[|fs| - 1])
  {
  }

  /** Appending one face to a list that builds adds that face to its mesh. */
  lemma {:induction false} BuildAppend(fs: seq<Face>, f: Face)
    requires Build(fs).Ok?
    ensures Build(fs + [f]) == AddFace(Build(fs).value, f)
  {
    BuildStep(fs + [f]);
    assert (fs + [f])[..|fs|] == fs;
  }

  /** Once building fails, further faces do not change the failure. */
  lemma {:induction false} BuildErrPersists(fs: seq<Face>, gs: seq<Face>)
    requires Build(fs).Err?
    ensures Build(fs + gs) == Build(fs)
  {
    if gs != [] {
      var init := gs[..|gs| - 1];
      BuildErrPersists(fs, init);
      var all := fs + gs;
      assert all[..|all| - 1] == fs + init;
      BuildStep(all);
    } else {
      assert fs + gs == fs;
    }
  }

  /** A failed build stays failed when its list grows at the end. */
  lemma {:induction false} BuildErrPrefix(fs: seq<Face>, gs: seq<Face>)
    requires Build(fs).Err? && |fs| <= |gs| && gs[..|fs|] == fs
    ensures Build(gs) == Build(fs)
  {
    var tail := gs[|fs|..];
    assert gs == fs + tail;
    BuildErrPersists(fs, tail);
  }

  /** The faces of a cell up to direction k start its faces up to k + 1. */
  lemma {:induction false} CellFacesPrefix(m: MeshInput, i: int, k: int)
    requires m.Valid() && 0 <= i < ChunkCells && 0 <= k < 6
    ensures var a := CellFacesUpTo(m, i, k); var b := CellFacesUpTo(m, i, k + 1);
      |a| <= |b| && b[..|a|] == a
  {
  }

  /** The faces of a cell up to direction k start its faces up to any
      later direction k'. */
  lemma {:induction false} CellFacesGrow(m: MeshInput, i: int, k: int, k': int)
    requires m.Valid() && 0 <= i < ChunkCells && 0 <= k <= k' <= 6
    ensures var a := CellFacesUpTo(m, i, k); var b := CellFacesUpTo(m, i, k');
      |a| <= |b| && b[..|a|] == a
    decreases k' - k
  {
    if k < k' {
      CellFacesGrow(m, i, k, k' - 1);
      CellFacesPrefix(m, i, k' - 1);
      var a := CellFacesUpTo(m, i, k);
      var b := CellFacesUpTo(m, i, k' - 1);
      var c := CellFacesUpTo(m, i, k');
      assert c[..|a|] == c[..|b|][..|a|];
    }
  }

  /** A common start keeps a prefix a prefix. */
  lemma {:induction false} PrefixAfter(pre: seq<Face>, a: seq<Face>, b: seq<Face>)
    requires |a| <= |b| && b[..|a|] == a
    ensures |pre + a| <= |pre + b| && (pre + b)[..|pre + a|] == pre + a
  {
    assert (pre + b)[..|pre + a|] == pre + b[..|a|];
  }

  /** A failure among the first k faces of a cell is the failure of the
      whole cell. */
  lemma {:induction false} CellFacesErrPersists(m: MeshInput, i: int, pre: seq<Face>, k: int)
    requires m.Valid() && 0 <= i < ChunkCells && 0 <= k <= 6
    requires Build(pre + CellFacesUpTo(m, i, k)).Err?
    ensures Build(pre + CellFaces(m, i)) == Build(pre + CellFacesUpTo(m, i, k))
  {
    var a := CellFacesUpTo(m, i, k);
    var b := CellFacesUpTo(m, i, 6);
    CellFacesGrow(m, i, k, 6);
    PrefixAfter(pre, a, b);
    BuildErrPrefix(pre + a, pre + b);
  }

  /** A failure among the faces of the first n cells is the failure of the
      whole chunk. */
  lemma {:induction false} FacesErrPersists(m: MeshInput, n: int)
    requires m.Valid() && 0 <= n <= ChunkCells
    requires Build(FacesBefore(m, n)).Err?
    ensures ChunkMesh(m) == Build(FacesBefore(m, n))
    decreases ChunkCells - n
  {
    if n < ChunkCells {
      BuildErrPersists(FacesBefore(m, n), CellFaces(m, n));
      FacesErrPersists(m, n + 1);
    }
  }

  /** Names position n of a mesh table: an entry is tied to the faces of
      the first n cells only where a proof names its position, which keeps
      the face lists of the other positions out of sight. */
  predicate Consulted(n: int) {
    true
  }

  /** t holds, at every position n, the mesh of the first n cells. */
  ghost predicate IsMeshTable(m: MeshInput, t: seq<Result<Mesh>>)
    requires m.Valid()
  {
    && |t| == ChunkCells + 1
    && forall n {:trigger Consulted(n)} :: 0 <= n <= ChunkCells && Consulted(n) ==> t[n] == Build(FacesBefore(m, n))
  }

  ghost function MeshTable(m: MeshInput): (t: seq<Result<Mesh>>)
    requires m.Valid()
    ensures IsMeshTable(m, t)
  {
    seq(ChunkCells + 1, n requires 0 <= n <= ChunkCells => Build(FacesBefore(m, n)))
  }

  /** The table starts with the empty mesh and ends with the chunk's. */
  lemma {:induction false} MeshTableEnds(m: MeshInput)
    requires m.Valid()
    ensures MeshTable(m)[0] == Ok(EmptyMesh) && MeshTable(m)[ChunkCells] == ChunkMesh(m)
  {
    TableEntry(m, MeshTable(m), 0);
    TableEntry(m, MeshTable(m), ChunkCells);
  }

  lemma {:induction false} TableEntry(m: MeshInput, t: seq<Result<Mesh>>, n: int)
    requires m.Valid() && IsMeshTable(m, t) && 0 <= n <= ChunkCells
    ensures t[n] == Build(FacesBefore(m, n))
  {
    assert Consulted(n);
  }

  /** A failure at any position of the table is the failure of the whole
      chunk, found at its last position. */
  lemma {:induction false} TableErrPersists(m: MeshInput, t: seq<Result<Mesh>>, n: int)
    requires m.Valid() && IsMeshTable(m, t) && 0 <= n <= ChunkCells && t[n].Err?
    ensures t[ChunkCells] == t[n] == ChunkMesh(m)
  {
    TableEntry(m, t, n);
    TableEntry(m, t, ChunkCells);
    FacesErrPersists(m, n);
  }
}
