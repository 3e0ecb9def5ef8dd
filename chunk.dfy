/** A chunk: a 16 x 256 x 16 block array with a world corner, links to its
    four lateral neighbours, and the mesh built from its cells. */
module Chunks {
  import opened Wrappers
  import opened Machine
  import opened Blocks
  import opened FaceTables
  import opened Grid
  import opened Meshing

  /** The interleaved vertex and index buffers a chunk keeps between mesh
      builds and uploads. */
  datatype VBOdata = VBOdata(solidData: seq<Vec4>, transData: seq<Vec4>, solidIdx: seq<int>, transIdx: seq<int>)

  const NoVBOdata: VBOdata := VBOdata([], [], [], [])

  /** The buffers of a built mesh, as stored in the chunk. */
  function Published(m: Mesh): VBOdata {
    VBOdata(m.solid.data, m.trans.data, m.solid.idx, m.trans.idx)
  }

  /** The array position `setLocalBlockAt` computes: `x + 16*y + 4096*z` in
      `unsigned int` arithmetic, which wraps modulo 2^32. */
  function WrappedIndex(x: uint32, y: uint32, z: uint32): uint32 {
    WrapU32(x + 16 * y + 4096 * z)
  }

  /** Inside the box the wrapped index is the flat index. */
  lemma {:induction false} WrappedIndexInBox(x: uint32, y: uint32, z: uint32)
    requires InBox(x, y, z)
    ensures WrappedIndex(x, y, z) == FlatIndex(x, y, z) < ChunkCells
  {
  }

  /** Writing one layer above the top of a column lands on the bottom cell of
      the next row along z ... */
  lemma {:induction false} WriteAboveTopAliases(x: uint32, z: uint32)
    requires x < 16 && z < 15
    ensures WrappedIndex(x, 256, z) == FlatIndex(x, 0, z + 1) < ChunkCells
  {
  }

  /** ... and writing one layer below the bottom (y = -1 cast to unsigned)
      lands on the top cell of the previous row. */
  lemma {:induction false} WriteBelowBottomAliases(x: uint32, z: uint32)
    requires x < 16 && 0 < z < 16
    ensures WrappedIndex(x, Unsigned(-1), z) == FlatIndex(x, 255, z - 1) < ChunkCells
  {
  }

  /** A possibly null reference to a chunk; a non-null one always has its full
      block array, so neighbour cells can be read without further checks. */
  type ChunkPtr = c: Chunk? | c == null || c.blocks.Length == ChunkCells witness null

  class Chunk {
    /** The world coordinates of the chunk's lower-left corner. */
    const minX: int32
    const minZ: int32
    /** The cells, at positions `FlatIndex(x, y, z)`. */
    const blocks: array<BlockType>
    /** The neighbour in each lateral direction, null when absent. */
    var neighbors: map<Direction, ChunkPtr>
    /** The buffers of the last mesh build. */
    var vbo: VBOdata
    /** The index counts of the last upload, -1 before the first. */
    var indexCount: int
    var transIndexCount: int

    predicate Valid() {
      blocks.Length == ChunkCells
    }

    /** A new chunk is entirely EMPTY, has four null neighbour slots and no
        mesh. */
    constructor (x: int32, z: int32)
      ensures Valid() && fresh(blocks) && minX == x && minZ == z
      ensures blocks[..] == EmptyCells
      ensures neighbors == map[XPos := null, XNeg := null, ZPos := null, ZNeg := null]
      ensures vbo == NoVBOdata && indexCount == -1 && transIndexCount == -1
    {
      minX, minZ := x, z;
      blocks := new BlockType[ChunkCells](_ => Empty);
      neighbors := map[XPos := null, XNeg := null, ZPos := null, ZNeg := null];
      vbo := NoVBOdata;
      indexCount, transIndexCount := -1, -1;
    }

    /** The unsigned lookup: EMPTY outside the box, the cell inside it. */
    function GetLocalBlockAtUnsigned(x: uint32, y: uint32, z: uint32): (r: BlockType)
      requires Valid()
      reads blocks
      ensures InBox(x, y, z) ==> r == blocks[FlatIndex(x, y, z)]
      ensures !InBox(x, y, z) ==> r == Empty
    {
      if x >= 16 || y >= 256 || z >= 16 then Empty else blocks[x + 16 * y + 16 * 256 * z]
    }

    /** The signed lookup casts to unsigned first, so a negative coordinate
        becomes a value of at least 2^31 and reads as EMPTY: the lookup is
        the bounds-checked read of the cells. */
    function GetLocalBlockAt(x: int32, y: int32, z: int32): (r: BlockType)
      requires Valid()
      reads blocks
      ensures r == CellAt(blocks[..], x, y, z)
    {
      GetLocalBlockAtUnsigned(Unsigned(x), Unsigned(y), Unsigned(z))
    }

    /** Writes one cell. Only the flat index is bounds-checked: coordinates
        outside the box whose wrapped index is below 65536 overwrite another
        cell, and the rest throw without changing anything. */
    method SetLocalBlockAt(x: uint32, y: uint32, z: uint32, t: BlockType) returns (r: Outcome)
      requires Valid()
      modifies blocks
      ensures WrappedIndex(x, y, z) < ChunkCells ==> r == Pass && blocks[..] == old(blocks[..])[WrappedIndex(x, y, z) := t]
      ensures WrappedIndex(x, y, z) >= ChunkCells ==> r == Fail(OutOfRange) && blocks[..] == old(blocks[..])
      ensures InBox(x, y, z) ==> r == Pass
      ensures InBox(x, y, z) ==> forall x', y', z' ::
        CellAt(blocks[..], x', y', z') == if x' == x && y' == y && z' == z then t else CellAt(old(blocks[..]), x', y', z')
    {
      var i := WrapU32(x + 16 * y + 16 * 256 * z);
      if i >= ChunkCells {
        return Fail(OutOfRange);
      }
      blocks[i] := t;
      r := Pass;
      if InBox(x, y, z) {
        forall x', y', z' | InBox(x', y', z')
          ensures FlatIndex(x', y', z') == i <==> x' == x && y' == y && z' == z
        {
          FlatIndexDistinct(x', y', z', x, y, z);
        }
      }
    }

    /** Links a neighbour both ways: this chunk's slot `dir` and the
        neighbour's opposite slot. A null neighbour changes nothing. A
        diagonal direction has no opposite: the first link is made and then
        the lookup throws. */
    method LinkNeighbor(nb: ChunkPtr, dir: Direction) returns (r: Outcome)
      requires Valid()
      modifies this`neighbors, if nb == null then {} else {nb}`neighbors
      ensures vbo == old(vbo) && indexCount == old(indexCount) && transIndexCount == old(transIndexCount)
      ensures nb == null ==> r == Pass && neighbors == old(neighbors)
      ensures nb != null && Opposite(dir).None? ==>
        && r == Fail(OutOfRange)
        && neighbors == old(neighbors)[dir := nb]
        && (nb != this ==> nb.neighbors == old(nb.neighbors))
      ensures nb != null && Opposite(dir).Some? ==>
        && r == Pass
        && (nb == this ==> neighbors == old(neighbors)[dir := nb][Opposite(dir).value := this])
        && (nb != this ==> neighbors == old(neighbors)[dir := nb] && nb.neighbors == old(nb.neighbors)[Opposite(dir).value := this])
      ensures nb != null && Opposite(dir).Some? ==>
        dir in neighbors && neighbors[dir] == nb && Opposite(dir).value in nb.neighbors && nb.neighbors[Opposite(dir).value] == this
    {
      if nb != null {
        neighbors := neighbors[dir := nb];
        var opposite := Opposite(dir);
        if opposite.None? {
          return Fail(OutOfRange);
        }
        nb.neighbors := nb.neighbors[opposite.value := this];
      }
      r := Pass;
    }

    /** The slots that hold a chunk. */
    function LinkedDirections(): set<Direction>
      reads this
    {
      set d | d in neighbors && neighbors[d] != null
    }

    /** The non-null neighbours: every linked chunk once per slot holding it,
        and nothing else. The source walks a hash map; the order of the
        result is not specified. */
    method GetNeighbors() returns (ns: seq<Chunk>)
      ensures forall c :: c in ns <==> exists d :: d in neighbors && neighbors[d] == c
      ensures |ns| == |LinkedDirections()|
    {
      ns := [];
      ghost var seen: set<Direction> := {};
      ghost var from: seq<Direction> := [];
      for k := 0 to |AllDirections|
        invariant forall d :: d in seen <==> Ordinal(d) < k && d in neighbors && neighbors[d] != null
        invariant |ns| == |seen| == |from|
        invariant forall j :: 0 <= j < |ns| ==> from[j] in seen && ns[j] == neighbors[from[j]]
        invariant forall d :: d in seen ==> neighbors[d] in ns
      {
        var d := AllDirections[k];
        OrdinalAt(k);
        if d in neighbors && neighbors[d] != null {
          ns := ns + [neighbors[d]];
          from := from + [d];
          seen := seen + {d};
        }
      }
      assert seen == LinkedDirections();
      forall c | c in ns
        ensures exists d :: d in neighbors && neighbors[d] == c
      {
        var j :| 0 <= j < |ns| && ns[j] == c;
        assert from[j] in neighbors;
      }
    }

    /** The cells of the linked neighbour in lateral direction d. */
    ghost function LinkedCells(d: Direction): Option<seq<BlockType>>
      reads this`neighbors, NeighborArrays()
    {
      if d in neighbors && neighbors[d] != null then Some(neighbors[d].blocks[..]) else None
    }

    ghost function NeighborArrays(): set<array<BlockType>>
      reads this`neighbors
    {
      set d | d in neighbors && neighbors[d] != null :: neighbors[d].blocks
    }

    /** Everything the mesher reads from this chunk and its neighbours. */
    ghost function MeshSource(): (m: MeshInput)
      requires Valid()
      reads this`neighbors, blocks, NeighborArrays()
      ensures m.Valid()
    {
      MeshInput(blocks[..], LinkedCells(XPos), LinkedCells(XNeg), LinkedCells(ZPos), LinkedCells(ZNeg), minX, minZ)
    }

    /** Appends the quad of one face to a buffer pair: four corners of three
        records each (position, normal, atlas coordinate) and two triangles
        of indices; the atlas z is 1 for WATER and LAVA. Throws, leaving the
        buffers as they were, when a table has no entry for the face. */
    method UpdateVBOdata(b: Buffers, blockPos: Vec4, dir: Direction, bType: BlockType) returns (r: Result<Buffers>)
      ensures r == AppendQuad(b, Face(blockPos, dir, bType))
    {
      var face := FaceAt(dir);
      if face.None? {
        return Err(OutOfRange);
      }
      var uv := AtlasCoordinate(bType, dir);
      if uv.None? {
        return Err(OutOfRange);
      }
      var f := face.value;
      var nor := Vec4(f.dirVector.x as real, f.dirVector.y as real, f.dirVector.z as real, 1.0);
      var data := AppendCorners(b.data, f, nor, uv.value, blockPos);
      var v := b.vertCount;
      var idx := b.idx + [v, v + 1, v + 2, v, v + 2, v + 3];
      return Ok(Buffers(data, idx, v + 4));
    }

    /** The atlas lookup of `updateVBOdata`: the table cell of the face,
        with z set to 1 for WATER and LAVA; None when the table has no
        entry. */
    method AtlasCoordinate(bType: BlockType, dir: Direction) returns (uv: Option<Vec4>)
      ensures uv == FaceUV(bType, dir)
    {
      var cell := AtlasCellOf(bType, dir);
      if cell.None? {
        return None;
      }
      var v := AtlasVec(cell.value);
      if bType == Water || bType == Lava {
        v := v.(z := 1.0);
      }
      return Some(v);
    }

    /** The corner loop of `updateVBOdata`: position, normal and atlas
        coordinate of each of the four corners of face f, in order. */
    method AppendCorners(data: seq<Vec4>, f: BlockFace, nor: Vec4, uv: Vec4, blockPos: Vec4) returns (r: seq<Vec4>)
      requires |f.vertices| == 4 && nor == Normal(f)
      ensures r == data + QuadData(f, uv, blockPos, 4)
    {
      r := data;
      for i := 0 to 4
        invariant r == data + QuadData(f, uv, blockPos, i)
      {
        r := r + [f.vertices[i].pos.Plus(blockPos), nor, uv.Plus(f.vertices[i].uv)];
      }
    }

    /** The blocks beside local cell (x, y, z) in the six face directions,
        in enum order, reading across the lateral edges into linked
        neighbours. */
    method NeighborBlocks(x: int, y: int, z: int) returns (adjacent: seq<BlockType>)
      requires Valid() && InBox(x, y, z)
      ensures adjacent == Neighbourhood(MeshSource(), x, y, z)
    {
      var (xPos, xNeg) := NeighborsAlongX(x, y, z);
      var (yPos, yNeg) := NeighborsAlongY(x, y, z);
      var (zPos, zNeg) := NeighborsAlongZ(x, y, z);
      adjacent := [xPos, xNeg, yPos, yNeg, zPos, zNeg];
    }

    /** The blocks at x + 1 and x - 1: the chunk's own cells, except across
        an edge with a linked neighbour, whose facing edge cell is read. */
    function NeighborsAlongX(x: int, y: int, z: int): (r: (BlockType, BlockType))
      requires Valid() && InBox(x, y, z)
      reads this`neighbors, blocks, NeighborArrays()
      ensures r == (AdjacentBlock(MeshSource(), x, y, z, XPos), AdjacentBlock(MeshSource(), x, y, z, XNeg))
    {
      var xPos := if x == 15 && XPos in neighbors && neighbors[XPos] != null then neighbors[XPos].GetLocalBlockAt(0, y, z)
                  else GetLocalBlockAt(x + 1, y, z);
      var xNeg := if x == 0 && XNeg in neighbors && neighbors[XNeg] != null then neighbors[XNeg].GetLocalBlockAt(15, y, z)
                  else GetLocalBlockAt(x - 1, y, z);
      (xPos, xNeg)
    }

    /** The blocks at y + 1 and y - 1: EMPTY above the top and below the
        bottom layer. */
    function NeighborsAlongY(x: int, y: int, z: int): (r: (BlockType, BlockType))
      requires Valid() && InBox(x, y, z)
      reads this`neighbors, blocks, NeighborArrays()
      ensures r == (AdjacentBlock(MeshSource(), x, y, z, YPos), AdjacentBlock(MeshSource(), x, y, z, YNeg))
    {
      var yPos := if y == 255 then Empty else GetLocalBlockAt(x, y + 1, z);
      var yNeg := if y == 0 then Empty else GetLocalBlockAt(x, y - 1, z);
      (yPos, yNeg)
    }

    /** The blocks at z + 1 and z - 1, read as along x. */
    function NeighborsAlongZ(x: int, y: int, z: int): (r: (BlockType, BlockType))
      requires Valid() && InBox(x, y, z)
      reads this`neighbors, blocks, NeighborArrays()
      ensures r == (AdjacentBlock(MeshSource(), x, y, z, ZPos), AdjacentBlock(MeshSource(), x, y, z, ZNeg))
    {
      var zPos := if z == 15 && ZPos in neighbors && neighbors[ZPos] != null then neighbors[ZPos].GetLocalBlockAt(x, y, 0)
                  else GetLocalBlockAt(x, y, z + 1);
      var zNeg := if z == 0 && ZNeg in neighbors && neighbors[ZNeg] != null then neighbors[ZNeg].GetLocalBlockAt(x, y, 15)
                  else GetLocalBlockAt(x, y, z - 1);
      (zPos, zNeg)
    }

    /** Emits the faces of local cell (x, y, z) into the mesh of all
        earlier cells, giving the mesh of the cells up to this one. */
    method EmitCell(x: int, y: int, z: int, ghost src: MeshInput, ghost t: seq<Result<Mesh>>, mesh: Mesh) returns (r: Result<Mesh>)
      requires Valid() && src == MeshSource() && IsMeshTable(src, t) && InBox(x, y, z)
      requires t[FlatIndex(x, y, z)] == Ok(mesh)
      ensures r == t[FlatIndex(x, y, z) + 1]
    {
      ghost var i := FlatIndex(x, y, z);
      TableEntry(src, t, i);
      TableEntry(src, t, i + 1);
      ghost var before := FacesBefore(src, i);
      FlatIndexInjective(x, y, z);
      var cur := GetLocalBlockAt(x, y, z);
      if cur == Empty {
        assert CellFaces(src, i) == [];
        assert before + [] == before;
        return Ok(mesh);
      }
      var pos := Vec4((x + minX) as real, y as real, (z + minZ) as real, 0.0);
      var adjacent := NeighborBlocks(x, y, z);
      NeighbourhoodInOrder(src, x, y, z);
      r := EmitFaces(x, y, z, cur, pos, adjacent, src, before, mesh);
      assert FacesBefore(src, i + 1) == before + CellFaces(src, i);
    }

    /** Emits the visible faces of the non-empty cell (x, y, z), given its
        six neighbouring blocks, after the faces in `before`. */
    method EmitFaces(x: int, y: int, z: int, cur: BlockType, pos: Vec4, adjacent: seq<BlockType>,
                     ghost src: MeshInput, ghost before: seq<Face>, mesh: Mesh) returns (r: Result<Mesh>)
      requires src.Valid() && InBox(x, y, z) && cur != Empty
      requires cur == src.cells[FlatIndex(x, y, z)] && pos == BlockPos(src, x, y, z)
      requires |adjacent| == 6 && forall k :: 0 <= k < 6 ==> adjacent[k] == AdjacentBlock(src, x, y, z, FaceDirections[k])
      requires Build(before) == Ok(mesh)
      ensures r == Build(before + CellFaces(src, FlatIndex(x, y, z)))
    {
      ghost var i := FlatIndex(x, y, z);
      var m := mesh;
      assert before + CellFacesUpTo(src, i, 0) == before;
      for k := 0 to 6
        invariant Build(before + CellFacesUpTo(src, i, k)) == Ok(m)
      {
        var d := FaceDirections[k];
        var adj := adjacent[k];
        BuildCellStep(src, x, y, z, k, before, m);
        if adj == Empty || (IsTransparent(adj) && adj != cur) || adj == Cactus {
          var res: Result<Buffers>;
          if IsTransparent(cur) {
            res := UpdateVBOdata(m.trans, pos, d, cur);
          } else {
            res := UpdateVBOdata(m.solid, pos, d, cur);
          }
          if res.Err? {
            CellFacesErrPersists(src, i, before, k + 1);
            return Err(res.error);
          }
          m := if IsTransparent(cur) then m.(trans := res.value) else m.(solid := res.value);
        }
      }
      return Ok(m);
    }

    /** The innermost loop of the mesher: cells x = 0 .. 15 of row (y, z).
        It either extends the mesh of the cells before the row to the mesh
        of the cells up to the row's end, or fails as the whole chunk's mesh
        fails. */
    method EmitRow(y: int, z: int, ghost src: MeshInput, ghost t: seq<Result<Mesh>>, mesh: Mesh) returns (r: Result<Mesh>)
      requires Valid() && src == MeshSource() && IsMeshTable(src, t) && 0 <= y < ChunkHeight && 0 <= z < ChunkWidth
      requires t[16 * y + 4096 * z] == Ok(mesh)
      ensures r.Ok? ==> r == t[16 * y + 4096 * z + 16]
      ensures r.Err? ==> r == t[ChunkCells]
    {
      var m := mesh;
      ghost var i := 16 * y + 4096 * z;
      for x := 0 to 16
        invariant i == FlatIndex(x, y, z) && t[i] == Ok(m)
      {
        r := EmitCell(x, y, z, src, t, m);
        if r.Err? {
          TableErrPersists(src, t, i + 1);
          return;
        }
        m := r.value;
        i := i + 1;
      }
      return Ok(m);
    }

    /** The middle loop of the mesher: rows y = 0 .. 255 of layer z. */
    method EmitLayer(z: int, ghost src: MeshInput, ghost t: seq<Result<Mesh>>, mesh: Mesh) returns (r: Result<Mesh>)
      requires Valid() && src == MeshSource() && IsMeshTable(src, t) && 0 <= z < ChunkWidth
      requires t[4096 * z] == Ok(mesh)
      ensures r.Ok? ==> r == t[4096 * z + 4096]
      ensures r.Err? ==> r == t[ChunkCells]
    {
      var m := mesh;
      ghost var i := 4096 * z;
      for y := 0 to 256
        invariant i == 16 * y + 4096 * z && t[i] == Ok(m)
      {
        r := EmitRow(y, z, src, t, m);
        if r.Err? {
          return;
        }
        m := r.value;
        i := i + 16;
      }
      return Ok(m);
    }

    /** Runs the mesher over every cell, visiting z, then y, then x as the
        source does: the result is the mesh of the chunk, or the failure of
        its first face without an atlas entry. */
    method BuildMesh() returns (r: Result<Mesh>)
      requires Valid()
      ensures r == ChunkMesh(MeshSource())
    {
      ghost var src := MeshSource();
      ghost var t := MeshTable(src);
      MeshTableEnds(src);
      var mesh := EmptyMesh;
      for z := 0 to 16
        invariant t[4096 * z] == Ok(mesh)
      {
        r := EmitLayer(z, src, t, mesh);
        if r.Err? {
          return;
        }
        mesh := r.value;
      }
      return Ok(mesh);
    }

    /** Rebuilds the mesh from scratch: on success the buffers are exactly
        the mesh of the current cells and neighbour edges (nothing of the
        previous mesh survives); when a face has no atlas entry the build
        throws and the old buffers stay. */
    method GenerateVBOdata() returns (r: Outcome)
      requires Valid()
      modifies this`vbo
      ensures ChunkMesh(MeshSource()).Ok? ==> r == Pass && vbo == Published(ChunkMesh(MeshSource()).value)
      ensures ChunkMesh(MeshSource()).Err? ==> r == Fail(ChunkMesh(MeshSource()).error) && vbo == old(vbo)
    {
      var mesh := BuildMesh();
      if mesh.Err? {
        return Fail(mesh.error);
      }
      vbo := Published(mesh.value);
      r := Pass;
    }

    /** The upload step, reduced to what drawing reads back: the index
        counts of both buffer pairs. */
    method CreateVBOdata()
      modifies this`indexCount, this`transIndexCount
      ensures indexCount == |vbo.solidIdx| && transIndexCount == |vbo.transIdx|
    {
      indexCount := |vbo.solidIdx|;
      transIndexCount := |vbo.transIdx|;
    }

    /** The rebuild that follows a write: the old buffers are released,
        the mesh is built again from the current cells and neighbour edges
        and uploaded. When the build throws the old buffers stay and nothing
        is uploaded. */
    method Refresh() returns (r: Outcome)
      requires Valid()
      modifies this`vbo, this`indexCount, this`transIndexCount
      ensures var m := ChunkMesh(MeshSource());
        && (m.Ok? ==> r == Pass && vbo == Published(m.value)
                      && indexCount == |m.value.solid.idx| && transIndexCount == |m.value.trans.idx|)
        && (m.Err? ==> r == Fail(m.error) && vbo == old(vbo)
                       && indexCount == old(indexCount) && transIndexCount == old(transIndexCount))
    {
      r := GenerateVBOdata();
      if r.Pass? {
        CreateVBOdata();
      }
    }

    /** The chunk's corner. */
    function GetMin(): (int32, int32) {
      (minX, minZ)
    }
  }
}
