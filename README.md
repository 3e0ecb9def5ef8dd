# Mini-Minecraft voxel world, modelled in Dafny

This project models the voxel world of Mini-Minecraft, a small C++/OpenGL
block game, and proves properties of it. The world is made of chunks of
16 x 256 x 16 cells, kept in a hash map keyed by chunk corner. The model
covers the following.

- **Chunk storage** (`chunk.dfy`, `grid.dfy`, `blocks.dfy`). `Chunks.Chunk`
  is a class over a 65536-cell `array`. It models:
  - the bounds-checked reads and the write, which checks only the array
    index;
  - the two-way neighbour links;
  - the mesh builder (`generateVBOdata`), proved against the pure mesh
    specification in `meshing.dfy`.
- **Mesh tables** (`faces.dfy`). This is the face table and the texture
  atlas table of `chunk.h`, with their geometric facts.
- **Chunk keys** (`keys.dfy`). It models `toKey`/`toCoords` bit for bit on
  64-bit patterns, and the corner of the chunk that holds a column.
- **The terrain** (`world.dfy`). `World.Terrain` is a class over the map of
  chunk slots. It models:
  - `hasChunkAt`, both `getChunkAt` variants and `getGlobalBlockAt`;
  - `setGlobalBlockAt` together with the mesh rebuild that follows it;
  - `instantiateChunkAt`, with its four guarded link blocks;
  - `draw`, modelled as the sequence of draw calls it makes.
- **Terrain filling** (`layering.dfy`, `fill.dfy`). `fillChunk` is an
  imperative method over the chunk's array. It is proved to make exactly
  the writes of a pure specification: lava, the main layer loop with caves,
  gravel and ores, the sea, then grass patches and trees.
- **Assets** (`assets.dfy`). Each tree, cactus and patch generator is a
  method that writes through `setBlockSafe`. Each is proved to apply a
  list of writes given by a pure function, and the final shape of each is
  proved from that list.

Noise and `rand()` are inputs:

- A `Filling.Field` supplies moisture, temperature, height and the grass,
  cave and tree scores as functions.
- `rand() % 100` is a stream `Layering.Draws` read at a cursor. Every
  method that draws returns the new cursor.

The C++ integer types are subset types of `int`, declared in `machine.dfy`.
`static_cast<unsigned int>` is explicit. Exceptions become `Result`/`Outcome`
values.

## Model

| member | source | states |
|---|---|---|
| Machine.Unsigned | assignment_package/src/scene/terrain.cpp:66-68 | `static_cast<unsigned int>` of an int is the int itself when it is non-negative, and the int plus 2^32 when it is negative |
| Blocks.Ordinal | assignment_package/src/scene/chunk.h:28-31 | the enum value of a direction indexes it in the enum list, and the six face directions are exactly the first six values |
| Blocks.OrdinalAt | assignment_package/src/scene/chunk.h:28-31 | the k-th direction of the enum has value k |
| Blocks.Opposite | assignment_package/src/scene/chunk.cpp:28-35 | the opposite-direction table has an entry exactly for the six axis directions, and maps each one to the other direction of its enum pair (same axis, different direction) |
| Blocks.OppositeInvolution | assignment_package/src/scene/chunk.cpp:28-35 | the opposite of the opposite of an axis direction is the direction itself |
| FaceTables.OppositeReverses | assignment_package/src/scene/chunk.cpp:28-35 | the opposite of an axis direction has the negated unit vector, so it points the other way along the same axis |
| Grid.FlatIndexInjective | assignment_package/src/scene/chunk.cpp:12-15 | `x + 16y + 4096z` maps every cell of the box into [0, 65536), and the cell's coordinates can be read back from the index |
| Grid.FlatIndexOnto | assignment_package/src/scene/chunk.cpp:12-15 | every position of the block array is the index of one cell of the box |
| Grid.FlatIndexDistinct | assignment_package/src/scene/chunk.cpp:12-15 | two cells of the box share an array index if and only if they are the same cell |
| Keys.BitsOfInt64 | assignment_package/src/scene/terrain.cpp:24-38 | reading a 64-bit pattern as an `int64_t` and taking its bits again gives back the pattern |
| Keys.BitwiseKey | assignment_package/src/scene/terrain.cpp:24-38 | `toKey` step by step on 64-bit patterns: widen, shift x into the high half, mask z into the low half, AND; `ToKeyValue` proves its value is x * 2^32 + unsigned(z) and `KeyInjective` that distinct corners get distinct keys |
| Keys.ToCoords | assignment_package/src/scene/terrain.cpp:40-52 | `toCoords` on 64-bit patterns: arithmetic shift for x, mask and sign-extend for z; `KeyRoundTrip` proves it inverts `toKey` for every corner |
| Keys.ToKeyValue | assignment_package/src/scene/terrain.cpp:24-38 | the widen, shift, mask and AND steps of `toKey` compute the pattern with unsigned x high and unsigned z low, whose value is x * 2^32 + unsigned(z) |
| Keys.KeyHalves | assignment_package/src/scene/terrain.cpp:24-38 | the high half of a key is the bit pattern of x and the low half is that of z |
| Keys.KeyRoundTrip | assignment_package/src/scene/terrain.cpp:40-52 | `toCoords(toKey(x, z)) == (x, z)` for every pair of ints, negative ones included |
| Keys.KeyInjective | assignment_package/src/scene/terrain.cpp:24-38 | two corners have equal keys if and only if they are the same corner |
| Keys.ChunkCorner | assignment_package/src/scene/terrain.cpp:89-91 | `16 * floor(v / 16)` is a multiple of 16 whose 16-wide span holds v |
| Keys.CornerStep | assignment_package/src/scene/terrain.cpp:89-91 | the next column lies in the same chunk unless v is the last column of its chunk |
| Keys.CornerKeyShared | assignment_package/src/scene/terrain.cpp:81-98 | two columns map to the same chunk key if and only if they lie in the same 16 x 16 footprint |
| Keys.NegativeCorner | assignment_package/src/scene/terrain.cpp:86-90 | floor, not truncation: column -1 lies in the chunk at -16, and columns 15 and 16 lie in the chunks at 0 and 16 |
| FaceTables.FaceAt | assignment_package/src/scene/chunk.h:113-144 | `faces.at(dir)` has an entry if and only if dir is an axis direction; the entry is for that direction and has four corners |
| FaceTables.FaceNormals | assignment_package/src/scene/chunk.h:113-144 | each face's normal vector is the unit axis of its direction |
| FaceTables.FaceCornersOnSide | assignment_package/src/scene/chunk.h:113-144 | every corner of a face is a corner of the unit cube, lies on the side the face points to, and has w = 1 |
| FaceTables.FaceAtlasOffsets | assignment_package/src/scene/chunk.h:113-144 | the four atlas offsets of a face walk one atlas cell: (0,0), (1,0), (1,1), (0,1) in sixteenths |
| FaceTables.FacesWoundOutward | assignment_package/src/scene/chunk.h:113-144 | both index triangles (0,1,2) and (0,2,3) of every face are wound so that their normal is the face's outward vector |
| FaceTables.AtlasCellOf | assignment_package/src/scene/chunk.h:146-294 | `blockUVs.at(b).at(d)` has an entry if and only if b is neither EMPTY nor SAP and d is an axis direction |
| FaceTables.AtlasCellsOnGrid | assignment_package/src/scene/chunk.h:146-294 | every atlas origin in the table is a whole cell of the 16 x 16 atlas, and the table never sets the animation component |
| Meshing.NeighbourhoodInOrder | assignment_package/src/scene/chunk.cpp:127-131 | the neighbour array holds the six adjacent blocks in enum order XPOS, XNEG, YPOS, YNEG, ZPOS, ZNEG |
| Meshing.AdjacentBlock | assignment_package/src/scene/chunk.cpp:111-124 | the block beside a cell in one direction: its own cell inside the box, the linked neighbour's facing edge cell across a lateral edge, EMPTY without one and beyond the top and bottom; `EdgeFaceReadsNeighbour` and `Chunks.Chunk.NeighborBlocks` establish these cases |
| Meshing.FaceVisible | assignment_package/src/scene/chunk.cpp:137-138 | a face shows when the neighbour is EMPTY, a different transparent material, or CACTUS; `CellFaceIff` proves the mesher emits a face exactly then |
| Meshing.CellFaces | assignment_package/src/scene/chunk.cpp:133-149 | the faces one cell emits, in enum order of directions; `CellFaceIff`, `CellFacesShape` and `EnclosedCellEmitsNothing` state which faces these are |
| Meshing.Build | assignment_package/src/scene/chunk.cpp:161-191 | the buffers a face list gives through `updateVBOdata`, or its first throwing face; `BuildCounts`, `BuildSucceedsIff` and `AppendQuadHolds` state its counts, its failure condition and that its indices stay in range |
| Meshing.ChunkMesh | assignment_package/src/scene/chunk.cpp:94-159 | the mesh of a whole chunk, all cells in z/y/x order; `Chunks.Chunk.GenerateVBOdata` is proved to produce it and `IsolatedBlockMesh` computes it for a lone block |
| Meshing.CellFacesStep | assignment_package/src/scene/chunk.cpp:133-149 | checking one direction more adds that direction's face exactly when the cell is not EMPTY and the face is visible |
| Meshing.BuildCellStep | assignment_package/src/scene/chunk.cpp:133-149 | building one direction more of a non-empty cell adds its face to the mesh when the face is visible, and nothing otherwise |
| Meshing.QuadDataLength | assignment_package/src/scene/chunk.cpp:174-181 | the corner loop emits three records (position, normal, atlas coordinate) per corner |
| Meshing.AppendQuadHolds | assignment_package/src/scene/chunk.cpp:161-191 | appending a quad to buffers that hold n quads gives buffers that hold n + 1 quads: 6 indices and 12 records each, every index below the vertex count |
| Meshing.BuildCounts | assignment_package/src/scene/chunk.cpp:133-149 | a built mesh holds one quad per face; WATER and ICE faces go in the transparent pair and all other faces in the opaque pair |
| Meshing.AllDrawableSnoc | assignment_package/src/scene/chunk.cpp:161-163 | a list of faces is drawable when all but its last face are and its last face is (if and only if) |
| Meshing.AddFaceOkIff | assignment_package/src/scene/chunk.cpp:161-163 | adding a face succeeds if and only if both tables have an entry for it; otherwise `.at()` throws |
| Meshing.BuildSucceedsIff | assignment_package/src/scene/chunk.cpp:94-159 | a list of axis faces builds if and only if none of them is of a material missing from the atlas table |
| Meshing.CellFacesShape | assignment_package/src/scene/chunk.cpp:110-149 | every face of a cell is at the cell's world position, has the cell's material and an axis direction, and there is at most one face per direction checked |
| Meshing.CellFaceIff | assignment_package/src/scene/chunk.cpp:106-149 | a cell emits a face toward d if and only if the cell is not EMPTY and the neighbour toward d is EMPTY, a different transparent material, or CACTUS |
| Meshing.CellFacesDirections | assignment_package/src/scene/chunk.cpp:133-149 | the faces among the first k directions point only in those directions |
| Meshing.EdgeFaceReadsNeighbour | assignment_package/src/scene/chunk.cpp:119-124 | across a lateral edge a face reads the facing edge cell of the linked neighbour, and EMPTY when no neighbour is linked |
| Meshing.AnimatedIffWaterOrLava | assignment_package/src/scene/chunk.cpp:163-170 | the atlas z of a face is 1 if and only if the block is WATER or LAVA, and 0 otherwise |
| Meshing.EnclosedCellEmitsNothing | assignment_package/src/scene/chunk.cpp:137-138 | a cell other than CACTUS whose six neighbours are all of its own material emits no face |
| Meshing.IsolatedNeighboursEmpty | assignment_package/src/scene/chunk.cpp:111-124 | in an unlinked chunk holding one block, all six neighbours of that block read EMPTY |
| Meshing.IsolatedCellFaces | assignment_package/src/scene/chunk.cpp:133-149 | the lone opaque block emits one opaque face per direction checked and no transparent face |
| Meshing.IsolatedFaceList | assignment_package/src/scene/chunk.cpp:103-108 | the EMPTY cells skip, so only the lone block contributes faces to the chunk's face list |
| Meshing.IsolatedBlockMesh | assignment_package/src/scene/chunk.cpp:94-159 | a lone opaque block in an unlinked chunk gives 6 quads: 36 indices and 72 records in the opaque buffers, and nothing in the transparent ones |
| Meshing.BuildStep | assignment_package/src/scene/chunk.cpp:133-149 | the mesh of a list is the mesh of all but its last face, with the last face added (or the earlier failure) |
| Meshing.BuildAppend | assignment_package/src/scene/chunk.cpp:133-149 | appending a face to a list that builds adds that face to its mesh |
| Meshing.BuildErrPersists | assignment_package/src/scene/chunk.cpp:161-163 | once a face throws, later faces do not change the failure |
| Meshing.BuildErrPrefix | assignment_package/src/scene/chunk.cpp:161-163 | a failed build stays the same failure when its list grows at the end |
| Meshing.CellFacesPrefix | assignment_package/src/scene/chunk.cpp:133-149 | the faces of a cell up to direction k start its faces up to direction k + 1 |
| Meshing.CellFacesGrow | assignment_package/src/scene/chunk.cpp:133-149 | the faces of a cell up to direction k start its faces up to any later direction |
| Meshing.CellFacesErrPersists | assignment_package/src/scene/chunk.cpp:133-149 | a failure among a cell's first k faces is the failure of the whole cell |
| Meshing.FacesErrPersists | assignment_package/src/scene/chunk.cpp:103-152 | a failure among the faces of the first n cells is the failure of the whole chunk |
| Meshing.MeshTable | assignment_package/src/scene/chunk.cpp:103-152 | there is a table whose entry n is the build of the faces of the first n cells, for every n up to the cell count |
| Meshing.MeshTableEnds | assignment_package/src/scene/chunk.cpp:96-152 | the table starts with the empty buffers and ends with the chunk's mesh |
| Meshing.TableEntry | assignment_package/src/scene/chunk.cpp:103-152 | entry n of any mesh table is the build of the faces of the first n cells |
| Meshing.TableErrPersists | assignment_package/src/scene/chunk.cpp:103-152 | a failure at any entry of the table is the chunk's failure and is found at its last entry |
| Chunks.WrappedIndexInBox | assignment_package/src/scene/chunk.cpp:23-25 | inside the box, the index `setLocalBlockAt` computes is the flat index of the cell |
| Chunks.WriteAboveTopAliases | assignment_package/src/scene/chunk.cpp:23-25 | a write at y = 256 lands on the bottom cell of the next row along z |
| Chunks.WriteBelowBottomAliases | assignment_package/src/scene/chunk.cpp:23-25 | a write at y = -1, cast to unsigned, lands on the top cell of the previous row along z |
| Chunks.Chunk.constructor | assignment_package/src/scene/chunk.cpp:4-9 | a new chunk has its corner, all cells EMPTY, four null neighbour slots and no mesh |
| Chunks.Chunk.GetLocalBlockAtUnsigned | assignment_package/src/scene/chunk.cpp:12-15 | the unsigned read gives the cell at the flat index inside the box, and EMPTY outside it |
| Chunks.Chunk.GetLocalBlockAt | assignment_package/src/scene/chunk.cpp:18-20 | the signed read, which casts to unsigned first, is the bounds-checked read of the cells, so negative coordinates read EMPTY |
| Chunks.Chunk.SetLocalBlockAt | assignment_package/src/scene/chunk.cpp:23-25 | the cell at the wrapped index becomes t when the index is below 65536, and `.at()` throws otherwise with nothing changed; inside the box exactly cell (x, y, z) changes |
| Chunks.Chunk.LinkNeighbor | assignment_package/src/scene/chunk.cpp:37-42 | a non-null neighbour is linked both ways, in slot dir here and in the opposite slot there; a null neighbour changes nothing; a diagonal makes the first link and then throws |
| Chunks.Chunk.GetNeighbors | assignment_package/src/scene/chunk.cpp:44-52 | the result holds exactly the non-null linked chunks, once per slot that holds one |
| Chunks.Chunk.UpdateVBOdata | assignment_package/src/scene/chunk.cpp:161-191 | appends the face's quad to the buffer pair, as the mesh specification's `AppendQuad` does (throwing on a missing table entry) |
| Chunks.Chunk.AtlasCoordinate | assignment_package/src/scene/chunk.cpp:162-170 | the face's atlas vector is the table entry with z set to 1 for WATER and LAVA, and there is none when the table has no entry |
| Chunks.Chunk.AppendCorners | assignment_package/src/scene/chunk.cpp:174-181 | the corner loop appends position + block position, the normal, and atlas vector + corner offset for each of the four corners, in order |
| Chunks.Chunk.NeighborBlocks | assignment_package/src/scene/chunk.cpp:111-131 | gives the six adjacent blocks in enum order, read across lateral edges into linked neighbours |
| Chunks.Chunk.NeighborsAlongX | assignment_package/src/scene/chunk.cpp:111-120 | the blocks at x + 1 and x - 1 are the chunk's own cells, except that across an edge with a linked neighbour its facing edge cell is read |
| Chunks.Chunk.NeighborsAlongY | assignment_package/src/scene/chunk.cpp:113-122 | the blocks at y + 1 and y - 1 are the chunk's own cells, and EMPTY above the top and below the bottom layer |
| Chunks.Chunk.NeighborsAlongZ | assignment_package/src/scene/chunk.cpp:115-124 | the blocks at z + 1 and z - 1, read as along x |
| Chunks.Chunk.MeshSource | assignment_package/src/scene/chunk.cpp:111-124 | everything the mesher reads: the chunk's cells, the cells of the four linked neighbours and the corner; it is always a well-formed mesh input |
| Chunks.Chunk.EmitCell | assignment_package/src/scene/chunk.cpp:106-150 | extends the mesh of the cells before (x, y, z) to the mesh of the cells up to it |
| Chunks.Chunk.EmitFaces | assignment_package/src/scene/chunk.cpp:133-149 | the loop over the six neighbours adds exactly the cell's visible faces to the mesh |
| Chunks.Chunk.EmitRow | assignment_package/src/scene/chunk.cpp:105-151 | the x loop extends the mesh through the row, or fails as the whole chunk fails |
| Chunks.Chunk.EmitLayer | assignment_package/src/scene/chunk.cpp:104-152 | the y loop extends the mesh through the layer, or fails as the whole chunk fails |
| Chunks.Chunk.BuildMesh | assignment_package/src/scene/chunk.cpp:103-152 | the z/y/x loops give the mesh of the chunk's cells and linked edges, or the failure of its first face without an atlas entry |
| Chunks.Chunk.GenerateVBOdata | assignment_package/src/scene/chunk.cpp:94-159 | on success the buffers are exactly the mesh of the current cells, and nothing of the old buffers survives; when a face throws the old buffers stay |
| Chunks.Chunk.CreateVBOdata | assignment_package/src/scene/chunk.cpp:54-62 | the index counts become the sizes of the opaque and transparent index buffers |
| Chunks.Chunk.Refresh | assignment_package/src/scene/terrain.cpp:123-126 | after a write the mesh is rebuilt from the current cells and its index counts are recorded; a throwing build keeps the old buffers |
| Layering.Percent | assignment_package/src/scene/terrain.cpp:331 | `rand() % 100` lies in 0..99 |
| Layering.GetBiomeType | assignment_package/src/scene/terrain.cpp:293-299 | the four biomes are the four quadrants of the moisture and temperature square, split at 0.5 (each as an if and only if) |
| Layering.GetMountainBlock | assignment_package/src/scene/terrain.cpp:271-273 | mountain surface is SNOW exactly on peaks at height 200 or more, and STONE otherwise |
| Layering.GetBlockType | assignment_package/src/scene/terrain.cpp:275-291 | the layered material of a column by height and biome; `BedrockLavaStone`, `UpperLayers` and `LayersAreTerrain` pin its bands and range |
| Layering.PickCell | assignment_package/src/scene/terrain.cpp:321-350 | the branch of one main-loop step and the draws it takes; `PickOutsideMountains`, `PickMineralsOnlyInMountains` and `CaveCellsEmpty` establish what each branch can place |
| Layering.BedrockLavaStone | assignment_package/src/scene/terrain.cpp:275-281 | in every biome, BEDROCK is exactly at 0, LAVA exactly at 1..25 and STONE exactly at 26..135 |
| Layering.UpperLayers | assignment_package/src/scene/terrain.cpp:282-291 | above 135, the surface cell gets the biome's surface material and the cells below it get dirt, sand or stone |
| Layering.LayersAreTerrain | assignment_package/src/scene/terrain.cpp:275-291 | layering yields only BEDROCK, LAVA, STONE, SNOW_DIRT, DIRT, SNOW, SAND or GRASS |
| Layering.MakeCaves | assignment_package/src/scene/terrain.cpp:418-425 | a cave is only possible at 130 <= y < 150 |
| Layering.PickOutsideMountains | assignment_package/src/scene/terrain.cpp:321-350 | outside the mountains every branch of the main loop writes the layered material, whatever the draws |
| Layering.PickMineralsOnlyInMountains | assignment_package/src/scene/terrain.cpp:330-350 | GRAVEL is picked only in mountains, and ores only in mountains strictly between heights 27 and 140 |
| Layering.CaveCellsEmpty | assignment_package/src/scene/terrain.cpp:321-328 | a mountain cave cell is EMPTY and takes no draw: caves lie above the lava, so the keep-lava branch never applies |
| Layering.MainLoop | assignment_package/src/scene/terrain.cpp:320-357 | k steps of the main loop write k cells and never move the draw cursor back |
| Layering.MainLoopNext | assignment_package/src/scene/terrain.cpp:320-357 | step k + 1 is the pick at height k from the cursor the earlier steps reached |
| Layering.MainLoopPrefix | assignment_package/src/scene/terrain.cpp:320-357 | later steps never change the cells already written |
| Layering.MainLoopCell | assignment_package/src/scene/terrain.cpp:320-357 | cell y is the pick at height y from the cursor reached after the cells below it |
| Layering.MainLoopOutsideMountains | assignment_package/src/scene/terrain.cpp:320-357 | outside the mountains the main loop writes exactly the layered materials |
| Layering.ColumnSea | assignment_package/src/scene/terrain.cpp:358-364 | a column below 138 is water from its surface to 138 (ice exactly in the snowy plains); a column at or above 138 keeps its main-loop cells |
| Layering.ColumnCell | assignment_package/src/scene/terrain.cpp:314-364 | the finished cell of a column after its lava, main and sea loops; `ColumnCellMinerals`, `ColumnCellOutsideMountains` and `ColumnCellCaves` state its content, and `Filling.ColumnPassCell` ties the loops to it |
| Layering.MainLoopMinerals | assignment_package/src/scene/terrain.cpp:320-357 | the main loop puts GRAVEL only in mountains, and ores only in mountains between 27 and 140 |
| Layering.ColumnCellBelowTop | assignment_package/src/scene/terrain.cpp:320-364 | below the surface a column has gravel or ore only where its main-loop cell had them |
| Layering.ColumnCellMinerals | assignment_package/src/scene/terrain.cpp:320-364 | below the surface a column has GRAVEL only in mountains, and ores only in mountains between 27 and 140 |
| Layering.ColumnCellOutsideMountains | assignment_package/src/scene/terrain.cpp:320-364 | outside the mountains a column holds exactly the layered materials from 0 to its surface, the flooded surface cell aside |
| Layering.MainLoopCaves | assignment_package/src/scene/terrain.cpp:321-328 | the main loop leaves every mountain cell the cave noise hollows out EMPTY |
| Layering.ColumnCellCaves | assignment_package/src/scene/terrain.cpp:320-364 | a hollowed-out mountain cell below the surface is EMPTY in the finished column |
| World.Local | assignment_package/src/scene/terrain.cpp:65-68 | the local coordinate `x - 16 * floor(x / 16)` lies in 0..15 and added to the corner gives back x |
| World.PutUnchecked | assignment_package/src/scene/terrain.cpp:116-122 | a write through the local unsigned coordinates never adds or removes a chunk |
| World.PutThenGet | assignment_package/src/scene/terrain.cpp:56-75 | after a height-checked write, the written cell reads b when the write landed, and every other cell reads what it did before |
| World.PutUncheckedInRange | assignment_package/src/scene/terrain.cpp:116-122 | inside the height range, the write without a height check is the checked write |
| World.PutUncheckedAboveTop | assignment_package/src/scene/asset.cpp:6-15 | a write at y = 256 lands on cell (x, 0, z + 1) of the same chunk |
| World.PutKeepsLowerLayers | assignment_package/src/scene/asset.cpp:6-15 | a checked write at height y leaves every cell of a lower layer alone |
| World.SameChunksKeepCells | assignment_package/src/scene/terrain.cpp:101-105 | slot maps that hold the same chunks hold the same arrays and cells |
| World.SameChunksCover | assignment_package/src/scene/terrain.cpp:81-98 | slot maps that hold the same chunks agree on `hasChunkAt` and on the chunk found |
| World.StoreChunk | assignment_package/src/scene/terrain.cpp:157-158 | storing a chunk with a fresh array under its own key keeps the map well keyed and adds exactly its cells |
| World.SlotChain | assignment_package/src/scene/terrain.cpp:140-155 | four `m_chunks[...]` lookups add exactly the absent keys looked up, each with a null slot |
| World.SlottedSame | assignment_package/src/scene/terrain.cpp:101-105 | a lookup that inserts a null slot keeps every chunk |
| World.SlottedCover | assignment_package/src/scene/terrain.cpp:81-105 | such a lookup changes no column's `hasChunkAt` |
| World.AroundUnfolds | assignment_package/src/scene/terrain.cpp:140-155 | the guarded blocks look up the keys of the four lateral corners, each when a chunk covered it before the blocks ran |
| World.AroundSlots | assignment_package/src/scene/terrain.cpp:140-155 | the four blocks keep every slot and add exactly the probed keys that were absent, each with a null slot |
| World.AroundSame | assignment_package/src/scene/terrain.cpp:140-155 | the four blocks keep every chunk |
| World.LinkedAround | assignment_package/src/scene/terrain.cpp:140-155 | a new chunk that links north, south, east and west in turn holds exactly the four neighbours found, null where none was |
| World.NullSlotKeepsChunks | assignment_package/src/scene/terrain.cpp:101-105 | a null slot under a new key adds no chunk and no array |
| World.NullSlotKeepsCells | assignment_package/src/scene/terrain.cpp:101-105 | a null slot under a new key changes no cell of the world |
| World.NullSlotKeepsCover | assignment_package/src/scene/terrain.cpp:81-98 | a null slot under a new key changes no column's `hasChunkAt` and keeps the map well keyed |
| World.StartsMembers | assignment_package/src/scene/terrain.cpp:165-166 | the draw loops visit exactly the values from lo below hi a whole number of 16-steps from lo |
| World.RowCallsStep | assignment_package/src/scene/terrain.cpp:166-173 | a row of `draw` is the call at z followed by the row from z + 16 |
| World.PassCallsStep | assignment_package/src/scene/terrain.cpp:165-174 | a pass of `draw` is row x followed by the pass from x + 16 |
| World.RowCallsIff | assignment_package/src/scene/terrain.cpp:166-173 | a row makes a call exactly for the corners whose chunk it shows |
| World.PassCallsIff | assignment_package/src/scene/terrain.cpp:165-174 | a pass makes a call exactly for the corners whose chunk it shows |
| World.DrawnIff | assignment_package/src/scene/terrain.cpp:163-186 | `draw` draws a chunk's buffers of one kind if and only if the chunk covers a visited corner and its index count of that kind is positive |
| World.PassCallsKind | assignment_package/src/scene/terrain.cpp:165-185 | every call of a pass is of that pass's kind |
| World.DrawOpaqueFirst | assignment_package/src/scene/terrain.cpp:163-186 | every opaque call of `draw` comes before every transparent call |
| World.Terrain.constructor | assignment_package/src/scene/terrain.cpp:13-16 | a new terrain holds no chunk and no generated key |
| World.Terrain.HasChunkAt | assignment_package/src/scene/terrain.cpp:81-98 | a chunk covers column (x, z) when the key of its floor corner holds a non-null chunk; `Keys.CornerKeyShared` and `World.Terrain.SameChunkOrOther` prove that columns share a chunk exactly when they share a footprint |
| World.Terrain.ChunkAt | assignment_package/src/scene/terrain.cpp:101-112 | the chunk over a covered column has the corner of the column's span, so the column lies in its footprint |
| World.Terrain.LookupChunkAt | assignment_package/src/scene/terrain.cpp:108-112 | `.at()` throws exactly when the key is absent, returns a non-null chunk exactly when `hasChunkAt` holds, and that chunk covers the column |
| World.Terrain.GetGlobalBlockAt | assignment_package/src/scene/terrain.cpp:56-75 | throws exactly when no chunk covers the column, reads EMPTY outside 0..255, and otherwise reads the covering chunk's cell |
| World.Terrain.ChunkSlot | assignment_package/src/scene/terrain.cpp:101-105 | `m_chunks[key]` returns the slot and inserts a null slot only when the key was absent; every chunk stays |
| World.Terrain.GetChunkAt | assignment_package/src/scene/terrain.cpp:101-105 | the mutable lookup returns the covering chunk or a new null slot, and changes no chunk and no column's cover |
| World.Terrain.WriteCell | assignment_package/src/scene/terrain.cpp:116-122 | the write through the covering chunk's unsigned local coordinates changes the world as the unchecked write says, or throws and changes nothing |
| World.Terrain.SetGlobalBlockAt | assignment_package/src/scene/terrain.cpp:114-133 | throws when no chunk covers the column; otherwise makes the unchecked write and rebuilds the covering chunk's mesh and counts |
| World.Terrain.LinkTo | assignment_package/src/scene/chunk.cpp:37-42 | linking a new chunk changes no cell; the new chunk links toward nb and nb links back |
| World.Terrain.LinkIfPresent | assignment_package/src/scene/terrain.cpp:140-143 | one guarded block may add a null slot, links the new chunk to the chunk found, and makes that chunk link back |
| World.Terrain.LinkPair | assignment_package/src/scene/terrain.cpp:140-147 | two guarded blocks in a row, each with the effect of one |
| World.Terrain.LinkAll | assignment_package/src/scene/terrain.cpp:140-155 | after the four blocks the new chunk is linked to every neighbour found, and each of them links back |
| World.Terrain.StoreAt | assignment_package/src/scene/terrain.cpp:157-158 | the chunk is stored under its corner key, replacing any chunk there, and the key is recorded as generated |
| World.Terrain.Probe | assignment_package/src/scene/terrain.cpp:140-155 | the chunk one guarded block finds: the slot under the key of a covered column, and null when `hasChunkAt` fails; `World.AroundUnfolds` and `World.LinkedAround` use it to state what the four blocks link |
| World.Terrain.Links | assignment_package/src/scene/terrain.cpp:140-155 | the four lateral neighbours a new chunk links to, one per direction ZPOS, ZNEG, XPOS, XNEG |
| World.Terrain.NewLinkedChunk | assignment_package/src/scene/terrain.cpp:136-155 | a new empty chunk is linked both ways with its neighbours; the cells of the world do not change |
| World.Terrain.InstantiateChunkAt | assignment_package/src/scene/terrain.cpp:135-160 | the world gains an all-EMPTY chunk at the corner, linked both ways with its neighbours; the map gains the probed null slots and the new chunk |
| World.Terrain.ShowsNow | assignment_package/src/scene/terrain.cpp:167-181 | a pass draws the chunk over a corner if and only if a chunk covers that column and its index count for the pass is positive |
| World.Terrain.CountsOf | assignment_package/src/scene/terrain.cpp:165-185 | the index counts `draw` reads, of one pass, for exactly the chunks held |
| World.Terrain.DrawRow | assignment_package/src/scene/terrain.cpp:166-173 | the inner loop makes exactly the row's draw calls |
| World.Terrain.DrawPass | assignment_package/src/scene/terrain.cpp:165-174 | the outer loop makes exactly the pass's draw calls |
| World.Terrain.Draw | assignment_package/src/scene/terrain.cpp:163-186 | `draw` makes the opaque pass over the area and then the transparent pass |
| World.Terrain.SameChunkOrOther | assignment_package/src/scene/terrain.cpp:81-105 | two covered columns share a chunk if and only if they share a footprint; different chunks have different arrays |
| Assets.StampSnoc | assignment_package/src/scene/asset.cpp:6-15 | one `setBlockSafe` more applies one write more |
| Assets.StampAppend | assignment_package/src/scene/asset.cpp:6-15 | writing two lists in turn is writing their concatenation |
| Assets.LastWriteAppend | assignment_package/src/scene/asset.cpp:6-15 | the last write to a cell in a concatenation is the second list's when it has one, and the first list's otherwise |
| Assets.StampCell | assignment_package/src/scene/asset.cpp:6-15 | later writes win: a covered in-range cell holds the block of the last write to it, and other cells are unchanged |
| Assets.StampSameLast | assignment_package/src/scene/asset.cpp:6-15 | two lists with the same last write to a cell leave the same block there |
| Assets.StampKeepsKey | assignment_package/src/scene/asset.cpp:6-15 | writes never add or remove a chunk |
| Assets.StampKeepsBelow | assignment_package/src/scene/asset.cpp:6-15 | writes all at height floor or above leave every cell of a lower layer alone |
| Assets.SetBlockSafeAsWritten | assignment_package/src/scene/asset.cpp:6-15 | as written: with a covering chunk, the write goes through unsigned local coordinates with no height check, so it may land in another cell or throw; without one nothing changes |
| Assets.SetBlockSafe | assignment_package/src/scene/asset.cpp:6-15 | with the height check: the cell becomes b when a chunk covers the column and y is in range, and nothing changes otherwise |
| Assets.StampWrite | assignment_package/src/scene/asset.cpp:6-15 | one `setBlockSafe` call extends the applied write list by one write |
| Assets.Run | assignment_package/src/scene/asset.cpp:19-21 | a trunk loop makes one write per height from y0 below top |
| Assets.RunLast | assignment_package/src/scene/asset.cpp:19-21 | a trunk loop writes b exactly at the cells of the column from y0 below top |
| Assets.RunAbove | assignment_package/src/scene/asset.cpp:19-21 | every write of a trunk loop is at height y0 or above |
| Assets.StampRun | assignment_package/src/scene/asset.cpp:19-21 | the trunk loop applies the run's writes in order |
| Assets.CellLast | assignment_package/src/scene/asset.cpp:25-32 | the body of the leaf loops writes at one or both heights exactly when the distance tests pass |
| Assets.RowLast | assignment_package/src/scene/asset.cpp:24-33 | the inner leaf loop writes b exactly at the cells of its row that pass the distance tests |
| Assets.SquareLast | assignment_package/src/scene/asset.cpp:23-34 | the outer leaf loop writes b exactly at the cells of its rows that pass the distance tests |
| Assets.LeavesLast | assignment_package/src/scene/asset.cpp:23-34 | the leaf loops write b exactly at the positions they reach |
| Assets.WriteLeafCell | assignment_package/src/scene/asset.cpp:25-32 | the body of the leaf loops applies the cell's writes |
| Assets.StampRowCell | assignment_package/src/scene/asset.cpp:24-33 | one pass of the inner leaf loop extends the applied list by one cell |
| Assets.StampRow | assignment_package/src/scene/asset.cpp:24-33 | the inner leaf loop applies the writes of a whole row |
| Assets.StampSquareRow | assignment_package/src/scene/asset.cpp:23-34 | one pass of the outer leaf loop extends the applied list by one row |
| Assets.StampLeaves | assignment_package/src/scene/asset.cpp:23-34 | the leaf loops apply the writes of the whole square |
| Assets.CrownLast | assignment_package/src/scene/asset.cpp:17-36 | a default-style tree leaves the peak leaf, then the leaf cells, then the trunk, later writes winning |
| Assets.TreeWrites | assignment_package/src/scene/asset.cpp:17-36 | the writes of the default trees in source order; `TreeShape` and `TreeCentreColumn` state the final tree |
| Assets.TreeLeavesIn | assignment_package/src/scene/asset.cpp:23-34 | the 5 x 5 loops reach the 13 cells within distance 2 at y + 3 and the 5 cells within distance 1 at y + 4 |
| Assets.TreeShape | assignment_package/src/scene/asset.cpp:17-36 | the default tree ends as WOOD trunk, two leaf diamonds that overwrite the trunk at y + 3, and a top leaf at y + 5 |
| Assets.TreeCentreColumn | assignment_package/src/scene/asset.cpp:17-36 | the centre column ends as WOOD from y to y + 2 and leaves from y + 3 to y + 5 |
| Assets.Tree2LeavesIn | assignment_package/src/scene/asset.cpp:44-54 | the 3 x 3 loops reach all nine cells at y + 4 and the five cells within distance 1 at y + 5 |
| Assets.Tree2Writes | assignment_package/src/scene/asset.cpp:38-58 | the writes of the second tree in source order; `Tree2Shape` states the final tree |
| Assets.Tree2Shape | assignment_package/src/scene/asset.cpp:38-58 | the second tree ends as trunk, the full 3 x 3 square at y + 4, the 5-cell diamond at y + 5 and a top leaf at y + 6 |
| Assets.DiamondLast | assignment_package/src/scene/asset.cpp:93-99 | leaf loops at one height write b exactly on the diamond of radius r there |
| Assets.LayerStepEven | assignment_package/src/scene/asset.cpp:90-101 | an even layer runs the leaf loops of radius 3 - layer at y + 3 + layer + 1 |
| Assets.LayerStepOdd | assignment_package/src/scene/asset.cpp:90-101 | an odd layer writes nothing |
| Assets.HighLayerLast | assignment_package/src/scene/asset.cpp:90-101 | from layer 4 on the radius is negative and an even layer writes nothing |
| Assets.LayerStepLast | assignment_package/src/scene/asset.cpp:90-101 | only layers 0 and 2 place leaves: a radius-3 diamond at y + 4 and a radius-1 diamond at y + 6 |
| Assets.LayersLast | assignment_package/src/scene/asset.cpp:90-101 | the 15 layers together place exactly those two diamonds |
| Assets.SnowTree2Writes | assignment_package/src/scene/asset.cpp:83-105 | the writes of the tall snow tree in source order; `SnowTree2Shape` states the final tree |
| Assets.SnowTree2Shape | assignment_package/src/scene/asset.cpp:83-105 | the tall snow tree ends as a WOOD trunk, the two diamonds overwriting it at y + 4 and y + 6, and the peak on the trunk's top |
| Assets.SideLeaf | assignment_package/src/scene/asset.cpp:113-123 | the side leaf is a SNOW_LEAF at the level's height on exactly one of the four sides of the trunk |
| Assets.DeadTrunkStep | assignment_package/src/scene/asset.cpp:110-124 | one trunk level adds WOOD and, above y + 3, the side leaf its draw picks |
| Assets.DeadTrunkLast | assignment_package/src/scene/asset.cpp:110-124 | the trunk levels leave WOOD in the centre column from y, and one side leaf beside each level from y + 4 |
| Assets.DeadSnowTreeWrites | assignment_package/src/scene/asset.cpp:108-129 | the writes of the dead snow tree for the draws read; `DeadSnowTreeShape` states the final tree |
| Assets.DeadSnowTreeShape | assignment_package/src/scene/asset.cpp:108-129 | the dead snow tree ends as WOOD from y to y + 9 plus one SNOW_LEAF beside each of levels y + 4 to y + 7; the four lower draws are discarded |
| Assets.Log | assignment_package/src/scene/asset.cpp:134-136 | the log loop makes one write per z from z0 below top |
| Assets.LogLast | assignment_package/src/scene/asset.cpp:134-136 | the log loop writes b exactly at the cells of row (x, y) from z0 below top |
| Assets.FallenTreeWrites | assignment_package/src/scene/asset.cpp:132-139 | the three writes of the fallen tree; `FallenTreeShape` states the final log |
| Assets.FallenTreeShape | assignment_package/src/scene/asset.cpp:132-139 | a fallen tree is three SIDE_WOOD cells at y + 1, from z to z + 2 |
| Assets.CactusWrites | assignment_package/src/scene/asset.cpp:142-155 | the writes of the cactus for one draw; `CactusShape` states its height by draw |
| Assets.CactusShape | assignment_package/src/scene/asset.cpp:142-155 | a cactus is a stack of 1, 2 or 3 CACTUS cells above the anchor and writes nothing else |
| Assets.GenerateDefaultTree | assignment_package/src/scene/asset.cpp:17-36 | the generator applies the default tree's writes with LEAF |
| Assets.GenerateDefaultSnowTree | assignment_package/src/scene/asset.cpp:61-80 | the generator applies the default tree's writes with SNOW_LEAF |
| Assets.StampCrown | assignment_package/src/scene/asset.cpp:17-36 | the trunk, leaf and top steps shared by the default trees apply the crown's writes |
| Assets.GenerateDefaultTree2 | assignment_package/src/scene/asset.cpp:38-58 | the generator applies the second tree's writes |
| Assets.StampLayer | assignment_package/src/scene/asset.cpp:90-101 | one pass of the layer loop applies that layer's writes |
| Assets.GenerateDefaultSnowTree2 | assignment_package/src/scene/asset.cpp:83-105 | the generator applies the trunk, the 15 layers and the peak |
| Assets.StampSideLeaf | assignment_package/src/scene/asset.cpp:113-123 | the side-leaf branch applies one write, on the side the draw's quartile picks |
| Assets.StampDeadLevel | assignment_package/src/scene/asset.cpp:110-124 | one trunk level extends the applied list by that level's writes |
| Assets.StampDeadTrunk | assignment_package/src/scene/asset.cpp:110-124 | the trunk loop takes eight draws and applies the eight levels' writes |
| Assets.GenerateDeadSnowTree | assignment_package/src/scene/asset.cpp:108-129 | the generator takes eight draws and applies the dead snow tree's writes |
| Assets.StampLog | assignment_package/src/scene/asset.cpp:134-136 | the log loop applies the log's writes |
| Assets.GenerateFallenTree | assignment_package/src/scene/asset.cpp:132-139 | the generator applies the fallen tree's writes |
| Assets.GenerateCactus | assignment_package/src/scene/asset.cpp:142-155 | the generator takes one draw and applies the cactus of that draw |
| Assets.GenerateSnowGrass | assignment_package/src/scene/asset.cpp:186-190 | the generator replaces exactly the anchor cell with SNOW_GRASS_PATCH |
| Assets.GenerateDirtGrass | assignment_package/src/scene/asset.cpp:192-196 | the generator replaces exactly the anchor cell with DIRT_GRASS_PATCH |
| Assets.GenerateSandCrack | assignment_package/src/scene/asset.cpp:199-203 | the generator replaces exactly the anchor cell with SAND_CRACK |
| Filling.Stack | assignment_package/src/scene/terrain.cpp:320-357 | the main loop's cells become one write per height, bottom up |
| Filling.StackLast | assignment_package/src/scene/terrain.cpp:320-357 | a stack writes s[y] at height y of its column and nothing else |
| Filling.ColumnPass | assignment_package/src/scene/terrain.cpp:314-364 | the three column loops never move the draw cursor back |
| Filling.TreeOf | assignment_package/src/scene/terrain.cpp:379-403 | the tree step never moves the draw cursor back |
| Filling.Decoration | assignment_package/src/scene/terrain.cpp:367-403 | the decoration step never moves the draw cursor back |
| Filling.ColumnPassAt | assignment_package/src/scene/terrain.cpp:306-364 | the column loops at (x + dx, z + dz) never move the draw cursor back |
| Filling.ColumnStep | assignment_package/src/scene/terrain.cpp:306-403 | one column of `fillChunk` never moves the draw cursor back |
| Filling.InFootprint | assignment_package/src/scene/terrain.cpp:306 | column x + dx of a chunk at corner x lies in that chunk, at local position dx |
| Filling.SetLocal | assignment_package/src/scene/terrain.cpp:316 | `c->setLocalBlockAt(dx, y, dz, ...)` is the checked write at world cell (x + dx, y, z + dz) |
| Filling.StampLocal | assignment_package/src/scene/terrain.cpp:316 | one `setLocalBlockAt` of the column loops extends the applied list by one write |
| Filling.FillRun | assignment_package/src/scene/terrain.cpp:314-317 | the lava and sea loops write their block up the column from y0 below top |
| Filling.PickStep | assignment_package/src/scene/terrain.cpp:321-350 | the branches of one main-loop step pick the block and draw count of the specification |
| Filling.StackSnoc | assignment_package/src/scene/terrain.cpp:320-357 | one more main-loop cell is written one layer higher |
| Filling.MainLoopStep | assignment_package/src/scene/terrain.cpp:320-357 | the pick at height y extends the main loop's cells by one and advances its cursor |
| Filling.MainStep | assignment_package/src/scene/terrain.cpp:321-356 | one pass of the main loop writes the next cell and advances the cursor as the specification does |
| Filling.FillMain | assignment_package/src/scene/terrain.cpp:320-357 | the main loop writes the column's cells from 0 to top and leaves the cursor where the specification does |
| Filling.ColumnLoops | assignment_package/src/scene/terrain.cpp:314-364 | the lava, main and sea loops make exactly the column pass's writes |
| Filling.StampWrites | assignment_package/src/scene/terrain.cpp:398 | the call of the third snow tree applies its writes in order |
| Filling.PlantTree | assignment_package/src/scene/terrain.cpp:379-403 | the tree step runs the generator that the biome, tree score, surface and draw select, or none |
| Filling.PlacePatch | assignment_package/src/scene/terrain.cpp:370-376 | the patch step writes the biome's patch on the surface of a land column where grass grows |
| Filling.Decorate | assignment_package/src/scene/terrain.cpp:367-403 | the decoration step applies the patch, then the tree |
| Filling.FillColumn | assignment_package/src/scene/terrain.cpp:306-403 | one column of `fillChunk` makes exactly the column step's writes |
| Filling.FillNext | assignment_package/src/scene/terrain.cpp:305-404 | one pass of the inner loop extends the writes by one column |
| Filling.FillRow | assignment_package/src/scene/terrain.cpp:304-405 | one pass of the outer loop extends the writes by one row of columns |
| Filling.FillChunk | assignment_package/src/scene/terrain.cpp:303-406 | `fillChunk` makes exactly the writes of the fill specification, dx outer and dz inner, and leaves the cursor after all its draws |
| Filling.ColumnPassLast | assignment_package/src/scene/terrain.cpp:314-364 | the column pass's last write to a cell is the sea below 138, else the main-loop cell up to top, else LAVA up to 25, and nothing elsewhere |
| Filling.ColumnPassCell | assignment_package/src/scene/terrain.cpp:314-364 | after the column loops each cell of the column holds the sea, the main-loop cell, lava, or what it held before |
| Filling.ColumnPassElsewhere | assignment_package/src/scene/terrain.cpp:314-364 | the column loops change nothing outside their column, nor above both the surface and 138 |
| Filling.ColumnPassOutsideMountains | assignment_package/src/scene/terrain.cpp:314-364 | outside the mountains the column holds exactly the layered materials up to the surface, whatever the draws |
| Filling.ColumnPassSea | assignment_package/src/scene/terrain.cpp:358-364 | a column below 138 is flooded from the surface to 138: ICE in the snowy plains, WATER elsewhere |
| Filling.ColumnPassMinerals | assignment_package/src/scene/terrain.cpp:330-350 | after the column loops, GRAVEL lies only in mountains, and ores only in mountains between 27 and 140 |
| Filling.ColumnPassCaves | assignment_package/src/scene/terrain.cpp:321-328 | a hollowed-out mountain cell below the surface is EMPTY after the column loops |
| Filling.DecorationNeedsLand | assignment_package/src/scene/terrain.cpp:370-403 | a column below 138 gets no patch and no tree, and takes no draw |
| Filling.MountainsGrowNoTrees | assignment_package/src/scene/terrain.cpp:370-403 | mountains get at most a snow grass patch, and take no draw |
| Filling.TreeOfAbove | assignment_package/src/scene/terrain.cpp:379-403 | no tree writes below the surface of its column |
| Filling.DecorationAbove | assignment_package/src/scene/terrain.cpp:367-403 | decorations write neither below the surface nor below 138 |
| Filling.Patch | assignment_package/src/scene/terrain.cpp:370-376 | the surface patch of a land column where grass grows, chosen by biome; `DecorationNeedsLand` and `MountainsGrowNoTrees` bound where it appears |
| Filling.ColumnStepBelow | assignment_package/src/scene/terrain.cpp:306-403 | below 138, a column's step writes what its column loops write |
| Filling.ColumnStepOther | assignment_package/src/scene/terrain.cpp:306-403 | below 138, a column's step writes nothing outside its column |
| Filling.Sweep | assignment_package/src/scene/terrain.cpp:304-305 | the writes of a dx-outer, dz-inner sweep over the columns, each starting from the cursor the one before left; `SweepOnly` gives the last write to a cell only one column touches |
| Filling.FillTo | assignment_package/src/scene/terrain.cpp:303-406 | the writes of `fillChunk` for the columns before (dx, dz); `Filling.FillChunk` is proved to make exactly `FillTo` at (16, 0), and `FillBelowSea` states what lies below 138 |
| Filling.SweepOnly | assignment_package/src/scene/terrain.cpp:304-305 | in the dx/dz sweep, a cell only one column writes gets that column's last write, once the sweep has passed it |
| Filling.FillLastBelowSea | assignment_package/src/scene/terrain.cpp:303-406 | below 138 the last write of a filled chunk to a cell is its own column's, since decorations and other columns never reach it |
| Filling.FillBelowSea | assignment_package/src/scene/terrain.cpp:303-406 | below 138 every cell of a filled chunk holds what its own column loops put there |

## Left out

- Noise: the Perlin and fractal noise functions and `getTerrainHeight` are not modelled.
  - A `Filling.Field` supplies them as functions of the column, so every lemma holds for every noise field.
  - `floor(h)` becomes an int-valued height function, and scores are compared as reals.
  - Float rounding is not modelled.
- `rand()`: it is a stream of draws read at a cursor that each drawing method advances. Reseeding and the generator itself are not modelled.
- `generateDefaultSnowTree3`: the tree is an input function giving its writes for an anchor and a cursor. It takes 36 draws.
  - It is not modelled because it places leaves with `cos`/`sin` of float angles.
  - The fill lemmas that look below 138 assume that it writes nothing below its anchor (`SnowTree3Rises`).
- Keys.ChunkCorner: `floor(v / 16.f)` is modelled as exact floor division. The float quotient rounds for |v| above 2^24, and that is not modelled.
- Filling.FillChunk: requires every column's surface height to lie in 0..255 (`Heights`). The source does not check this; higher noise would wrap into other cells.
- Filling.FillChunk: requires the footprint and its decorations to stay inside C++ `int` (`Fits`, `FillCorner`), because overflow of `x + dx` is undefined.
- Assets.GenerateDefaultTree: the generators require `Room`, the same `int`-range condition on their anchor.
- World.Terrain.InstantiateChunkAt: requires `InnerCorner`, so that `x ± 16` does not overflow.
- World.Terrain.Draw: requires `maxX`, `maxZ <= MaxBound`, so that `x += 16` does not overflow.
- Chunks.Chunk.GetNeighbors: the order of the result is not stated, because the source walks an `unordered_map`.
- Chunks.Chunk.CreateVBOdata: only the index counts are modelled. `generateBuffer`, `bindBuffer` and `glBufferData` are GPU calls.
- OpenGL drawing: `drawInterleaved` is modelled as a `World.DrawCall` record. `destroyVBOdata` is modelled as the replacement of the buffers. The shader program is left out.
- Keys.BitwiseKey: a negative `x64 << 32` and the conversion of a pattern above 2^63 - 1 to `int64_t` are read as two's complement, as C++20 defines them. Before C++20 the shift is undefined and the conversion implementation-defined.
- Vectors: positions, normals and atlas vectors are real-valued 4-tuples, so float rounding is not modelled.
- `getGlobalBlockAt(glm::vec3)`: the float-to-int conversion of its coordinates is not modelled.
- Threads: the block and VBO worker threads and their mutex are left out. Each operation is modelled as running alone.
- Not part of this model: the player, the game window and camera, `mapToUnitInterval` and the biome height functions.
- Chunk fields: `currBiome` and `prevBiome` are never read by the core and are left out.
- `Terrain::~Terrain` and `m_geomCube` are left out: they release GPU state only.
- Assets.SetBlockSafe: the generators in the model write through the height-checked `setBlockSafe` (see Findings). The source's unchecked write is modelled separately, by `SetBlockSafeAsWritten`.

## Findings

| source | as written | input that shows it | evidently intended | confidence | as-written member | corrected member |
|---|---|---|---|---|---|---|
| assignment_package/src/scene/asset.cpp:6-15 | `setBlockSafe` checks only that a chunk covers the column, then writes through `static_cast<unsigned int>(y)` with no height check; `setLocalBlockAt` bounds-checks only the flat index `x + 16y + 4096z` | a default tree anchored at surface 251 writes its top leaf at y = 256, which lands on cell (x, 0, z + 1) of the same chunk instead of being skipped | a write outside heights 0..255 is skipped, as `getGlobalBlockAt` skips reads there | medium; not executed | Assets.SetBlockSafeAsWritten, World.PutUncheckedAboveTop | Assets.SetBlockSafe |
