/** The two constant tables the mesher reads: the geometry of the six faces
    of a unit cube, and the texture-atlas cell of every side of every block
    type. Coordinates are exact reals; the 1/16 atlas cell is written 0.0625
    as in the source, and atlas origins are kept as whole sixteenths. */
module FaceTables {
  import opened Wrappers
  import opened Blocks

  datatype Vec4 = Vec4(x: real, y: real, z: real, w: real) {
    function Plus(o: Vec4): Vec4 {
      Vec4(x + o.x, y + o.y, z + o.z, w + o.w)
    }
  }

  datatype IVec3 = IVec3(x: int, y: int, z: int)

  datatype Vertex = Vertex(pos: Vec4, uv: Vec4)

  /** A face of the unit cube: the way it points, its outward normal and its
      four corners, each with its offset inside an atlas cell. */
  datatype BlockFace = BlockFace(dir: Direction, dirVector: IVec3, vertices: seq<Vertex>)

  /** The width of one atlas cell. */
  const Tile: real := 0.0625

  function V(px: real, py: real, pz: real, u: real, v: real): Vertex {
    Vertex(Vec4(px, py, pz, 1.0), Vec4(u, v, 0.0, 0.0))
  }

  /** The `faces` table, one entry per face direction in enum order. */
  const Faces: seq<BlockFace> := [
    BlockFace(XPos, IVec3(1, 0, 0),
      [V(1.0, 0.0, 1.0, 0.0, 0.0), V(1.0, 0.0, 0.0, Tile, 0.0), V(1.0, 1.0, 0.0, Tile, Tile), V(1.0, 1.0, 1.0, 0.0, Tile)]),
    BlockFace(XNeg, IVec3(-1, 0, 0),
      [V(0.0, 0.0, 0.0, 0.0, 0.0), V(0.0, 0.0, 1.0, Tile, 0.0), V(0.0, 1.0, 1.0, Tile, Tile), V(0.0, 1.0, 0.0, 0.0, Tile)]),
    BlockFace(YPos, IVec3(0, 1, 0),
      [V(0.0, 1.0, 1.0, 0.0, 0.0), V(1.0, 1.0, 1.0, Tile, 0.0), V(1.0, 1.0, 0.0, Tile, Tile), V(0.0, 1.0, 0.0, 0.0, Tile)]),
    BlockFace(YNeg, IVec3(0, -1, 0),
      [V(0.0, 0.0, 0.0, 0.0, 0.0), V(1.0, 0.0, 0.0, Tile, 0.0), V(1.0, 0.0, 1.0, Tile, Tile), V(0.0, 0.0, 1.0, 0.0, Tile)]),
    BlockFace(ZPos, IVec3(0, 0, 1),
      [V(0.0, 0.0, 1.0, 0.0, 0.0), V(1.0, 0.0, 1.0, Tile, 0.0), V(1.0, 1.0, 1.0, Tile, Tile), V(0.0, 1.0, 1.0, 0.0, Tile)]),
    BlockFace(ZNeg, IVec3(0, 0, -1),
      [V(1.0, 0.0, 0.0, 0.0, 0.0), V(0.0, 0.0, 0.0, Tile, 0.0), V(0.0, 1.0, 0.0, Tile, Tile), V(1.0, 1.0, 0.0, 0.0, Tile)])
  ]

  /** `faces.at(dir)`: the table has no entry for the diagonal tags. */
  function FaceAt(d: Direction): (r: Option<BlockFace>)
    ensures r.Some? <==> IsFaceDirection(d)
    ensures r.Some? ==> r.value.dir == d && |r.value.vertices| == 4
  {
    var i := Ordinal(d);
    if i < |Faces| then Some(Faces[i]) else None
  }

  /** The outward unit vector of an axis direction, defined independently of
      the table. */
  function UnitAxis(d: Direction): IVec3
    requires IsFaceDirection(d)
  {
    match d
    case XPos => IVec3(1, 0, 0)
    case XNeg => IVec3(-1, 0, 0)
    case YPos => IVec3(0, 1, 0)
    case YNeg => IVec3(0, -1, 0)
    case ZPos => IVec3(0, 0, 1)
    case ZNeg => IVec3(0, 0, -1)
  }

  /** The opposite of an axis direction points the other way along the same
      axis, so a link and its link back join the two sides of one edge. */
  lemma {:induction false} OppositeReverses(d: Direction)
    requires IsFaceDirection(d)
    ensures Opposite(d).Some? && IsFaceDirection(Opposite(d).value)
    ensures var u := UnitAxis(d); UnitAxis(Opposite(d).value) == IVec3(-u.x, -u.y, -u.z)
  {
  }

  /** The coordinate of a position along the axis of d. */
  function AlongAxis(p: Vec4, d: Direction): real {
    if d.XPos? || d.XNeg? then p.x else if d.YPos? || d.YNeg? then p.y else p.z
  }

  predicate IsPositive(d: Direction) {
    d.XPos? || d.YPos? || d.ZPos?
  }

  predicate IsUnitCoordinate(r: real) {
    r == 0.0 || r == 1.0
  }

  function Minus(a: Vec4, b: Vec4): Vec4 {
    Vec4(a.x - b.x, a.y - b.y, a.z - b.z, a.w - b.w)
  }

  function Cross(a: Vec4, b: Vec4): IVec3 {
    var c := Vec4(a.y * b.z - a.z * b.y, a.z * b.x - a.x * b.z, a.x * b.y - a.y * b.x, 0.0);
    IVec3(c.x.Floor, c.y.Floor, c.z.Floor)
  }

  /** Each face's normal is the unit axis of its direction. */
  lemma {:induction false} FaceNormals(d: Direction)
    requires IsFaceDirection(d)
    ensures FaceAt(d).value.dirVector == UnitAxis(d)
  {
  }

  /** Every corner of a face lies on the side of the unit cube the face
      points to, at a corner of that side, with w = 1. */
  lemma {:induction false} FaceCornersOnSide(d: Direction, j: int)
    requires IsFaceDirection(d) && 0 <= j < 4
    ensures var p := FaceAt(d).value.vertices[j].pos;
      && AlongAxis(p, d) == (if IsPositive(d) then 1.0 else 0.0)
      && IsUnitCoordinate(p.x) && IsUnitCoordinate(p.y) && IsUnitCoordinate(p.z)
      && p.w == 1.0
  {
    match d
    case XPos =>
    case XNeg =>
    case YPos =>
    case YNeg =>
    case ZPos =>
    case ZNeg =>
  }

  /** The atlas offsets of the four corners walk the corners of one atlas
      cell: (0,0), (1,0), (1,1), (0,1) in sixteenths. */
  lemma {:induction false} FaceAtlasOffsets(d: Direction)
    requires IsFaceDirection(d)
    ensures var vs := FaceAt(d).value.vertices;
      [vs[0].uv, vs[1].uv, vs[2].uv, vs[3].uv]
      == [Vec4(0.0, 0.0, 0.0, 0.0), Vec4(Tile, 0.0, 0.0, 0.0), Vec4(Tile, Tile, 0.0, 0.0), Vec4(0.0, Tile, 0.0, 0.0)]
  {
  }

  /** Both triangles of every face, (0,1,2) and (0,2,3), are wound
      counter-clockwise when seen from outside the cube: their normal is the
      face's outward vector. */
  lemma {:induction false} FacesWoundOutward(d: Direction)
    requires IsFaceDirection(d)
    ensures var vs := FaceAt(d).value.vertices;
      && Cross(Minus(vs[1].pos, vs[0].pos), Minus(vs[2].pos, vs[0].pos)) == UnitAxis(d)
      && Cross(Minus(vs[2].pos, vs[0].pos), Minus(vs[3].pos, vs[0].pos)) == UnitAxis(d)
  {
  }

  /** An entry of the `blockUVs` table: the atlas cell origin in whole
      sixteenths, and the z and w components passed to the shader
      (w tags cactus sides and overlay tops). */
  datatype AtlasCell = AtlasCell(u: int, v: int, z: int, w: int)

  /** The entries of one block type for the six face directions. */
  datatype SideCells = SideCells(xPos: AtlasCell, xNeg: AtlasCell, yPos: AtlasCell, yNeg: AtlasCell,
                                 zPos: AtlasCell, zNeg: AtlasCell)

  function C(u: int, v: int): AtlasCell { AtlasCell(u, v, 0, 0) }

  /** The same cell on all six sides. */
  function All(c: AtlasCell): SideCells { SideCells(c, c, c, c, c, c) }

  /** The outer lookup `blockUVs.at(b)`: EMPTY and SAP have no entry. */
  function BlockCells(b: BlockType): Option<SideCells> {
    match b
    case Empty => None
    case Sap => None
    case Grass => Some(SideCells(C(3, 15), C(3, 15), C(8, 13), C(2, 15), C(3, 15), C(3, 15)))
    case Dirt => Some(All(C(2, 15)))
    case Stone => Some(All(C(1, 15)))
    case Water => Some(SideCells(C(13, 3), C(13, 3), AtlasCell(13, 3, 0, 1), C(13, 3), C(13, 3), C(13, 3)))
    case Snow => Some(All(C(2, 11)))
    case Sand => Some(All(C(2, 14)))
    case Lava => Some(All(C(13, 1)))
    case Bedrock => Some(All(C(1, 14)))
    case Ice => Some(All(C(3, 11)))
    case SnowDirt => Some(SideCells(C(4, 11), C(4, 11), C(2, 11), C(2, 15), C(4, 11), C(4, 11)))
    case Leaf => Some(All(C(5, 12)))
    case Wood => Some(SideCells(C(4, 14), C(4, 14), C(5, 14), C(5, 14), C(4, 14), C(4, 14)))
    case SideWood => Some(SideCells(C(4, 14), C(4, 14), C(4, 14), C(4, 14), C(5, 14), C(5, 14)))
    case SnowLeaf => Some(SideCells(C(5, 12), C(5, 12), C(2, 11), C(5, 12), C(5, 12), C(5, 12)))
    case Cactus => Some(SideCells(AtlasCell(6, 11, 0, 3), AtlasCell(6, 11, 0, -3), AtlasCell(5, 11, 0, 2),
                                  AtlasCell(5, 11, 0, -2), AtlasCell(6, 11, 0, 4), AtlasCell(6, 11, 0, -4)))
    case Gravel => Some(All(C(0, 15)))
    case SnowGrassPatch => Some(SideCells(C(3, 15), C(3, 15), AtlasCell(1, 6, 0, -7), C(2, 15), C(3, 15), C(3, 15)))
    case DirtGrassPatch => Some(SideCells(C(3, 15), C(3, 15), AtlasCell(2, 5, 0, -8), C(2, 15), C(3, 15), C(3, 15)))
    case Coal => Some(All(C(2, 13)))
    case Lapis => Some(All(C(0, 5)))
    case Copper => Some(All(C(1, 13)))
    case Gold => Some(All(C(0, 13)))
    case SandCrack => Some(SideCells(C(2, 14), C(2, 14), AtlasCell(0, 2, 0, -9), C(2, 14), C(2, 14), C(2, 14)))
  }

  /** `blockUVs.at(b).at(d)`: both lookups throw on a missing key. */
  function AtlasCellOf(b: BlockType, d: Direction): (r: Option<AtlasCell>)
    ensures r.Some? <==> b != Empty && b != Sap && IsFaceDirection(d)
  {
    match BlockCells(b)
    case None => None
    case Some(s) =>
      match d
      case XPos => Some(s.xPos)
      case XNeg => Some(s.xNeg)
      case YPos => Some(s.yPos)
      case YNeg => Some(s.yNeg)
      case ZPos => Some(s.zPos)
      case ZNeg => Some(s.zNeg)
      case _ => None
  }

  /** Every atlas origin in the table is a whole cell of the 16 x 16 atlas,
      and the animation component is never set by the table itself. */
  lemma {:induction false} AtlasCellsOnGrid(b: BlockType, d: Direction)
    requires AtlasCellOf(b, d).Some?
    ensures var c := AtlasCellOf(b, d).value;
      0 <= c.u <= 15 && 0 <= c.v <= 15 && c.z == 0
  {
  }

  /** The table entry as the `glm::vec4` the shader receives. */
  function AtlasVec(c: AtlasCell): Vec4 {
    Vec4(c.u as real / 16.0, c.v as real / 16.0, c.z as real, c.w as real)
  }
}
