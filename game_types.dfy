/**
  The game's shared vocabulary: characters, directions, screens, grid
  positions, the tile kinds with their numeric codes, the tile definition
  table (walkability and multi-cell footprint) and the shape of a map.
 */
module GameTypes {
  import opened Wrappers

  datatype Character = Dudu | Chungu

  datatype Direction = Up | Down | Left | Right

  datatype GameScreen = Select | Instructions | Game | Cutscene | Finale

  /** A grid cell (column x, row y); also used for plain coordinate pairs. */
  datatype Position = Position(x: int, y: int)

  datatype TileType =
    | Grass | GrassFlowers | DirtPath | PavedPath
    | Tree | Bush | Rock | Water | Fence
    | House
    | HeartSpawn

  /** The numeric value each tile kind carries in the source's `TileType` table. */
  function Code(t: TileType): nat {
    match t
    case Grass => 0
    case GrassFlowers => 1
    case DirtPath => 2
    case PavedPath => 3
    case Tree => 10
    case Bush => 11
    case Rock => 12
    case Water => 13
    case Fence => 14
    case House => 20
    case HeartSpawn => 30
  }

  /** The tile kind a numeric code names, if any. */
  function FromCode(c: int): (r: Option<TileType>)
    ensures r.Some? ==> Code(r.value) == c
  {
    if c == 0 then Some(Grass)
    else if c == 1 then Some(GrassFlowers)
    else if c == 2 then Some(DirtPath)
    else if c == 3 then Some(PavedPath)
    else if c == 10 then Some(Tree)
    else if c == 11 then Some(Bush)
    else if c == 12 then Some(Rock)
    else if c == 13 then Some(Water)
    else if c == 14 then Some(Fence)
    else if c == 20 then Some(House)
    else if c == 30 then Some(HeartSpawn)
    else None
  }

  /** Every kind's code reads back as that kind. */
  lemma CodeRoundTrip(t: TileType)
    ensures FromCode(Code(t)) == Some(t)
  {
  }

  /** The numeric codes are pairwise distinct. */
  lemma CodesDistinct(s: TileType, t: TileType)
    requires Code(s) == Code(t)
    ensures s == t
  {
    CodeRoundTrip(s);
    CodeRoundTrip(t);
  }

  /**
    One entry of `TILE_DEFINITIONS`: the kind it describes, whether a
    character may stand on it, its sprite key, and an optional footprint
    (absent means one cell).
   */
  datatype TileDefinition = TileDefinition(
    kind: TileType,
    walkable: bool,
    sprite: string,
    width: Option<nat>,
    height: Option<nat>)

  function Definition(t: TileType): (d: TileDefinition)
    ensures d.kind == t
  {
    match t
    case Grass => TileDefinition(Grass, true, "grass", None, None)
    case GrassFlowers => TileDefinition(GrassFlowers, true, "grassFlowers", None, None)
    case DirtPath => TileDefinition(DirtPath, true, "dirtPath", None, None)
    case PavedPath => TileDefinition(PavedPath, true, "pavedPath", None, None)
    case Tree => TileDefinition(Tree, false, "tree", None, Some(2))
    case Bush => TileDefinition(Bush, false, "bush", None, None)
    case Rock => TileDefinition(Rock, false, "bush", None, None)
    case Water => TileDefinition(Water, false, "water", None, None)
    case Fence => TileDefinition(Fence, false, "bush", None, None)
    case House => TileDefinition(House, false, "house", Some(3), Some(3))
    case HeartSpawn => TileDefinition(HeartSpawn, true, "grass", None, None)
  }

  /** `def.width ?? 1`: the number of columns a tile of kind `t` spans. */
  function FootprintWidth(t: TileType): nat {
    Definition(t).width.GetOr(1)
  }

  /** `def.height ?? 1`: the number of rows a tile of kind `t` spans. */
  function FootprintHeight(t: TileType): nat {
    Definition(t).height.GetOr(1)
  }

  /** The walkable kinds are exactly the four ground kinds and the heart spawn. */
  lemma WalkableKinds(t: TileType)
    ensures Definition(t).walkable <==>
      t in {Grass, GrassFlowers, DirtPath, PavedPath, HeartSpawn}
  {
  }

  /** The house spans 3 by 3 cells, a tree 1 by 2, every other kind one cell. */
  lemma Footprints(t: TileType)
    ensures t == House ==> FootprintWidth(t) == 3 && FootprintHeight(t) == 3
    ensures t == Tree ==> FootprintWidth(t) == 1 && FootprintHeight(t) == 2
    ensures t != House && t != Tree ==> FootprintWidth(t) == 1 && FootprintHeight(t) == 1
  {
  }

  /** No footprint is empty or wider or taller than 3 cells. */
  lemma FootprintBounded(t: TileType)
    ensures 1 <= FootprintWidth(t) <= 3 && 1 <= FootprintHeight(t) <= 3
  {
    Footprints(t);
  }

  /** A collectible heart: its cell and the photo it unlocks. */
  datatype HeartPosition = HeartPosition(x: int, y: int, photoIndex: int)

  /**
    A map: its size in cells, the ground layer (always a tile), the object
    and overhead layers (a tile or null per cell), the spawn cell, the
    house anchor and the hearts.
   */
  datatype MapData = MapData(
    width: int,
    height: int,
    ground: seq<seq<TileType>>,
    objects: seq<seq<Option<TileType>>>,
    overhead: seq<seq<Option<TileType>>>,
    playerSpawn: Position,
    housePosition: Position,
    heartPositions: seq<HeartPosition>)

  /** Every layer has `height` rows of `width` cells. */
  predicate WellFormed(m: MapData) {
    && 0 <= m.width && 0 <= m.height
    && |m.ground| == m.height && |m.objects| == m.height && |m.overhead| == m.height
    && (forall y :: 0 <= y < m.height ==> |m.ground[y]| == m.width)
    && (forall y :: 0 <= y < m.height ==> |m.objects[y]| == m.width)
    && (forall y :: 0 <= y < m.height ==> |m.overhead[y]| == m.width)
  }
}
