/**
  The shipped map, `MAP_DATA`: a 40 by 30 grid whose ground, object and
  overhead layers are built by filling rows and then writing cells in
  ordered passes. Each builder is a method whose result is proved equal to
  a closed form: what each cell holds once all passes have run.
 */
module MapData {
  import opened Wrappers
  import opened GameTypes
  import opened Collision

  const WIDTH: nat := 40
  const HEIGHT: nat := 30

  /** `g` has `h` rows of `w` cells. */
  predicate IsGrid<T>(g: seq<seq<T>>, w: nat, h: nat) {
    |g| == h && forall y :: 0 <= y < h ==> |g[y]| == w
  }

  /** `fillRow(tile, width)`: `width` copies of `tile`. */
  function FillRow<T>(t: T, width: nat): (r: seq<T>)
    ensures |r| == width && forall i :: 0 <= i < width ==> r[i] == t
  {
    seq(width, _ => t)
  }

  /** `emptyObjectRow(width)`: `width` nulls. */
  function EmptyObjectRow(width: nat): (r: seq<Option<TileType>>)
    ensures |r| == width && forall i :: 0 <= i < width ==> r[i].None?
  {
    FillRow(None, width)
  }

  /** The push loop: `HEIGHT` rows, each a fresh `row`. */
  method Rows<T>(row: seq<T>) returns (g: seq<seq<T>>)
    ensures |g| == HEIGHT && forall y :: 0 <= y < HEIGHT ==> g[y] == row
  {
    g := [];
    var y := 0;
    while y < HEIGHT
      invariant 0 <= y <= HEIGHT && |g| == y
      invariant forall y' :: 0 <= y' < y ==> g[y'] == row
    {
      g := g + [row];
      y := y + 1;
    }
  }

  /** The cells a guarded pass writes: on the grid and at row `minY` or below. */
  predicate Guard(p: Position, minY: int) {
    p.y >= minY && 0 <= p.y < HEIGHT as int && 0 <= p.x < WIDTH as int
  }

  /**
    `for (const p of points) if (guard) grid[p.y][p.x] = t`: a listed cell
    that passes the guard holds `t`, every other cell keeps its value.
   */
  method WritePoints<T>(grid: seq<seq<T>>, points: seq<Position>, t: T, minY: int) returns (g: seq<seq<T>>)
    requires IsGrid(grid, WIDTH, HEIGHT)
    ensures IsGrid(g, WIDTH, HEIGHT)
    ensures forall x, y :: 0 <= x < WIDTH && 0 <= y < HEIGHT ==>
      g[y][x] == if y >= minY && Position(x, y) in points then t else grid[y][x]
  {
    g := grid;
    var i := 0;
    while i < |points|
      invariant 0 <= i <= |points| && IsGrid(g, WIDTH, HEIGHT)
      invariant forall x, y :: 0 <= x < WIDTH && 0 <= y < HEIGHT ==>
        g[y][x] == if y >= minY && Position(x, y) in points[..i] then t else grid[y][x]
    {
      var p := points[i];
      if Guard(p, minY) {
        g := g[p.y := g[p.y][p.x := t]];
      }
      assert points[..i + 1] == points[..i] + [p];
      i := i + 1;
    }
    assert points[..i] == points;
  }

  /**
    `for (const p of points) grid[p.y][p.x] ??= t`: a listed cell that is
    still empty receives `t`; a cell already holding a tile keeps it.
   */
  method WritePointsIfEmpty(grid: seq<seq<Option<TileType>>>, points: seq<Position>, t: TileType)
    returns (g: seq<seq<Option<TileType>>>)
    requires IsGrid(grid, WIDTH, HEIGHT)
    requires forall i :: 0 <= i < |points| ==> Guard(points[i], 0)
    ensures IsGrid(g, WIDTH, HEIGHT)
    ensures forall x, y :: 0 <= x < WIDTH && 0 <= y < HEIGHT ==>
      g[y][x] == if grid[y][x].None? && Position(x, y) in points then Some(t) else grid[y][x]
  {
    g := grid;
    var i := 0;
    while i < |points|
      invariant 0 <= i <= |points| && IsGrid(g, WIDTH, HEIGHT)
      invariant forall x, y :: 0 <= x < WIDTH && 0 <= y < HEIGHT ==>
        g[y][x] == if grid[y][x].None? && Position(x, y) in points[..i] then Some(t) else grid[y][x]
    {
      var p := points[i];
      if g[p.y][p.x].None? {
        g := g[p.y := g[p.y][p.x := Some(t)]];
      }
      assert points[..i + 1] == points[..i] + [p];
      i := i + 1;
    }
    assert points[..i] == points;
  }

  /** The nested loops over a rectangle of cells, each set to `t`. */
  method FillRect<T>(grid: seq<seq<T>>, x0: nat, x1: nat, y0: nat, y1: nat, t: T) returns (g: seq<seq<T>>)
    requires IsGrid(grid, WIDTH, HEIGHT) && x0 <= x1 < WIDTH && y0 <= y1 < HEIGHT
    ensures IsGrid(g, WIDTH, HEIGHT)
    ensures forall x, y :: 0 <= x < WIDTH && 0 <= y < HEIGHT ==>
      g[y][x] == if x0 <= x <= x1 && y0 <= y <= y1 then t else grid[y][x]
  {
    g := grid;
    var y := y0;
    while y <= y1
      invariant y0 <= y <= y1 + 1 && IsGrid(g, WIDTH, HEIGHT)
      invariant forall x', y' :: 0 <= x' < WIDTH && 0 <= y' < HEIGHT ==>
        g[y'][x'] == if x0 <= x' <= x1 && y0 <= y' < y then t else grid[y'][x']
    {
      var x := x0;
      while x <= x1
        invariant x0 <= x <= x1 + 1 && IsGrid(g, WIDTH, HEIGHT)
        invariant forall x', y' :: 0 <= x' < WIDTH && 0 <= y' < HEIGHT ==>
          g[y'][x'] == if x0 <= x' <= x1 && (y0 <= y' < y || (y' == y && x' < x)) then t else grid[y'][x']
      {
        g := g[y := g[y][x := t]];
        x := x + 1;
      }
      y := y + 1;
    }
  }

  // The point lists of the source, in its order.

  function FlowerPositions(): seq<Position> {
    [ Position(2, 4), Position(4, 4), Position(3, 5),
      Position(12, 6), Position(14, 6), Position(13, 7),
      Position(2, 12), Position(4, 12), Position(3, 13),
      Position(24, 12), Position(26, 12), Position(25, 13),
      Position(2, 18), Position(4, 18),
      Position(24, 18), Position(26, 18),
      Position(26, 22), Position(28, 22),
      Position(10, 24), Position(12, 24),
      Position(4, 27), Position(6, 27), Position(5, 26),
      Position(29, 10), Position(31, 10),
      Position(8, 15), Position(15, 20), Position(32, 25),
      Position(7, 3), Position(35, 6), Position(10, 10) ]
  }

  function MainPath(): seq<Position> {
    seq(24, i => Position(19, 28 - i))
      + [Position(20, 28), Position(20, 27), Position(20, 26),
         Position(18, 28), Position(18, 27), Position(18, 26)]
  }

  function WestPaths(): seq<Position> {
    seq(16, i => Position(18 - i, 6))
      + seq(15, i => Position(3, 6 + i))
      + seq(15, i => Position(4, 6 + i))
      + seq(8, i => Position(5, 21 + i))
      + [Position(3, 5), Position(3, 4), Position(4, 5), Position(4, 4)]
  }

  function EastPaths(): seq<Position> {
    seq(12, i => Position(20 + i, 10))
      + seq(14, i => Position(25, 10 + i))
      + seq(14, i => Position(26, 10 + i))
      + seq(4, i => Position(26 + i, 22))
      + [Position(27, 10), Position(28, 10), Position(29, 10), Position(30, 10), Position(31, 10)]
      + seq(6, i => Position(13 + i, 6))
  }

  function SouthBranch(): seq<Position> {
    seq(8, i => Position(19 - i, 24)) + [Position(11, 24), Position(12, 24)]
  }

  function TreePositions(): seq<Position> {
    [ Position(5, 2), Position(8, 3), Position(10, 2), Position(12, 3),
      Position(26, 2), Position(28, 3), Position(32, 2), Position(35, 3),
      Position(2, 8), Position(8, 10), Position(10, 8),
      Position(2, 22), Position(8, 24),
      Position(32, 6), Position(35, 8), Position(37, 12),
      Position(32, 24), Position(35, 26),
      Position(15, 12), Position(15, 18),
      Position(23, 14), Position(23, 20) ]
  }

  function BushPositions(): seq<Position> {
    [ Position(7, 7), Position(9, 4), Position(4, 18), Position(6, 24),
      Position(32, 6), Position(34, 10), Position(36, 20), Position(31, 26),
      Position(15, 10), Position(23, 5), Position(26, 18), Position(11, 26) ]
  }

  predicate InPond(x: int, y: int) {
    (6 <= x <= 8 && 14 <= y <= 16) || (33 <= x <= 36 && 18 <= y <= 20)
  }

  /** The point lists the ground passes walk, kept apart from the passes that use them. */
  datatype GroundPlan = GroundPlan(flowers: seq<Position>, mainPath: seq<Position>, westPaths: seq<Position>,
                                   eastPaths: seq<Position>, southBranch: seq<Position>)

  /** The point lists the object passes walk. */
  datatype ObjectPlan = ObjectPlan(trees: seq<Position>, bushes: seq<Position>)

  function TheGroundPlan(): GroundPlan {
    GroundPlan(FlowerPositions(), MainPath(), WestPaths(), EastPaths(), SouthBranch())
  }

  function TheObjectPlan(): ObjectPlan {
    ObjectPlan(TreePositions(), BushPositions())
  }

  /** Grass, then the flowers, then the main path from row 5 down. */
  function BaseCell(l: GroundPlan, x: int, y: int): TileType {
    var p := Position(x, y);
    if y >= 5 && p in l.mainPath then PavedPath
    else if p in l.flowers then GrassFlowers
    else Grass
  }

  /** Then the paved yard before the house, then the dirt branches over everything below them. */
  function PathCell(l: GroundPlan, x: int, y: int): TileType {
    var p := Position(x, y);
    if p in l.southBranch || p in l.eastPaths || p in l.westPaths then DirtPath
    else if 17 <= x <= 21 && 3 <= y <= 5 then PavedPath
    else BaseCell(l, x, y)
  }

  /** The ground tile at (x, y) once every pass has run: the ponds are written last. */
  function GroundCell(l: GroundPlan, x: int, y: int): TileType {
    if InPond(x, y) then Water else PathCell(l, x, y)
  }

  function GroundTile(x: int, y: int): TileType {
    GroundCell(TheGroundPlan(), x, y)
  }

  /** The border trees, left open at columns 17 to 21 of the top and bottom rows. */
  predicate BorderTree(x: int, y: int) {
    ((y == 0 || y == HEIGHT as int - 1) && 0 <= x < WIDTH as int && (x < 17 || x > 21))
    || (1 <= y < HEIGHT as int - 1 && (x == 0 || x == WIDTH as int - 1))
  }

  /** The object at (x, y) once every pass has run: a tree or bush never replaces an earlier object. */
  function ObjectCell(l: ObjectPlan, x: int, y: int): Option<TileType> {
    var p := Position(x, y);
    if x == 18 && y == 2 then Some(House)
    else if BorderTree(x, y) then Some(Tree)
    else if p in l.trees then Some(Tree)
    else if p in l.bushes then Some(Bush)
    else None
  }

  function ObjectTile(x: int, y: int): Option<TileType> {
    ObjectCell(TheObjectPlan(), x, y)
  }

  /** The grass rows, the flower pass and the main-path pass of `createGroundLayer`. */
  method PaintBase(l: GroundPlan) returns (g: seq<seq<TileType>>)
    ensures IsGrid(g, WIDTH, HEIGHT)
    ensures forall x, y :: 0 <= x < WIDTH && 0 <= y < HEIGHT ==> g[y][x] == BaseCell(l, x, y)
  {
    var grass := FillRow(Grass, WIDTH);
    var g0 := Rows(grass);
    var g1 := WritePoints(g0, l.flowers, GrassFlowers, 0);
    g := WritePoints(g1, l.mainPath, PavedPath, 5);
    forall x, y | 0 <= x < WIDTH && 0 <= y < HEIGHT
      ensures g[y][x] == BaseCell(l, x, y)
    {
      assert g0[y] == grass;
    }
  }

  /** The paved yard and the west, east and south path passes. */
  method PaintPaths(l: GroundPlan, base: seq<seq<TileType>>) returns (g: seq<seq<TileType>>)
    requires IsGrid(base, WIDTH, HEIGHT)
    requires forall x, y :: 0 <= x < WIDTH && 0 <= y < HEIGHT ==> base[y][x] == BaseCell(l, x, y)
    ensures IsGrid(g, WIDTH, HEIGHT)
    ensures forall x, y :: 0 <= x < WIDTH && 0 <= y < HEIGHT ==> g[y][x] == PathCell(l, x, y)
  {
    var g3 := FillRect(base, 17, 21, 3, 5, PavedPath);
    var g4 := WritePoints(g3, l.westPaths, DirtPath, 0);
    var g5 := WritePoints(g4, l.eastPaths, DirtPath, 0);
    g := WritePoints(g5, l.southBranch, DirtPath, 0);
  }

  /** The ground passes of `createGroundLayer`, in the source's order: the two ponds last. */
  method BuildGround(l: GroundPlan) returns (ground: seq<seq<TileType>>)
    ensures IsGrid(ground, WIDTH, HEIGHT)
    ensures forall x, y :: 0 <= x < WIDTH && 0 <= y < HEIGHT ==> ground[y][x] == GroundCell(l, x, y)
  {
    var g2 := PaintBase(l);
    var g6 := PaintPaths(l, g2);
    var g7 := FillRect(g6, 6, 8, 14, 16, Water);
    ground := FillRect(g7, 33, 36, 18, 20, Water);
  }

  /** `createGroundLayer()`. */
  method CreateGroundLayer() returns (ground: seq<seq<TileType>>)
    ensures IsGrid(ground, WIDTH, HEIGHT)
    ensures forall x, y :: 0 <= x < WIDTH && 0 <= y < HEIGHT ==> ground[y][x] == GroundTile(x, y)
  {
    ground := BuildGround(TheGroundPlan());
  }

  /** The two border loops: top and bottom rows outside columns 17 to 21, then the side columns. */
  method AddBorderTrees(grid: seq<seq<Option<TileType>>>) returns (g: seq<seq<Option<TileType>>>)
    requires IsGrid(grid, WIDTH, HEIGHT)
    ensures IsGrid(g, WIDTH, HEIGHT)
    ensures forall x, y :: 0 <= x < WIDTH && 0 <= y < HEIGHT ==>
      g[y][x] == if BorderTree(x, y) then Some(Tree) else grid[y][x]
  {
    g := grid;
    var x := 0;
    while x < WIDTH
      invariant 0 <= x <= WIDTH && IsGrid(g, WIDTH, HEIGHT)
      invariant forall x', y' :: 0 <= x' < WIDTH && 0 <= y' < HEIGHT ==>
        g[y'][x'] == if (y' == 0 || y' == HEIGHT - 1) && x' < x && (x' < 17 || x' > 21) then Some(Tree) else grid[y'][x']
    {
      if x < 17 || x > 21 {
        g := g[0 := g[0][x := Some(Tree)]];
        g := g[HEIGHT - 1 := g[HEIGHT - 1][x := Some(Tree)]];
      }
      x := x + 1;
    }
    var y := 1;
    while y < HEIGHT - 1
      invariant 1 <= y <= HEIGHT - 1 && IsGrid(g, WIDTH, HEIGHT)
      invariant forall x', y' :: 0 <= x' < WIDTH && 0 <= y' < HEIGHT ==>
        g[y'][x'] == if ((y' == 0 || y' == HEIGHT - 1) && (x' < 17 || x' > 21))
                        || (1 <= y' < y && (x' == 0 || x' == WIDTH - 1))
                     then Some(Tree) else grid[y'][x']
    {
      g := g[y := g[y][0 := Some(Tree)]];
      g := g[y := g[y][WIDTH - 1 := Some(Tree)]];
      y := y + 1;
    }
  }

  /** Every listed tree and bush lies on the grid. */
  predicate ObjectsOnGrid(l: ObjectPlan) {
    (forall i :: 0 <= i < |l.trees| ==> Guard(l.trees[i], 0))
    && (forall i :: 0 <= i < |l.bushes| ==> Guard(l.bushes[i], 0))
  }

  /** The object passes of `createObjectsLayer`, in the source's order. */
  method BuildObjects(l: ObjectPlan) returns (objects: seq<seq<Option<TileType>>>)
    requires ObjectsOnGrid(l)
    ensures IsGrid(objects, WIDTH, HEIGHT)
    ensures forall x, y :: 0 <= x < WIDTH && 0 <= y < HEIGHT ==> objects[y][x] == ObjectCell(l, x, y)
  {
    var empty := EmptyObjectRow(WIDTH);
    var o0 := Rows(empty);
    var o1 := AddBorderTrees(o0);
    var o2 := WritePointsIfEmpty(o1, l.trees, Tree);
    var o3 := WritePointsIfEmpty(o2, l.bushes, Bush);
    objects := o3[2 := o3[2][18 := Some(House)]];
    ObjectLayerCells(l, o0, o1, o2, o3, objects);
  }

  lemma ObjectLayerCells(l: ObjectPlan, o0: seq<seq<Option<TileType>>>, o1: seq<seq<Option<TileType>>>, o2: seq<seq<Option<TileType>>>,
                         o3: seq<seq<Option<TileType>>>, o4: seq<seq<Option<TileType>>>)
    requires IsGrid(o0, WIDTH, HEIGHT) && IsGrid(o1, WIDTH, HEIGHT) && IsGrid(o2, WIDTH, HEIGHT)
    requires IsGrid(o3, WIDTH, HEIGHT) && o4 == o3[2 := o3[2][18 := Some(House)]]
    requires forall x, y :: 0 <= x < WIDTH && 0 <= y < HEIGHT ==> o0[y][x].None?
    requires forall x, y :: 0 <= x < WIDTH && 0 <= y < HEIGHT ==>
      o1[y][x] == if BorderTree(x, y) then Some(Tree) else o0[y][x]
    requires forall x, y :: 0 <= x < WIDTH && 0 <= y < HEIGHT ==>
      o2[y][x] == if o1[y][x].None? && Position(x, y) in l.trees then Some(Tree) else o1[y][x]
    requires forall x, y :: 0 <= x < WIDTH && 0 <= y < HEIGHT ==>
      o3[y][x] == if o2[y][x].None? && Position(x, y) in l.bushes then Some(Bush) else o2[y][x]
    ensures IsGrid(o4, WIDTH, HEIGHT)
    ensures forall x, y :: 0 <= x < WIDTH && 0 <= y < HEIGHT ==> o4[y][x] == ObjectCell(l, x, y)
  {
    forall x, y | 0 <= x < WIDTH && 0 <= y < HEIGHT
      ensures o4[y][x] == ObjectCell(l, x, y)
    {
      ObjectPasses(l, x, y, o0[y][x], o1[y][x], o2[y][x], o3[y][x], o4[y][x]);
    }
  }

  /** The values one object cell takes pass after pass end in `ObjectCell`. */
  lemma ObjectPasses(l: ObjectPlan, x: int, y: int, a: Option<TileType>, b: Option<TileType>, c: Option<TileType>,
                     d: Option<TileType>, e: Option<TileType>)
    requires a.None?
    requires b == if BorderTree(x, y) then Some(Tree) else a
    requires c == if b.None? && Position(x, y) in l.trees then Some(Tree) else b
    requires d == if c.None? && Position(x, y) in l.bushes then Some(Bush) else c
    requires e == if x == 18 && y == 2 then Some(House) else d
    ensures e == ObjectCell(l, x, y)
  {
  }

  lemma TheObjectPlanOnGrid()
    ensures ObjectsOnGrid(TheObjectPlan())
  {
  }

  /** `createObjectsLayer()`. */
  method CreateObjectsLayer() returns (objects: seq<seq<Option<TileType>>>)
    ensures IsGrid(objects, WIDTH, HEIGHT)
    ensures forall x, y :: 0 <= x < WIDTH && 0 <= y < HEIGHT ==> objects[y][x] == ObjectTile(x, y)
  {
    TheObjectPlanOnGrid();
    objects := BuildObjects(TheObjectPlan());
  }

  /** `createOverheadLayer()`: empty rows only. */
  method CreateOverheadLayer() returns (overhead: seq<seq<Option<TileType>>>)
    ensures IsGrid(overhead, WIDTH, HEIGHT)
    ensures forall x, y :: 0 <= x < WIDTH && 0 <= y < HEIGHT ==> overhead[y][x].None?
  {
    overhead := Rows(EmptyObjectRow(WIDTH));
  }

  function Hearts(): seq<HeartPosition> {
    [ HeartPosition(3, 4, 0), HeartPosition(13, 6, 1), HeartPosition(3, 12, 2),
      HeartPosition(25, 12, 3), HeartPosition(3, 18, 4), HeartPosition(25, 18, 5),
      HeartPosition(27, 22, 6), HeartPosition(11, 24, 7), HeartPosition(5, 26, 8),
      HeartPosition(30, 10, 9) ]
  }

  /** `MAP_DATA`, cell by cell. */
  function TheMap(): MapData {
    MapData(WIDTH, HEIGHT,
      seq(HEIGHT, y => seq(WIDTH, x => GroundTile(x, y))),
      seq(HEIGHT, y => seq(WIDTH, x => ObjectTile(x, y))),
      seq(HEIGHT, _ => EmptyObjectRow(WIDTH)),
      Position(19, 28), Position(18, 2), Hearts())
  }

  /** Two grids of the map's size that agree on every cell are equal. */
  lemma GridsEqual<T>(g: seq<seq<T>>, h: seq<seq<T>>)
    requires IsGrid(g, WIDTH, HEIGHT) && IsGrid(h, WIDTH, HEIGHT)
    requires forall x, y :: 0 <= x < WIDTH && 0 <= y < HEIGHT ==> g[y][x] == h[y][x]
    ensures g == h
  {
    forall y | 0 <= y < HEIGHT
      ensures g[y] == h[y]
    {
    }
  }

  /** Building `MAP_DATA` with the source's passes gives exactly the closed form. */
  method CreateMapData() returns (m: MapData)
    ensures m == TheMap()
  {
    var ground := CreateGroundLayer();
    var objects := CreateObjectsLayer();
    var overhead := CreateOverheadLayer();
    m := MapData(WIDTH, HEIGHT, ground, objects, overhead, Position(19, 28), Position(18, 2), Hearts());
    GridsEqual(ground, TheMap().ground);
    GridsEqual(objects, TheMap().objects);
    GridsEqual(overhead, TheMap().overhead);
  }

  // Properties of the shipped map.

  lemma TheMapWellFormed()
    ensures WellFormed(TheMap()) && TheMap().width == 40 && TheMap().height == 30
    ensures forall x, y :: 0 <= x < WIDTH && 0 <= y < HEIGHT ==>
      TheMap().ground[y][x] == GroundTile(x, y) && TheMap().objects[y][x] == ObjectTile(x, y)
      && TheMap().overhead[y][x].None?
  {
  }

  /** Water lies exactly in the two ponds: no path pass writes water and the pond passes come last. */
  lemma WaterOnlyInPonds(x: int, y: int)
    ensures GroundTile(x, y) == Water <==> InPond(x, y)
    ensures !InPond(x, y) ==> Definition(GroundTile(x, y)).walkable
  {
  }

  /** The one house anchor is (18, 2), the `housePosition` of the map. */
  lemma SingleHouse(x: int, y: int)
    ensures ObjectTile(x, y) == Some(House) <==> Position(x, y) == TheMap().housePosition
  {
  }

  /** The top and bottom rows are trees except the opening at columns 17 to 21; the sides are trees. */
  lemma BorderOfTrees(x: int, y: int)
    requires 0 <= x < WIDTH && 0 <= y < HEIGHT
    requires y == 0 || y == HEIGHT - 1 || x == 0 || x == WIDTH - 1
    ensures (17 <= x <= 21 && (y == 0 || y == HEIGHT - 1)) <==> ObjectTile(x, y) != Some(Tree)
  {
    if 17 <= x <= 21 && (y == 0 || y == HEIGHT - 1) {
      assert Position(x, y) !in TreePositions();
      assert Position(x, y) !in BushPositions();
    }
  }

  /** (32, 6) is listed as both a tree and a bush; `??=` keeps the tree. */
  lemma TreeKeptOverBush()
    ensures Position(32, 6) in BushPositions() && ObjectTile(32, 6) == Some(Tree)
  {
    assert BushPositions()[4] == Position(32, 6);
    assert TreePositions()[13] == Position(32, 6);
  }

  /** The ten hearts carry photo indices 0 to 9 in order, so no photo is given twice. */
  lemma HeartIndicesDistinct()
    ensures |TheMap().heartPositions| == 10
    ensures forall i :: 0 <= i < 10 ==> TheMap().heartPositions[i].photoIndex == i
  {
  }

  /** `m` has the shipped map's layers. */
  predicate HasTheLayers(m: MapData) {
    WellFormed(m) && m.width == WIDTH && m.height == HEIGHT
    && forall x, y :: 0 <= x < WIDTH && 0 <= y < HEIGHT ==>
      m.ground[y][x] == GroundTile(x, y) && m.objects[y][x] == ObjectTile(x, y)
  }

  lemma TheMapHasTheLayers()
    ensures HasTheLayers(TheMap())
  {
    TheMapWellFormed();
  }

  /** (px, py) lies in the 3 by 3 window of anchors up and to the left of (x, y). */
  predicate InWindow(px: int, py: int, x: int, y: int) {
    x - 2 <= px <= x && y - 2 <= py <= y
  }

  /** No point of `s` is in the window of (x, y). */
  predicate NoneInWindow(s: seq<Position>, x: int, y: int) {
    forall i :: 0 <= i < |s| ==> !InWindow(s[i].x, s[i].y, x, y)
  }

  lemma NotListed(s: seq<Position>, px: int, py: int, x: int, y: int)
    requires NoneInWindow(s, x, y) && InWindow(px, py, x, y)
    ensures Position(px, py) !in s
  {
  }

  /**
    The window of (x, y) holds no object: it stays off the border, misses
    the house anchor and contains no listed tree or bush.
   */
  predicate WindowClear(x: int, y: int) {
    3 <= x <= WIDTH - 2 && 3 <= y <= HEIGHT - 2 && !InWindow(18, 2, x, y)
    && NoneInWindow(TreePositions(), x, y) && NoneInWindow(BushPositions(), x, y)
  }

  /** On the shipped layers, a dry cell whose window is clear can be entered. */
  lemma EnterableWhenClear(m: MapData, x: int, y: int)
    requires HasTheLayers(m) && !InPond(x, y) && WindowClear(x, y)
    ensures CanMoveTo(x, y, m)
  {
    WaterOnlyInPonds(x, y);
    forall ax, ay | Max(0, x - 2) <= ax <= x && Max(0, y - 2) <= ay <= y
      ensures !BlocksAt(m, ax, ay, x, y)
    {
      assert m.objects[ay][ax] == ObjectTile(ax, ay);
      NotListed(TreePositions(), ax, ay, x, y);
      NotListed(BushPositions(), ax, ay, x, y);
    }
    EnterableWhenWindowClear(x, y, m);
  }

  /** The windows of the spawn cell, the door cell and the ten heart cells are clear and dry. */
  lemma KeyWindowsClear()
    ensures WindowClear(19, 28) && WindowClear(19, 5)
    ensures forall i :: 0 <= i < |Hearts()| ==> WindowClear(Hearts()[i].x, Hearts()[i].y) && !InPond(Hearts()[i].x, Hearts()[i].y)
  {
    WestHeartWindowsClear();
    MiddleHeartWindowsClear();
    EastHeartWindowsClear();
  }

  lemma WestHeartWindowsClear()
    ensures WindowClear(3, 4) && WindowClear(3, 12) && WindowClear(3, 18) && WindowClear(5, 26)
  {
  }

  lemma MiddleHeartWindowsClear()
    ensures WindowClear(13, 6) && WindowClear(11, 24) && WindowClear(25, 12)
  {
  }

  lemma EastHeartWindowsClear()
    ensures WindowClear(25, 18) && WindowClear(27, 22) && WindowClear(30, 10)
  {
  }

  /**
    The spawn cell, the door cell below the house's middle column and
    every heart cell can be entered.
   */
  lemma KeyCellsEnterable()
    ensures CanMoveTo(TheMap().playerSpawn.x, TheMap().playerSpawn.y, TheMap())
    ensures CanMoveTo(19, 5, TheMap())
    ensures forall i :: 0 <= i < |TheMap().heartPositions| ==>
      CanMoveTo(TheMap().heartPositions[i].x, TheMap().heartPositions[i].y, TheMap())
  {
    var m := TheMap();
    TheMapHasTheLayers();
    KeyWindowsClear();
    EnterableWhenClear(m, 19, 28);
    EnterableWhenClear(m, 19, 5);
    forall i | 0 <= i < |m.heartPositions|
      ensures CanMoveTo(m.heartPositions[i].x, m.heartPositions[i].y, m)
    {
      EnterableWhenClear(m, Hearts()[i].x, Hearts()[i].y);
    }
  }

  /** The nine cells of the house block cannot be entered. */
  lemma HouseBlockSolid(i: int, j: int)
    requires 0 <= i < 3 && 0 <= j < 3
    ensures !CanMoveTo(18 + i, 2 + j, TheMap())
  {
    TheMapWellFormed();
    HouseBlockBlocked(TheMap(), 18, 2, i, j);
  }
}
