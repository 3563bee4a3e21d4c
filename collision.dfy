/**
  The collision oracle: whether the character may enter a cell, which heart
  (if any) is picked up at a cell, whether a cell is the house door, and
  the one-cell step in a direction.
 */
module Collision {
  import opened Wrappers
  import opened GameTypes

  predicate InBounds(m: MapData, x: int, y: int) {
    0 <= x < m.width && 0 <= y < m.height
  }

  /** A tile of kind `t` anchored (top-left) at (ax, ay) spans cell (x, y). */
  predicate Covers(ax: int, ay: int, t: TileType, x: int, y: int) {
    ax <= x < ax + FootprintWidth(t) && ay <= y < ay + FootprintHeight(t)
  }

  /** The object anchored at (ax, ay) is not walkable and spans (x, y). */
  predicate BlocksAt(m: MapData, ax: int, ay: int, x: int, y: int)
    requires WellFormed(m) && InBounds(m, ax, ay)
  {
    match m.objects[ay][ax]
    case None => false
    case Some(t) => !Definition(t).walkable && Covers(ax, ay, t, x, y)
  }

  /**
    Reference meaning of the footprint scan: some non-walkable object,
    anchored anywhere on the map, spans (x, y).
   */
  ghost predicate Occupied(m: MapData, x: int, y: int)
    requires WellFormed(m)
  {
    exists ax, ay :: InBounds(m, ax, ay) && BlocksAt(m, ax, ay, x, y)
  }

  /** The inner loop of the scan: anchors (cx..x, cy). */
  function ScanRow(m: MapData, x: int, y: int, cy: int, cx: int): (r: bool)
    requires WellFormed(m) && InBounds(m, x, y) && 0 <= cy <= y && 0 <= cx
    ensures r <==> exists ax :: cx <= ax <= x && BlocksAt(m, ax, cy, x, y)
    decreases x - cx
  {
    if cx > x then false
    else BlocksAt(m, cx, cy, x, y) || ScanRow(m, x, y, cy, cx + 1)
  }

  /** The outer loop of the scan: anchor rows cy..y, each from column max(0, x-2). */
  function ScanWindow(m: MapData, x: int, y: int, cy: int): (r: bool)
    requires WellFormed(m) && InBounds(m, x, y) && 0 <= cy
    ensures r <==> exists ax, ay :: cy <= ay <= y && Max(0, x - 2) <= ax <= x && BlocksAt(m, ax, ay, x, y)
    decreases y - cy
  {
    if cy > y then false
    else
      var here := ScanRow(m, x, y, cy, Max(0, x - 2));
      var below := ScanWindow(m, x, y, cy + 1);
      assert here ==> exists ax, ay :: cy <= ay <= y && Max(0, x - 2) <= ax <= x && BlocksAt(m, ax, ay, x, y) by {
        if here {
          var ax :| Max(0, x - 2) <= ax <= x && BlocksAt(m, ax, cy, x, y);
        }
      }
      here || below
  }

  function Max(a: int, b: int): int {
    if a >= b then a else b
  }

  /**
    `canMoveTo(x, y, mapData)`: bounds first, then the ground tile, then the
    object on the cell itself, then the 3 by 3 window of anchors up and
    to the left of the cell.
   */
  function CanMoveTo(x: int, y: int, m: MapData): (r: bool)
    requires WellFormed(m)
    ensures !InBounds(m, x, y) ==> !r
    ensures InBounds(m, x, y) && !Definition(m.ground[y][x]).walkable ==> !r
    ensures InBounds(m, x, y) && m.objects[y][x].Some? && !Definition(m.objects[y][x].value).walkable ==> !r
  {
    if !InBounds(m, x, y) then false
    else if !Definition(m.ground[y][x]).walkable then false
    else if m.objects[y][x].Some? && !Definition(m.objects[y][x].value).walkable then false
    else !ScanWindow(m, x, y, Max(0, y - 2))
  }

  /**
    Because no footprint exceeds 3 by 3, the window scan finds a blocking
    object exactly when one anchored anywhere spans the cell; so a cell
    can be entered exactly when it is on the map, its ground is walkable
    and no non-walkable footprint covers it.
   */
  lemma CanMoveToIffUnoccupied(x: int, y: int, m: MapData)
    requires WellFormed(m)
    ensures CanMoveTo(x, y, m) <==>
      InBounds(m, x, y) && Definition(m.ground[y][x]).walkable && !Occupied(m, x, y)
  {
    if InBounds(m, x, y) && Definition(m.ground[y][x]).walkable {
      if Occupied(m, x, y) {
        var ax, ay :| InBounds(m, ax, ay) && BlocksAt(m, ax, ay, x, y);
        FootprintBounded(m.objects[ay][ax].value);
        assert Max(0, y - 2) <= ay <= y && Max(0, x - 2) <= ax <= x;
        assert ScanWindow(m, x, y, Max(0, y - 2));
      }
      if ScanWindow(m, x, y, Max(0, y - 2)) {
        var ax, ay :| Max(0, y - 2) <= ay <= y && Max(0, x - 2) <= ax <= x && BlocksAt(m, ax, ay, x, y);
        assert InBounds(m, ax, ay);
      }
    }
  }

  /** A cell on the map with walkable ground and no blocking anchor in its scan window can be entered. */
  lemma EnterableWhenWindowClear(x: int, y: int, m: MapData)
    requires WellFormed(m) && InBounds(m, x, y) && Definition(m.ground[y][x]).walkable
    requires forall ax, ay :: Max(0, x - 2) <= ax <= x && Max(0, y - 2) <= ay <= y ==> !BlocksAt(m, ax, ay, x, y)
    ensures CanMoveTo(x, y, m)
  {
    assert !BlocksAt(m, x, y, x, y);
    if m.objects[y][x].Some? {
      FootprintBounded(m.objects[y][x].value);
    }
  }

  /** No cell of a house's 3 by 3 block can be entered. */
  lemma HouseBlockBlocked(m: MapData, ax: int, ay: int, i: int, j: int)
    requires WellFormed(m) && InBounds(m, ax, ay) && m.objects[ay][ax] == Some(House)
    requires 0 <= i < 3 && 0 <= j < 3
    ensures !CanMoveTo(ax + i, ay + j, m)
  {
    CanMoveToIffUnoccupied(ax + i, ay + j, m);
    if InBounds(m, ax + i, ay + j) {
      assert BlocksAt(m, ax, ay, ax + i, ay + j);
    }
  }

  /** The cell below a tree's anchor can be entered no more than the anchor itself. */
  lemma BelowTreeBlocked(m: MapData, ax: int, ay: int)
    requires WellFormed(m) && InBounds(m, ax, ay) && m.objects[ay][ax] == Some(Tree)
    ensures !CanMoveTo(ax, ay, m) && !CanMoveTo(ax, ay + 1, m)
  {
    CanMoveToIffUnoccupied(ax, ay + 1, m);
    if InBounds(m, ax, ay + 1) {
      assert BlocksAt(m, ax, ay, ax, ay + 1);
    }
  }

  /** The check of the object on the cell itself never decides more than the window scan does. */
  lemma OwnCellCoveredByScan(x: int, y: int, m: MapData)
    requires WellFormed(m) && InBounds(m, x, y)
    requires m.objects[y][x].Some? && !Definition(m.objects[y][x].value).walkable
    ensures ScanWindow(m, x, y, Max(0, y - 2))
  {
    FootprintBounded(m.objects[y][x].value);
    assert BlocksAt(m, x, y, x, y);
  }

  /** Heart `h` is at `pos` and its photo has not been collected. */
  predicate Collectible(h: HeartPosition, pos: Position, collected: set<int>) {
    pos.x == h.x && pos.y == h.y && h.photoIndex !in collected
  }

  /** Heart `i` is collectible at `pos` and no earlier heart in the list is. */
  predicate FirstCollectible(hearts: seq<HeartPosition>, pos: Position, collected: set<int>, i: int) {
    && 0 <= i < |hearts|
    && Collectible(hearts[i], pos, collected)
    && forall j :: 0 <= j < i ==> !Collectible(hearts[j], pos, collected)
  }

  /**
    `checkHeartCollision`: the photo index of the first heart in list order
    that sits at `pos` and is not yet collected, or none.
   */
  function CheckHeartCollision(pos: Position, hearts: seq<HeartPosition>, collected: set<int>): (r: Option<int>)
    ensures r.Some? ==> r.value !in collected
    ensures r.None? <==> forall i :: 0 <= i < |hearts| ==> !Collectible(hearts[i], pos, collected)
    ensures r.Some? ==> exists i :: FirstCollectible(hearts, pos, collected, i) && hearts[i].photoIndex == r.value
  {
    if |hearts| == 0 then None
    else if Collectible(hearts[0], pos, collected) then Some(hearts[0].photoIndex)
    else
      var r := CheckHeartCollision(pos, hearts[1..], collected);
      assert forall i :: 1 <= i < |hearts| ==> hearts[i] == hearts[1..][i - 1];
      assert r.Some? ==> exists i :: FirstCollectible(hearts, pos, collected, i) && hearts[i].photoIndex == r.value by {
        if r.Some? {
          var k :| FirstCollectible(hearts[1..], pos, collected, k) && hearts[1..][k].photoIndex == r.value;
          forall j | 0 <= j < k + 1 ensures !Collectible(hearts[j], pos, collected) {
            if j > 0 { assert hearts[j] == hearts[1..][j - 1]; }
          }
          assert FirstCollectible(hearts, pos, collected, k + 1);
        }
      }
      r
  }

  /**
    `checkHouseCollision`: the door is the middle column of the house's
    footprint, one row below its south edge. The heart count gate is
    commented out in the source, so `collected` and `totalHearts` play no part.
   */
  function CheckHouseCollision(pos: Position, house: Position, collected: set<int>, totalHearts: int): (r: bool)
    ensures r <==> pos.x - house.x == FootprintWidth(House) / 2 && pos.y - house.y == FootprintHeight(House)
  {
    pos.x == house.x + 1 && pos.y == house.y + 3
  }

  /** Reaching the door does not depend on how many hearts are collected. */
  lemma HouseCollisionIgnoresHearts(pos: Position, house: Position, c1: set<int>, t1: int, c2: set<int>, t2: int)
    ensures CheckHouseCollision(pos, house, c1, t1) == CheckHouseCollision(pos, house, c2, t2)
  {
  }

  /** For a house anchored at (0, 0) only (1, 3) is the door; (0, 3), (2, 3) and (1, 2) are not. */
  lemma DoorOfHouseAtOrigin(collected: set<int>, total: int)
    ensures CheckHouseCollision(Position(1, 3), Position(0, 0), collected, total)
    ensures !CheckHouseCollision(Position(0, 3), Position(0, 0), collected, total)
    ensures !CheckHouseCollision(Position(2, 3), Position(0, 0), collected, total)
    ensures !CheckHouseCollision(Position(1, 2), Position(0, 0), collected, total)
  {
  }

  /** `getNextPosition`: the neighbouring cell one step in direction `d`. */
  function GetNextPosition(p: Position, d: Direction): (r: Position)
    ensures Abs(r.x - p.x) + Abs(r.y - p.y) == 1
    ensures r.y < p.y <==> d == Up
    ensures r.y > p.y <==> d == Down
    ensures r.x < p.x <==> d == Left
    ensures r.x > p.x <==> d == Right
  {
    match d
    case Up => Position(p.x, p.y - 1)
    case Down => Position(p.x, p.y + 1)
    case Left => Position(p.x - 1, p.y)
    case Right => Position(p.x + 1, p.y)
  }

  function Abs(n: int): nat {
    if n < 0 then -n else n
  }

  function Opposite(d: Direction): Direction {
    match d
    case Up => Down
    case Down => Up
    case Left => Right
    case Right => Left
  }

  /** A step followed by a step the opposite way returns to the start. */
  lemma StepThenBack(p: Position, d: Direction)
    ensures GetNextPosition(GetNextPosition(p, d), Opposite(d)) == p
  {
  }
}
