/**
  `TileRenderer`: draws the non-empty cells of one layer that fall in the
  visible range, row by row, bounding the range on both sides by the
  layer itself; and `Tile`: where a drawn tile goes and how large it is.
 */
module TileRenderer {
  import opened Wrappers
  import opened GameTypes
  import opened Decimal
  import opened Collision
  import opened Camera

  /** One pushed `<Tile>`: its kind and cell. */
  datatype RenderedTile = RenderedTile(kind: TileType, x: int, y: int)

  /** Cell (x, y) exists in `layer`, lies in `area` and is not empty. */
  predicate Drawn(layer: seq<seq<Option<TileType>>>, area: VisibleArea, x: int, y: int) {
    && 0 <= y < |layer| && area.startY <= y < area.endY
    && 0 <= x < |layer[y]| && area.startX <= x < area.endX
    && layer[y][x].Some?
  }

  /** Row-major order: by row, then by column. */
  predicate Before(a: RenderedTile, b: RenderedTile) {
    a.y < b.y || (a.y == b.y && a.x < b.x)
  }

  /**
    The nested loops of `TileRenderer`: exactly the drawn cells, each with
    the kind the layer holds there, in row-major order. Starts below 0 and
    ends past the layer are skipped, so no cell outside the layer is read.
   */
  method RenderLayer(layer: seq<seq<Option<TileType>>>, area: VisibleArea) returns (tiles: seq<RenderedTile>)
    ensures forall t :: t in tiles ==> Drawn(layer, area, t.x, t.y) && layer[t.y][t.x] == Some(t.kind)
    ensures forall x, y :: Drawn(layer, area, x, y) ==> RenderedTile(layer[y][x].value, x, y) in tiles
    ensures forall i, j :: 0 <= i < j < |tiles| ==> Before(tiles[i], tiles[j])
  {
    tiles := [];
    var y := area.startY;
    while y < area.endY && y < |layer|
      invariant area.startY <= y
      invariant forall t :: t in tiles ==> Drawn(layer, area, t.x, t.y) && layer[t.y][t.x] == Some(t.kind) && t.y < y
      invariant forall x, y' :: Drawn(layer, area, x, y') && y' < y ==> RenderedTile(layer[y'][x].value, x, y') in tiles
      invariant forall i, j :: 0 <= i < j < |tiles| ==> Before(tiles[i], tiles[j])
      decreases |layer| - y
    {
      if y < 0 {
        y := y + 1;
        continue;
      }
      var row := layer[y];
      var x := area.startX;
      while x < area.endX && x < |row|
        invariant area.startX <= x
        invariant forall t :: t in tiles ==>
          Drawn(layer, area, t.x, t.y) && layer[t.y][t.x] == Some(t.kind) && (t.y < y || (t.y == y && t.x < x))
        invariant forall x', y' :: Drawn(layer, area, x', y') && (y' < y || (y' == y && x' < x)) ==>
          RenderedTile(layer[y'][x'].value, x', y') in tiles
        invariant forall i, j :: 0 <= i < j < |tiles| ==> Before(tiles[i], tiles[j])
        decreases |row| - x
      {
        if x >= 0 {
          match row[x]
          case Some(k) =>
            tiles := tiles + [RenderedTile(k, x, y)];
          case None =>
        }
        x := x + 1;
      }
      y := y + 1;
    }
  }

  /** The React key `${x}-${y}` of a tile on the map. */
  function Key(x: nat, y: nat): string {
    NatToString(x) + "-" + NatToString(y)
  }

  /** The index of the first `-` in `s`, or `|s|` when there is none. */
  function FirstDash(s: string): nat {
    if |s| == 0 then 0 else if s[0] == '-' then 0 else 1 + FirstDash(s[1..])
  }

  lemma {:induction false} FirstDashAfterDigits(a: string, b: string)
    requires forall i :: 0 <= i < |a| ==> IsDigit(a[i])
    ensures FirstDash(a + "-" + b) == |a|
  {
    if |a| > 0 {
      assert (a + "-" + b)[1..] == a[1..] + "-" + b;
      FirstDashAfterDigits(a[1..], b);
    }
  }

  /** The first `-` in a key ends the column's digits. */
  lemma DashSplitsKey(a: string, b: string, c: string, d: string)
    requires forall i :: 0 <= i < |a| ==> IsDigit(a[i])
    requires forall i :: 0 <= i < |c| ==> IsDigit(c[i])
    requires a + "-" + b == c + "-" + d
    ensures a == c && b == d
  {
    var k := a + "-" + b;
    FirstDashAfterDigits(a, b);
    FirstDashAfterDigits(c, d);
    assert a == k[..|a|] == c;
    assert b == k[|a| + 1..] == d;
  }

  /** Different cells have different keys. */
  lemma KeyInjective(x1: nat, y1: nat, x2: nat, y2: nat)
    requires Key(x1, y1) == Key(x2, y2)
    ensures x1 == x2 && y1 == y2
  {
    DashSplitsKey(NatToString(x1), NatToString(y1), NatToString(x2), NatToString(y2));
    NatToStringInjective(x1, x2);
    NatToStringInjective(y1, y2);
  }

  /** The keys of tiles in row-major order on the map are pairwise distinct. */
  lemma RenderedKeysDistinct(tiles: seq<RenderedTile>, i: int, j: int)
    requires forall k :: 0 <= k < |tiles| ==> tiles[k].x >= 0 && tiles[k].y >= 0
    requires forall k, l :: 0 <= k < l < |tiles| ==> Before(tiles[k], tiles[l])
    requires 0 <= i < |tiles| && 0 <= j < |tiles| && i != j
    ensures Key(tiles[i].x, tiles[i].y) != Key(tiles[j].x, tiles[j].y)
  {
    if i < j { assert Before(tiles[i], tiles[j]); } else { assert Before(tiles[j], tiles[i]); }
    if Key(tiles[i].x, tiles[i].y) == Key(tiles[j].x, tiles[j].y) {
      KeyInjective(tiles[i].x, tiles[i].y, tiles[j].x, tiles[j].y);
    }
  }

  /** Where `Tile` places its image, in pixels. */
  datatype TileRect = TileRect(left: int, top: int, width: int, height: int)

  /** `Tile`: at the anchor cell, `(width ?? 1) * tileSize` wide and `(height ?? 1) * tileSize` tall. */
  function TileRectOf(kind: TileType, x: int, y: int, tileSize: int): TileRect {
    TileRect(x * tileSize, y * tileSize, FootprintWidth(kind) * tileSize, FootprintHeight(kind) * tileSize)
  }

  /** Multiplying by a positive tile size preserves order, both ways. */
  lemma ScaleMonotone(a: int, b: int, t: int)
    requires t > 0
    ensures a * t <= b * t <==> a <= b
  {
    if a <= b {
      assert (b - a) * t >= 0;
    } else {
      assert (a - b) * t > 0;
    }
  }

  /**
    The image of a tile covers exactly the cells its footprint spans, the
    same cells the collision oracle treats as occupied by it.
   */
  lemma TileRectIsFootprint(kind: TileType, x: int, y: int, tileSize: int, cx: int, cy: int)
    requires tileSize > 0
    ensures var r := TileRectOf(kind, x, y, tileSize);
      (r.left <= cx * tileSize && (cx + 1) * tileSize <= r.left + r.width
       && r.top <= cy * tileSize && (cy + 1) * tileSize <= r.top + r.height)
      <==> Covers(x, y, kind, cx, cy)
  {
    ScaleMonotone(x, cx, tileSize);
    ScaleMonotone(cx + 1, x + FootprintWidth(kind), tileSize);
    ScaleMonotone(y, cy, tileSize);
    ScaleMonotone(cy + 1, y + FootprintHeight(kind), tileSize);
  }
}
