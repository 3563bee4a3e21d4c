/**
  `useCamera` and `useVisibleTiles`: the camera offset that keeps the
  character centred, clamped per axis to the map, and the range of cells a
  tile layer draws, widened by a margin so that partial scrolls show no gap.
 */
module Camera {
  import opened CharacterController

  datatype CameraState = CameraState(x: real, y: real)

  function RMin(a: real, b: real): real {
    if a <= b then a else b
  }

  function RMax(a: real, b: real): real {
    if a >= b then a else b
  }

  /**
    `p - viewport/2 + tileSize/2`: the offset at which the centre of the
    character's tile sits in the middle of the viewport.
   */
  function IdealOffset(p: real, viewport: int, tileSize: int): (r: real)
    ensures p + tileSize as real / 2.0 - r == viewport as real / 2.0
  {
    p - viewport as real / 2.0 + tileSize as real / 2.0
  }

  /** `mapSize * tileSize - viewport`: the largest offset that keeps the viewport on the map. */
  function MaxOffset(mapCells: int, viewport: int, tileSize: int): int {
    mapCells * tileSize - viewport
  }

  /**
    `Math.max(0, Math.min(ideal, max))`: never negative; never past `max`
    when the map is at least as large as the viewport; always 0 when it is
    not larger; `ideal` itself whenever `ideal` lies in [0, max].
   */
  function ClampOffset(ideal: real, max: int): (r: real)
    ensures r >= 0.0
    ensures max >= 0 ==> r <= max as real
    ensures max <= 0 ==> r == 0.0
    ensures 0.0 <= ideal <= max as real ==> r == ideal
    ensures r == ideal || r == 0.0 || r == max as real
  {
    RMax(0.0, RMin(ideal, max as real))
  }

  /** The camera offset along one axis, for a player at pixel coordinate `p`. */
  function AxisOffset(p: real, mapCells: int, viewport: int, tileSize: int): real {
    ClampOffset(IdealOffset(p, viewport, tileSize), MaxOffset(mapCells, viewport, tileSize))
  }

  /** `useCamera`. */
  function UseCamera(player: PixelPos, mapWidth: int, mapHeight: int, viewportWidth: int, viewportHeight: int,
                     tileSize: int): CameraState
  {
    CameraState(AxisOffset(player.x, mapWidth, viewportWidth, tileSize),
                AxisOffset(player.y, mapHeight, viewportHeight, tileSize))
  }

  /** When no clamping applies the character stands exactly in the middle of the viewport. */
  lemma CameraCentresPlayer(p: real, mapCells: int, viewport: int, tileSize: int)
    requires 0.0 <= IdealOffset(p, viewport, tileSize) <= MaxOffset(mapCells, viewport, tileSize) as real
    ensures p + tileSize as real / 2.0 - AxisOffset(p, mapCells, viewport, tileSize) == viewport as real / 2.0
  {
  }

  /** On a map exactly as large as the viewport the camera never moves. */
  lemma CameraFixedOnViewportSizedMap(p: real, mapCells: int, viewport: int, tileSize: int)
    requires mapCells * tileSize == viewport
    ensures AxisOffset(p, mapCells, viewport, tileSize) == 0.0
  {
  }

  /** The camera follows the player: it never moves against the player's motion. */
  lemma CameraMonotone(p: real, q: real, mapCells: int, viewport: int, tileSize: int)
    requires p <= q
    ensures AxisOffset(p, mapCells, viewport, tileSize) <= AxisOffset(q, mapCells, viewport, tileSize)
  {
  }

  datatype VisibleArea = VisibleArea(startX: int, startY: int, endX: int, endY: int)

  /** `Math.ceil`. */
  function Ceil(r: real): (c: int)
    ensures c as real >= r && (c - 1) as real < r
  {
    -((-r).Floor)
  }

  /** `Math.floor(camera / tileSize) - 1`: the first drawn cell before clamping. */
  function RawStart(camera: real, tileSize: int): int
    requires tileSize > 0
  {
    (camera / tileSize as real).Floor - 1
  }

  /** `rawStart + Math.ceil(viewport / tileSize) + 2`: one past the last drawn cell, never clamped. */
  function RangeEnd(camera: real, viewport: int, tileSize: int): int
    requires tileSize > 0
  {
    RawStart(camera, tileSize) + Ceil(viewport as real / tileSize as real) + 2
  }

  /** `useVisibleTiles`: only the start of each range is clamped, to 0. */
  function UseVisibleTiles(camera: CameraState, viewportWidth: int, viewportHeight: int, tileSize: int): (r: VisibleArea)
    requires tileSize > 0
    ensures r.startX >= 0 && r.startY >= 0
    ensures r.startX == if RawStart(camera.x, tileSize) >= 0 then RawStart(camera.x, tileSize) else 0
    ensures r.startY == if RawStart(camera.y, tileSize) >= 0 then RawStart(camera.y, tileSize) else 0
    ensures r.endX == RangeEnd(camera.x, viewportWidth, tileSize)
    ensures r.endY == RangeEnd(camera.y, viewportHeight, tileSize)
  {
    var sx := RawStart(camera.x, tileSize);
    var sy := RawStart(camera.y, tileSize);
    VisibleArea(if sx >= 0 then sx else 0, if sy >= 0 then sy else 0,
                RangeEnd(camera.x, viewportWidth, tileSize), RangeEnd(camera.y, viewportHeight, tileSize))
  }

  /** Multiplying by a positive tile size preserves strict order, both ways. */
  lemma ScaleStrict(a: real, b: real, t: real)
    requires t > 0.0
    ensures a * t < b * t <==> a < b
  {
    if a < b {
      assert (b - a) * t > 0.0;
    } else {
      assert (a - b) * t >= 0.0;
    }
  }

  /**
    Every cell whose pixel rectangle meets the viewport lies in the range
    `useVisibleTiles` returns: [startX, endX) by [startY, endY).
   */
  lemma VisibleRangeCoversViewport(camera: CameraState, viewportWidth: int, viewportHeight: int, tileSize: int,
                                   cx: int, cy: int)
    requires tileSize > 0 && cx >= 0 && cy >= 0
    requires (cx * tileSize) as real < camera.x + viewportWidth as real && camera.x < ((cx + 1) * tileSize) as real
    requires (cy * tileSize) as real < camera.y + viewportHeight as real && camera.y < ((cy + 1) * tileSize) as real
    ensures UseVisibleTiles(camera, viewportWidth, viewportHeight, tileSize).startX <= cx
    ensures cx < UseVisibleTiles(camera, viewportWidth, viewportHeight, tileSize).endX
    ensures UseVisibleTiles(camera, viewportWidth, viewportHeight, tileSize).startY <= cy
    ensures cy < UseVisibleTiles(camera, viewportWidth, viewportHeight, tileSize).endY
  {
    AxisRangeCovers(camera.x, viewportWidth, tileSize, cx);
    AxisRangeCovers(camera.y, viewportHeight, tileSize, cy);
  }

  /** One axis of the covering property: a cell meeting the viewport span lies in [max(0, raw start), end). */
  lemma AxisRangeCovers(camera: real, viewport: int, tileSize: int, c: int)
    requires tileSize > 0 && c >= 0
    requires (c * tileSize) as real < camera + viewport as real
    requires camera < ((c + 1) * tileSize) as real
    ensures (if RawStart(camera, tileSize) >= 0 then RawStart(camera, tileSize) else 0) <= c
    ensures c < RangeEnd(camera, viewport, tileSize)
  {
    var t := tileSize as real;
    var q := camera / t;
    var w := viewport as real / t;
    CellBeforeCamera(camera, t, c);
    assert q.Floor <= c;
    CellBeforeViewportEnd(camera, viewport as real, t, c);
    assert c as real < (q.Floor + 1) as real + Ceil(w) as real;
  }

  /** A cell ending after the camera's edge: the edge, in cell units, lies before the cell's end. */
  lemma CellBeforeCamera(camera: real, t: real, c: int)
    requires t > 0.0 && camera < ((c + 1) as real) * t
    ensures camera / t < (c + 1) as real
  {
    assert camera == (camera / t) * t;
    ScaleStrict(camera / t, (c + 1) as real, t);
  }

  /** A cell starting before the viewport's right edge starts before that edge in cell units. */
  lemma CellBeforeViewportEnd(camera: real, viewport: real, t: real, c: int)
    requires t > 0.0 && c as real * t < camera + viewport
    ensures c as real < camera / t + viewport / t
  {
    assert camera + viewport == (camera / t + viewport / t) * t;
    ScaleStrict(c as real, camera / t + viewport / t, t);
  }

  /**
    On the shipped 40 by 30 map with a 960 by 704 viewport and 32-pixel
    tiles, the camera pushed to its far corner yields ends 41 and 31: one
    past the map's 40 columns and 30 rows, so the renderer must bound them.
   */
  lemma EndsRunPastTheMap()
    ensures UseCamera(PixelPos(39.0 * 32.0, 29.0 * 32.0), 40, 30, 960, 704, 32) == CameraState(320.0, 256.0)
    ensures UseVisibleTiles(CameraState(320.0, 256.0), 960, 704, 32) == VisibleArea(9, 7, 41, 31)
  {
    assert (320.0 / 32.0).Floor == 10;
    assert (256.0 / 32.0).Floor == 8;
    assert Ceil(960.0 / 32.0) == 30;
    assert Ceil(704.0 / 32.0) == 22;
  }
}
