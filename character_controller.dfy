/**
  `useCharacterController`: turns the held directions into one-cell steps.
  A step is checked against the collision oracle, moves the grid cell to
  the target at once, then tweens the pixel position over 200 ms while the
  walk frame cycles every 80 ms; at completion the pixel position snaps to
  the target, the frame returns to 0 and `onMove` receives the new cell.
  Time reaches the model as the milliseconds elapsed since the step began.
 */
module CharacterController {
  import opened Wrappers
  import opened GameTypes
  import opened Controls
  import opened Collision

  const TILE_SIZE: int := 32
  /** Milliseconds per one-cell step. */
  const MOVE_DURATION: nat := 200
  /** Milliseconds per walk frame. */
  const FRAME_INTERVAL: nat := 80
  const WALK_FRAMES: nat := 4

  datatype PixelPos = PixelPos(x: real, y: real)

  /** The pixel position of the top-left corner of cell `p`. */
  function PixelOf(p: Position, tileSize: int): PixelPos {
    PixelPos((p.x * tileSize) as real, (p.y * tileSize) as real)
  }

  /** `r` lies between `a` and `b`, whichever is larger. */
  predicate Between(r: real, a: int, b: int) {
    (a <= b ==> a as real <= r <= b as real) && (b <= a ==> b as real <= r <= a as real)
  }

  /** `Math.min(elapsed / MOVE_DURATION, 1)`. */
  function Progress(elapsed: nat): (p: real)
    ensures 0.0 <= p <= 1.0
    ensures p == 1.0 <==> elapsed >= MOVE_DURATION
    ensures p * MOVE_DURATION as real == if elapsed >= MOVE_DURATION then MOVE_DURATION as real else elapsed as real
  {
    if elapsed as real / MOVE_DURATION as real < 1.0 then elapsed as real / MOVE_DURATION as real else 1.0
  }

  /** A fraction of a span lies between zero and the span. */
  lemma ScaledBetween(a: int, p: real)
    requires 0.0 <= p <= 1.0
    ensures a >= 0 ==> 0.0 <= a as real * p <= a as real
    ensures a <= 0 ==> a as real <= a as real * p <= 0.0
  {
    var q := 1.0 - p;
    assert a as real - a as real * p == a as real * q;
    if a >= 0 {
      assert 0.0 <= a as real * p;
      assert 0.0 <= a as real * q;
    } else {
      assert a as real * p <= 0.0;
      assert a as real * q <= 0.0;
    }
  }

  /**
    One coordinate of the tween: `from*ts + (to-from)*ts*progress`. It
    starts at the source cell, never leaves the span between the two cells,
    and lands on the target once the duration has elapsed.
   */
  function TweenCoord(from: int, to: int, tileSize: int, elapsed: nat): (r: real)
    ensures Between(r, from * tileSize, to * tileSize)
    ensures elapsed == 0 ==> r == (from * tileSize) as real
    ensures elapsed >= MOVE_DURATION ==> r == (to * tileSize) as real
  {
    var p := Progress(elapsed);
    ScaledBetween((to - from) * tileSize, p);
    assert (to * tileSize) == from * tileSize + (to - from) * tileSize;
    (from * tileSize) as real + ((to - from) * tileSize) as real * p
  }

  datatype Step = Step(from: Position, to: Position)

  function TweenPixel(s: Step, tileSize: int, elapsed: nat): PixelPos {
    PixelPos(TweenCoord(s.from.x, s.to.x, tileSize, elapsed), TweenCoord(s.from.y, s.to.y, tileSize, elapsed))
  }

  /** `Math.floor(elapsed / 80) % 4`: one of four frames, advancing every 80 ms. */
  function WalkFrame(elapsed: nat): (f: nat)
    ensures f < WALK_FRAMES
    ensures elapsed < FRAME_INTERVAL ==> f == 0
  {
    (elapsed / FRAME_INTERVAL) % WALK_FRAMES
  }

  /** The frame advances by one, cyclically, each 80 ms. */
  lemma WalkFrameAdvances(elapsed: nat)
    ensures WalkFrame(elapsed + FRAME_INTERVAL) == (WalkFrame(elapsed) + 1) % WALK_FRAMES
  {
    assert (elapsed + FRAME_INTERVAL) / FRAME_INTERVAL == elapsed / FRAME_INTERVAL + 1;
  }

  /** The priority order of the directions: up, down, left, right. */
  function Rank(d: Direction): nat {
    match d
    case Up => 0
    case Down => 1
    case Left => 2
    case Right => 3
  }

  /**
    The direction the effect tries: the first held one in the order up,
    down, left, right, or none when no direction is held.
   */
  function ChooseDirection(keys: ControlState): (r: Option<Direction>)
    ensures r.None? <==> forall d :: !keys.Get(Move(d))
    ensures r.Some? ==> keys.Get(Move(r.value))
    ensures r.Some? ==> forall d :: keys.Get(Move(d)) ==> Rank(r.value) <= Rank(d)
  {
    assert keys.Get(Move(Up)) == keys.up && keys.Get(Move(Down)) == keys.down;
    assert keys.Get(Move(Left)) == keys.left && keys.Get(Move(Right)) == keys.right;
    if keys.up then Some(Up)
    else if keys.down then Some(Down)
    else if keys.left then Some(Left)
    else if keys.right then Some(Right)
    else None
  }

  /** With up and left both held the attempted step is up, never left. */
  lemma UpBeatsLeft(keys: ControlState)
    requires keys.up && keys.left
    ensures ChooseDirection(keys) == Some(Up)
  {
  }

  predicate Neighbours(a: Position, b: Position) {
    Abs(a.x - b.x) + Abs(a.y - b.y) == 1
  }

  /** The hook's state: the fields its setters update, and the step being animated. */
  class Controller {
    const tileSize: int
    var gridPos: Position
    var pixelPos: PixelPos
    var direction: Direction
    var isMoving: bool
    var animationFrame: nat
    /** The step whose animation callback is still scheduled, if any. */
    var step: Option<Step>

    /**
      Moving exactly while a step is animated; idle, the sprite sits on its
      cell with frame 0; mid-step, the grid cell is already the target, one
      cell from the source, and the sprite lies between the two.
     */
    ghost predicate Valid()
      reads this
    {
      && (isMoving <==> step.Some?)
      && (step.None? ==> pixelPos == PixelOf(gridPos, tileSize) && animationFrame == 0)
      && (step.Some? ==>
            && gridPos == step.value.to
            && Neighbours(step.value.from, step.value.to)
            && Between(pixelPos.x, step.value.from.x * tileSize, step.value.to.x * tileSize)
            && Between(pixelPos.y, step.value.from.y * tileSize, step.value.to.y * tileSize)
            && animationFrame < WALK_FRAMES)
    }

    constructor (initialPos: Position, tileSize: int)
      ensures Valid()
      ensures this.tileSize == tileSize && gridPos == initialPos && pixelPos == PixelOf(initialPos, tileSize)
      ensures direction == Down && !isMoving && animationFrame == 0 && step.None?
    {
      this.tileSize := tileSize;
      gridPos := initialPos;
      pixelPos := PixelOf(initialPos, tileSize);
      direction := Down;
      isMoving := false;
      animationFrame := 0;
      step := None;
    }

    /**
      One run of the movement effect. Nothing happens while a step is in
      flight or the game is paused. Otherwise the facing follows the chosen
      direction even when the step is then refused; a permitted step sets
      the grid cell to the target at once and starts the tween.
     */
    method TryStart(keys: ControlState, isPaused: bool, m: MapData) returns (started: bool)
      requires Valid() && WellFormed(m)
      modifies this
      ensures Valid()
      ensures old(isMoving) || isPaused ==> !started && direction == old(direction)
      ensures !old(isMoving) && !isPaused ==>
        direction == ChooseDirection(keys).GetOr(old(direction))
      ensures started <==>
        && !old(isMoving) && !isPaused && ChooseDirection(keys).Some?
        && CanMoveTo(GetNextPosition(old(gridPos), ChooseDirection(keys).value).x,
                     GetNextPosition(old(gridPos), ChooseDirection(keys).value).y, m)
      ensures started ==>
        gridPos == GetNextPosition(old(gridPos), direction) && isMoving && step == Some(Step(old(gridPos), gridPos))
      ensures !started ==> gridPos == old(gridPos) && isMoving == old(isMoving) && step == old(step)
      ensures pixelPos == old(pixelPos) && animationFrame == old(animationFrame)
    {
      started := false;
      if isMoving || isPaused {
        return;
      }
      var target := ChooseDirection(keys);
      if target.Some? {
        direction := target.value;
        var next := GetNextPosition(gridPos, target.value);
        if CanMoveTo(next.x, next.y, m) {
          step := Some(Step(gridPos, next));
          isMoving := true;
          gridPos := next;
          started := true;
        }
      }
    }

    /**
      One animation frame, `elapsed` milliseconds after the step began. The
      pause flag plays no part: a step already in flight runs to the end.
      At completion the result is the cell passed to `onMove`.
     */
    method Tick(elapsed: nat) returns (moved: Option<Position>)
      requires Valid()
      modifies this
      ensures Valid()
      ensures gridPos == old(gridPos) && direction == old(direction)
      ensures old(step).None? ==>
        moved.None? && step.None? && !isMoving && pixelPos == old(pixelPos) && animationFrame == old(animationFrame)
      ensures old(step).Some? && elapsed < MOVE_DURATION ==>
        && moved.None? && step == old(step) && isMoving
        && pixelPos == TweenPixel(old(step).value, tileSize, elapsed) && animationFrame == WalkFrame(elapsed)
      ensures old(step).Some? && elapsed >= MOVE_DURATION ==>
        && moved == Some(old(step).value.to) && step.None? && !isMoving
        && pixelPos == PixelOf(old(step).value.to, tileSize) && animationFrame == 0
    {
      moved := None;
      if step.None? {
        return;
      }
      var s := step.value;
      pixelPos := TweenPixel(s, tileSize, elapsed);
      animationFrame := WalkFrame(elapsed);
      if Progress(elapsed) >= 1.0 {
        pixelPos := PixelOf(s.to, tileSize);
        animationFrame := 0;
        isMoving := false;
        step := None;
        moved := Some(s.to);
      }
    }
  }

  /** A 10 by 10 all-grass map with nothing on it. */
  function OpenField(): (m: MapData)
    ensures WellFormed(m)
  {
    MapData(10, 10,
      seq(10, _ => seq(10, _ => Grass)),
      seq(10, _ => seq(10, _ => None)),
      seq(10, _ => seq(10, _ => None)),
      Position(5, 5), Position(0, 0), [])
  }

  /** Holding right on an open field for one full step moves to (6, 5) and reports (6, 5) once. */
  method ScenarioStepRight() returns (started: bool, again: bool, moved: Option<Position>, later: Option<Position>)
    ensures started && !again
    ensures moved == Some(Position(6, 5)) && later.None?
  {
    var m := OpenField();
    var c := new Controller(Position(5, 5), TILE_SIZE);
    var right := Released.With(Move(Right), true);
    assert !ScanWindow(m, 6, 5, 3);
    started := c.TryStart(right, false, m);
    assert started && c.gridPos == Position(6, 5) && c.direction == Right;
    again := c.TryStart(right, false, m);
    moved := c.Tick(MOVE_DURATION);
    assert c.pixelPos == PixelOf(Position(6, 5), TILE_SIZE);
    later := c.Tick(MOVE_DURATION + 16);
  }

  /** A bush directly right of the player: holding right turns the character but never moves it. */
  method ScenarioBlockedRight() returns (started: bool, facing: Direction, cell: Position)
    ensures !started && facing == Right && cell == Position(5, 5)
  {
    var open := OpenField();
    var m := open.(objects := open.objects[5 := open.objects[5][6 := Some(Bush)]]);
    var c := new Controller(Position(5, 5), TILE_SIZE);
    var right := Released.With(Move(Right), true);
    started := c.TryStart(right, false, m);
    assert !c.isMoving;
    facing, cell := c.direction, c.gridPos;
  }
}
