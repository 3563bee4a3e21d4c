/**
  The game screen's decisions: what a completed step triggers, when the
  character stands at the house door, when the enter prompt shows and the
  action key enters, and the "locked" bubble shown on arriving at the door
  with hearts still missing.
 */
module GameMap {
  import opened Wrappers
  import opened GameTypes
  import opened Collision
  import MapData

  /** The callbacks a completed step issues: a heart to collect, and whether the house was reached. */
  datatype MoveEvents = MoveEvents(heart: Option<int>, houseReached: bool)

  /**
    `handleMove(newPos)`: nothing while paused; otherwise the first
    uncollected heart at the new cell, and the door check, which ignores
    how many hearts are collected.
   */
  function HandleMove(newPos: Position, hearts: seq<HeartPosition>, house: Position,
                      collected: set<int>, isPaused: bool): (r: MoveEvents)
    ensures isPaused ==> r == MoveEvents(None, false)
    ensures r.heart.Some? ==> r.heart.value !in collected
    ensures r.heart.Some? ==>
      exists i :: FirstCollectible(hearts, newPos, collected, i) && hearts[i].photoIndex == r.heart.value
    ensures r.heart.None? <==> isPaused || forall i :: 0 <= i < |hearts| ==> !Collectible(hearts[i], newPos, collected)
    ensures r.houseReached <==> !isPaused && newPos == Position(house.x + 1, house.y + 3)
  {
    if isPaused then MoveEvents(None, false)
    else MoveEvents(CheckHeartCollision(newPos, hearts, collected),
                    CheckHouseCollision(newPos, house, collected, |hearts|))
  }

  /** Reaching the door does not depend on the hearts collected so far. */
  lemma HouseReachedIgnoresCollected(newPos: Position, hearts: seq<HeartPosition>, house: Position,
                                     c1: set<int>, c2: set<int>, isPaused: bool)
    ensures HandleMove(newPos, hearts, house, c1, isPaused).houseReached
         == HandleMove(newPos, hearts, house, c2, isPaused).houseReached
  {
  }

  /** A heart already collected is never reported again. */
  lemma CollectedHeartNotReported(newPos: Position, hearts: seq<HeartPosition>, house: Position,
                                  collected: set<int>, i: int)
    requires 0 <= i < |hearts| && hearts[i].photoIndex in collected
    ensures HandleMove(newPos, hearts, house, collected, false).heart != Some(hearts[i].photoIndex)
  {
  }

  /**
    `isAtHouseDoor`: written as the literal cell (19, 5); it is exactly the
    door that `checkHouseCollision` computes for the map's house.
   */
  predicate IsAtHouseDoor(gridPos: Position): (r: bool)
    ensures r <==> CheckHouseCollision(gridPos, MapData.TheMap().housePosition, {}, 0)
  {
    gridPos.x == 19 && gridPos.y == 5
  }

  /** The hard-coded door cell is the door formula applied to the map's house at (18, 2), whatever is collected. */
  lemma DoorMatchesHouse(gridPos: Position, collected: set<int>, total: int)
    ensures IsAtHouseDoor(gridPos) <==> CheckHouseCollision(gridPos, MapData.TheMap().housePosition, collected, total)
  {
  }

  /** A set holding every number below n has at least n elements. */
  lemma {:induction false} RangeSubsetSize(collected: set<int>, n: nat)
    ensures (forall i :: 0 <= i < n ==> i in collected) ==> |collected| >= n
  {
    if n > 0 && forall i :: 0 <= i < n ==> i in collected {
      var rest := collected - {n - 1};
      assert forall i :: 0 <= i < n - 1 ==> i in rest;
      RangeSubsetSize(rest, n - 1);
      assert collected == rest + {n - 1};
    }
  }

  /**
    `allHeartsCollected`: a count comparison, at least as many collected
    indices as there are hearts. Holding every photo index below the total
    is enough for it.
   */
  predicate AllHeartsCollected(collected: set<int>, total: nat): (r: bool)
    ensures (forall i :: 0 <= i < total ==> i in collected) ==> r
    ensures total == 0 ==> r
  {
    RangeSubsetSize(collected, total);
    |collected| >= total
  }

  /** On the shipped map, ten distinct indices are needed. */
  lemma AllCollectedOnTheMap(collected: set<int>)
    ensures AllHeartsCollected(collected, |MapData.TheMap().heartPositions|) <==> |collected| >= 10
  {
  }

  /**
    The enter prompt (the effect at `[isAtHouseDoor, allHeartsCollected]`):
    shown only at (19, 5) with ten indices collected, and shown there once
    the photos 0 to 9 are all collected.
   */
  predicate ShowHousePrompt(gridPos: Position, collected: set<int>): (r: bool)
    ensures r ==> gridPos == Position(19, 5) && |collected| >= 10
    ensures gridPos == Position(19, 5) && (forall i :: 0 <= i < 10 ==> i in collected) ==> r
  {
    AllCollectedOnTheMap(collected);
    IsAtHouseDoor(gridPos) && AllHeartsCollected(collected, |MapData.TheMap().heartPositions|)
  }

  /**
    The action-key effect: the house is entered only at (19, 5), with ten
    indices collected, the action held and the game running.
   */
  predicate ShouldEnterHouse(gridPos: Position, collected: set<int>, action: bool, isPaused: bool): (r: bool)
    ensures r ==> gridPos == Position(19, 5) && |collected| >= 10 && action && !isPaused
    ensures gridPos == Position(19, 5) && (forall i :: 0 <= i < 10 ==> i in collected) && action && !isPaused ==> r
  {
    AllCollectedOnTheMap(collected);
    IsAtHouseDoor(gridPos) && AllHeartsCollected(collected, |MapData.TheMap().heartPositions|) && action && !isPaused
  }

  /** Entering is exactly pressing action while the prompt shows and the game runs. */
  lemma EnterExactlyWithPrompt(gridPos: Position, collected: set<int>, action: bool, isPaused: bool)
    ensures ShouldEnterHouse(gridPos, collected, action, isPaused)
        <==> ShowHousePrompt(gridPos, collected) && action && !isPaused
  {
  }

  /**
    Because the door check ignores the hearts, stepping onto the door of
    the shipped map unpaused with no heart collected reports the house as
    reached, in the same move that shows the "locked" bubble.
   */
  lemma DoorStepWithHeartsMissing()
    ensures HandleMove(Position(19, 5), MapData.Hearts(), MapData.TheMap().housePosition, {}, false).houseReached
    ensures !AllHeartsCollected({}, |MapData.Hearts()|)
    ensures BubbleStep(InitialBubble, IsAtHouseDoor(Position(19, 5)), AllHeartsCollected({}, |MapData.Hearts()|), false).showBubble
  {
  }

  /** The locked bubble's three pieces of state: the door ref, the bubble flag and the hide timer. */
  datatype BubbleState = BubbleState(wasAtDoor: bool, showBubble: bool, timerPending: bool)

  const InitialBubble := BubbleState(false, false, false)

  /** A timer runs exactly while the bubble shows, and the bubble shows only at the door. */
  predicate BubbleInvariant(s: BubbleState) {
    s.timerPending == s.showBubble && (s.showBubble ==> s.wasAtDoor)
  }

  /**
    One run of the locked-bubble effect: remember the door flag; on
    leaving, hide the bubble and clear its timer; on arriving with hearts
    missing and the game running, show the bubble and (re)start the timer.
   */
  function BubbleStep(s: BubbleState, atDoor: bool, allCollected: bool, isPaused: bool): (r: BubbleState)
    ensures r.wasAtDoor == atDoor
  {
    var justArrived := atDoor && !s.wasAtDoor;
    if !atDoor && s.showBubble then BubbleState(atDoor, false, false)
    else if justArrived && !allCollected && !isPaused then BubbleState(atDoor, true, true)
    else BubbleState(atDoor, s.showBubble, s.timerPending)
  }

  /** The hide timer firing. */
  function BubbleTimeout(s: BubbleState): (r: BubbleState)
    ensures !r.showBubble && !r.timerPending && r.wasAtDoor == s.wasAtDoor
  {
    BubbleState(s.wasAtDoor, false, false)
  }

  lemma BubbleInvariantKept(s: BubbleState, atDoor: bool, allCollected: bool, isPaused: bool)
    ensures BubbleInvariant(InitialBubble)
    ensures BubbleInvariant(s) ==> BubbleInvariant(BubbleStep(s, atDoor, allCollected, isPaused))
    ensures BubbleInvariant(s) ==> BubbleInvariant(BubbleTimeout(s))
  {
  }

  /** The bubble appears only on a rising edge at the door, with hearts missing and unpaused; and always then. */
  lemma BubbleOnRisingEdge(s: BubbleState, atDoor: bool, allCollected: bool, isPaused: bool)
    ensures var r := BubbleStep(s, atDoor, allCollected, isPaused);
      (!s.showBubble && r.showBubble ==> atDoor && !s.wasAtDoor && !allCollected && !isPaused)
      && (atDoor && !s.wasAtDoor && !allCollected && !isPaused ==> r.showBubble && r.timerPending)
  {
  }

  /** Away from the door there is no bubble and no timer. */
  lemma LeavingHidesBubble(s: BubbleState, allCollected: bool, isPaused: bool)
    requires BubbleInvariant(s)
    ensures var r := BubbleStep(s, false, allCollected, isPaused);
      !r.showBubble && !r.timerPending
  {
  }

  /** Re-running the effect with unchanged inputs changes nothing. */
  lemma BubbleStepIdempotent(s: BubbleState, atDoor: bool, allCollected: bool, isPaused: bool)
    ensures var r := BubbleStep(s, atDoor, allCollected, isPaused);
      BubbleStep(r, atDoor, allCollected, isPaused) == r
  {
  }

  /** Standing at the door (no new arrival) never brings the bubble back once it has gone. */
  lemma NoBubbleWhileStaying(s: BubbleState, allCollected: bool, isPaused: bool)
    requires s.wasAtDoor && !s.showBubble
    ensures !BubbleStep(s, true, allCollected, isPaused).showBubble
  {
  }

  /** The locked-bubble effect's refs and state, updated in place. */
  class LockedBubble {
    var wasAtDoor: bool
    var showBubble: bool
    var timerPending: bool

    function State(): BubbleState
      reads this
    {
      BubbleState(wasAtDoor, showBubble, timerPending)
    }

    ghost predicate Valid()
      reads this
    {
      BubbleInvariant(State())
    }

    constructor()
      ensures State() == InitialBubble && Valid()
    {
      wasAtDoor, showBubble, timerPending := false, false, false;
    }

    /** The effect, run whenever the door flag, the hearts flag, the pause flag or the bubble flag changes. */
    method Effect(atDoor: bool, allCollected: bool, isPaused: bool)
      requires Valid()
      modifies this
      ensures State() == BubbleStep(old(State()), atDoor, allCollected, isPaused) && Valid()
    {
      var justArrived := atDoor && !wasAtDoor;
      wasAtDoor := atDoor;
      if !atDoor && showBubble {
        showBubble := false;
        if timerPending {
          timerPending := false;
        }
        return;
      }
      if justArrived && !allCollected && !isPaused {
        showBubble := true;
        timerPending := true;
      }
    }

    /** The 3-second hide timer fires. */
    method TimerFires()
      requires Valid() && timerPending
      modifies this
      ensures State() == BubbleTimeout(old(State())) && Valid()
    {
      showBubble := false;
      timerPending := false;
    }
  }
}
