/**
  The top-level session: which screen shows, the chosen character, the
  collected hearts, the photo on show (which pauses the game) and the
  music track, driven by the handlers the screens call back.
 */
module App {
  import opened Wrappers
  import opened GameTypes

  datatype Music = Bgm | FinaleMusic

  /**
    The session's state fields, plus the number of 800 ms "go to the
    instructions" timers scheduled by selections and not yet fired.
   */
  datatype AppState = AppState(screen: GameScreen, character: Option<Character>, collected: set<int>,
                               showingPhoto: Option<int>, music: Music, pendingInstructions: nat)

  const Initial := AppState(Select, None, {}, None, Bgm, 0)

  /** The game is paused exactly while a photo is on show. */
  predicate IsPaused(s: AppState) {
    s.showingPhoto.Some?
  }

  /** The game screen renders only with a character chosen. */
  predicate RendersGame(s: AppState) {
    s.screen == Game && s.character.Some?
  }

  /** The finale renders only with a character chosen. */
  predicate RendersFinale(s: AppState) {
    s.screen == Finale && s.character.Some?
  }

  /** `handleCharacterSelect(c)`: record the character and schedule the move to the instructions. */
  function SelectCharacter(s: AppState, c: Character): (r: AppState)
    ensures r.character == Some(c) && r.pendingInstructions == s.pendingInstructions + 1
    ensures r.screen == s.screen && r.collected == s.collected && r.showingPhoto == s.showingPhoto && r.music == s.music
  {
    s.(character := Some(c), pendingInstructions := s.pendingInstructions + 1)
  }

  /** One scheduled instructions timer fires: the screen becomes the instructions, whatever it was. */
  function InstructionsTimerFires(s: AppState): (r: AppState)
    requires s.pendingInstructions > 0
    ensures r.screen == Instructions && r.pendingInstructions == s.pendingInstructions - 1
    ensures r.character == s.character && r.collected == s.collected && r.showingPhoto == s.showingPhoto && r.music == s.music
  {
    s.(screen := Instructions, pendingInstructions := s.pendingInstructions - 1)
  }

  /** `handleInstructionsContinue`. */
  function Continue(s: AppState): (r: AppState)
    ensures r.screen == Game
    ensures r.character == s.character && r.collected == s.collected && r.showingPhoto == s.showingPhoto
    ensures r.music == s.music && r.pendingInstructions == s.pendingInstructions
  {
    s.(screen := Game)
  }

  /** `handleHeartCollected(i)`: add the index and show that photo. */
  function CollectHeart(s: AppState, i: int): (r: AppState)
    ensures i in r.collected && s.collected <= r.collected && r.collected - {i} <= s.collected
    ensures r.showingPhoto == Some(i) && IsPaused(r)
    ensures r.screen == s.screen && r.character == s.character && r.music == s.music
    ensures r.pendingInstructions == s.pendingInstructions
  {
    s.(collected := s.collected + {i}, showingPhoto := Some(i))
  }

  /** `handleModalClose`: the photo goes away and the game runs again. */
  function CloseModal(s: AppState): (r: AppState)
    ensures !IsPaused(r) && r.showingPhoto == None
    ensures r.screen == s.screen && r.character == s.character && r.collected == s.collected
    ensures r.music == s.music && r.pendingInstructions == s.pendingInstructions
  {
    s.(showingPhoto := None)
  }

  /** `handleHouseReached`: the finale music and the cutscene. */
  function ReachHouse(s: AppState): (r: AppState)
    ensures r.music == FinaleMusic && r.screen == Cutscene
    ensures r.character == s.character && r.collected == s.collected && r.showingPhoto == s.showingPhoto
    ensures r.pendingInstructions == s.pendingInstructions
  {
    s.(music := FinaleMusic, screen := Cutscene)
  }

  /** `handleCutsceneComplete`. */
  function CompleteCutscene(s: AppState): (r: AppState)
    ensures r.screen == Finale
    ensures r.character == s.character && r.collected == s.collected && r.showingPhoto == s.showingPhoto
    ensures r.music == s.music && r.pendingInstructions == s.pendingInstructions
  {
    s.(screen := Finale)
  }

  /** `handleRestart`: every session field back to its first value; scheduled timers are not cancelled. */
  function Restart(s: AppState): (r: AppState)
    ensures r.(pendingInstructions := 0) == Initial && r.pendingInstructions == s.pendingInstructions
  {
    AppState(Select, None, {}, None, Bgm, s.pendingInstructions)
  }

  /** Collecting the same heart twice is the same as collecting it once. */
  lemma CollectIdempotent(s: AppState, i: int)
    ensures CollectHeart(CollectHeart(s, i), i) == CollectHeart(s, i)
  {
  }

  /** A heart not yet collected raises the count by exactly one; one already collected leaves it. */
  lemma CollectCount(s: AppState, i: int)
    ensures i !in s.collected ==> |CollectHeart(s, i).collected| == |s.collected| + 1
    ensures i in s.collected ==> CollectHeart(s, i).collected == s.collected
  {
  }

  /** The hearts handler applied to each index of `ids` in turn. */
  function CollectAll(s: AppState, ids: seq<int>): AppState
    decreases |ids|
  {
    if |ids| == 0 then s else CollectAll(CollectHeart(s, ids[0]), ids[1..])
  }

  /** After collecting a list of indices the set holds exactly the old ones and the listed ones. */
  lemma {:induction false} CollectAllSet(s: AppState, ids: seq<int>)
    ensures CollectAll(s, ids).collected == s.collected + set i | i in ids
    ensures CollectAll(s, ids).screen == s.screen && CollectAll(s, ids).character == s.character
    decreases |ids|
  {
    if |ids| > 0 {
      CollectAllSet(CollectHeart(s, ids[0]), ids[1..]);
      assert (set i | i in ids) == {ids[0]} + set i | i in ids[1..];
    }
  }

  /** Collecting distinct new indices raises the count by their number. */
  lemma {:induction false} CollectAllCount(s: AppState, ids: seq<int>)
    requires forall j, k :: 0 <= j < k < |ids| ==> ids[j] != ids[k]
    requires forall k :: 0 <= k < |ids| ==> ids[k] !in s.collected
    ensures |CollectAll(s, ids).collected| == |s.collected| + |ids|
    decreases |ids|
  {
    if |ids| > 0 {
      var s' := CollectHeart(s, ids[0]);
      CollectCount(s, ids[0]);
      forall k | 0 <= k < |ids[1..]|
        ensures ids[1..][k] !in s'.collected
      {
        assert ids[1..][k] == ids[k + 1];
      }
      CollectAllCount(s', ids[1..]);
    }
  }

  /** Collecting the photos of the ten hearts, 0 to 9, from a fresh session leaves ten collected. */
  lemma TenHeartsCollected(s: AppState)
    requires s.collected == {}
    ensures |CollectAll(s, seq(10, k => k)).collected| == 10
  {
    CollectAllCount(s, seq(10, k => k));
  }

  /** Select, let the timer fire and continue: the game renders with the chosen character, unpaused. */
  lemma SelectThenPlay(c: Character)
    ensures var s := Continue(InstructionsTimerFires(SelectCharacter(Initial, c)));
      RendersGame(s) && s.character == Some(c) && !IsPaused(s) && s.collected == {}
  {
  }

  /** Reaching the house and finishing the cutscene renders the finale with the finale music. */
  lemma HouseThenFinale(s: AppState)
    requires RendersGame(s)
    ensures var r := CompleteCutscene(ReachHouse(s));
      RendersFinale(r) && r.music == FinaleMusic && r.collected == s.collected
  {
  }

  /** The session held by `App`, with each handler updating its fields in place. */
  class AppSession {
    var screen: GameScreen
    var character: Option<Character>
    var collected: set<int>
    var showingPhoto: Option<int>
    var music: Music
    var pendingInstructions: nat

    function State(): AppState
      reads this
    {
      AppState(screen, character, collected, showingPhoto, music, pendingInstructions)
    }

    constructor()
      ensures State() == Initial
    {
      screen, character, collected, showingPhoto, music, pendingInstructions := Select, None, {}, None, Bgm, 0;
    }

    method HandleCharacterSelect(c: Character)
      modifies this
      ensures State() == SelectCharacter(old(State()), c)
    {
      character := Some(c);
      pendingInstructions := pendingInstructions + 1;
    }

    method InstructionsTimerFired()
      requires pendingInstructions > 0
      modifies this
      ensures State() == InstructionsTimerFires(old(State()))
    {
      screen := Instructions;
      pendingInstructions := pendingInstructions - 1;
    }

    method HandleInstructionsContinue()
      modifies this
      ensures State() == Continue(old(State()))
    {
      screen := Game;
    }

    method HandleHeartCollected(photoIndex: int)
      modifies this
      ensures State() == CollectHeart(old(State()), photoIndex)
    {
      collected := collected + {photoIndex};
      showingPhoto := Some(photoIndex);
    }

    method HandleModalClose()
      modifies this
      ensures State() == CloseModal(old(State()))
    {
      showingPhoto := None;
    }

    method HandleHouseReached()
      modifies this
      ensures State() == ReachHouse(old(State()))
    {
      music := FinaleMusic;
      screen := Cutscene;
    }

    method HandleCutsceneComplete()
      modifies this
      ensures State() == CompleteCutscene(old(State()))
    {
      screen := Finale;
    }

    method HandleRestart()
      modifies this
      ensures State() == Restart(old(State()))
    {
      screen := Select;
      character := None;
      collected := {};
      showingPhoto := None;
      music := Bgm;
    }
  }
}
