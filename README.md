# A tile-grid exploration game, modelled in Dafny

This project models the core of a small browser game. Its parts are:

- **Layers.** The player picks one of two characters. The character walks cell by cell over a 40 × 30 tile map. The map has three layers: a ground layer, an object layer with trees, bushes and one 3 × 3 house, and an empty overhead layer.
- **Hearts and photos.** The player collects ten hearts. Each heart unlocks a photo, shown in a modal that pauses the game.
- **Ending.** At the door of the house the game moves to a cutscene and a finale.
- **Secret gallery.** A hidden photo gallery steps through the photos with wrap-around.

What is modelled, one Dafny module per source file:

- **`GameTypes`**: the tile kinds, their numeric codes and the tile definition table: walkability, sprite, and the optional multi-cell footprint. Also the shape of a map.
- **`Collision`**: the collision oracle `canMoveTo`. It checks bounds, the ground tile, the object on the cell, then scans the 3 × 3 window of anchors up and to the left for a footprint that covers the cell. Also the heart and door checks and the one-cell step.
- **`CharacterController`**: the motion controller. It picks a direction with fixed priority and turns the character even when the step is refused. A permitted step updates the grid cell at once and tweens the sprite for 200 ms with a four-frame walk cycle. At completion it reports the cell.
- **`Camera`**: the camera that centres the player, clamped to the map, and the visible-tile window used for culling.
- **`TileRenderer`**: the culling loop that lists the non-empty cells of a layer inside the window, in row-major order, with their React keys and pixel rectangles.
- **`KeyboardInput`, `VirtualInput`, `DPad`**: the input state machines. They are:
  - the keyboard hook, where arrows and WASD move and space or Enter act;
  - the virtual (touch) input context, whose action press releases itself by a timer;
  - the direction pad with its active-direction set and its fail-safe release on the last touch end.
- **`MapData`**: map construction. The builders are loops that paint point lists and rectangles into the layers. They are proved equal to closed per-cell descriptions, from which the map's properties follow:
  - water only in the two ponds;
  - one house;
  - a border of trees with a gap at the spawn;
  - spawn, door and every heart enterable;
  - the house block solid.
- **`GameMap`**: the game screen's decisions:
  - what a completed step triggers;
  - the door cell and the enter prompt;
  - entering with the action key;
  - the rising-edge "the house is locked" bubble with its 3-second timer.
- **`App`**: the session state machine over the screens select → instructions → game → cutscene → finale, with restart.
- **`PlayerSelect`**: the character-select screen. Keys are matched case-insensitively, and the first pick is final.
- **`SecretGallery`**: the gallery. It opens on the first photo, steps with wrap-around both ways, builds photo file names and handles its keys and clicks.

Two helper modules support these:

- `Wrappers` provides `Option`.
- `Decimal` provides the decimal printing of natural numbers (`String(n)`) and `padStart` with zeros. It also proves these are injective.

Pure code is modelled as functions with lemmas. Hooks and components that update state step by step become classes whose methods are proved equal to a state function. Timers and animation frames become explicit events: a method the environment calls when the timer fires or a frame arrives. The elapsed time of a frame is a parameter.

Two behaviours of the code worth stating:

- **The camera offset is never negative.** The final `Math.max(0, …)` applies even when the map is smaller than the viewport.
- **Pause does not freeze a step that has already started.** It only stops new steps from starting, and the tween runs to the end.

The door check in `checkHouseCollision` has its "all hearts collected" gate commented out. Stepping onto the door therefore reaches the house whatever the heart count. `GameMap.DoorStepWithHeartsMissing` states this consequence for the shipped map.

## Model

| member | source | states |
|---|---|---|
| GameTypes.FromCode | src/types/game.ts:22-39 | a code read back names the kind that carries that code |
| GameTypes.CodeRoundTrip | src/types/game.ts:22-39 | every tile kind's code reads back as that kind |
| GameTypes.CodesDistinct | src/types/game.ts:22-39 | no two tile kinds share a numeric code |
| GameTypes.Definition | src/types/game.ts:51-63 | each table entry describes the kind it is keyed by |
| GameTypes.WalkableKinds | src/types/game.ts:51-63 | walkable exactly for grass, flowers, dirt path, paved path and heart spawn |
| GameTypes.Footprints | src/types/game.ts:56-61 | the house spans 3×3 cells, a tree 1×2, every other kind one cell |
| GameTypes.FootprintBounded | src/types/game.ts:47-48 | no footprint is empty or larger than 3×3 |
| Controls.ControlState.With | src/hooks/useVirtualInput.tsx:31 | the spread update sets one control and leaves all the others |
| Controls.ReleasedHoldsNothing | src/hooks/useKeyboardInput.ts:11-17 | the initial state holds no control |
| Controls.ControlStateExtensional | src/hooks/useKeyboardInput.ts:3-9 | two states agreeing on all five controls are equal |
| Collision.ScanRow | src/utils/collision.ts:36-53 | the inner loop finds a blocking anchor in its row exactly when one exists from its start column to x |
| Collision.ScanWindow | src/utils/collision.ts:35-54 | the nested loops find a blocking anchor exactly when one exists in rows max(0,y-2)..y and columns max(0,x-2)..x |
| Collision.CanMoveTo | src/utils/collision.ts:7-57 | out of bounds, unwalkable ground, and a non-walkable object on the cell each refuse entry |
| Collision.CanMoveToIffUnoccupied | src/utils/collision.ts:33-54 | entry allowed iff in bounds, ground walkable and no non-walkable footprint anchored anywhere covers the cell |
| Collision.EnterableWhenWindowClear | src/utils/collision.ts:12-56 | walkable ground with no blocking anchor in the scan window is enough to enter |
| Collision.HouseBlockBlocked | src/utils/collision.ts:33-54 | none of the nine cells of a house's block can be entered |
| Collision.BelowTreeBlocked | src/utils/collision.ts:33-54 | neither a tree's anchor cell nor the cell below it can be entered |
| Collision.OwnCellCoveredByScan | src/utils/collision.ts:24-31 | the own-cell object check never refuses a cell the window scan would allow |
| Collision.CheckHeartCollision | src/utils/collision.ts:62-77 | the first heart in list order at the cell and not yet collected, or none exactly when no such heart exists |
| Collision.CheckHouseCollision | src/utils/collision.ts:83-100 | true iff the cell is the middle column of the house footprint, one row below it; the hearts play no part |
| Collision.HouseCollisionIgnoresHearts | src/utils/collision.ts:93-99 | the result is the same whatever the collected set and heart total |
| Collision.DoorOfHouseAtOrigin | src/utils/collision.ts:89-99 | for a house at (0,0), (1,3) is the door and its neighbours (0,3), (2,3) and (1,2) are not |
| Collision.GetNextPosition | src/utils/collision.ts:105-119 | the result is the one neighbour whose coordinate moves in the direction named |
| Collision.StepThenBack | src/utils/collision.ts:105-119 | a step and the opposite step return to the start |
| CharacterController.Progress | src/hooks/useCharacterController.ts:66 | progress lies in [0,1] and reaches 1 exactly when 200 ms have elapsed |
| CharacterController.ScaledBetween | src/hooks/useCharacterController.ts:70-71 | a fraction of a span lies between zero and the span |
| CharacterController.TweenCoord | src/hooks/useCharacterController.ts:69-72 | the tween starts on the source cell, stays between the two cells and ends on the target |
| CharacterController.WalkFrame | src/hooks/useCharacterController.ts:75 | one of four frames, frame 0 for the first 80 ms |
| CharacterController.WalkFrameAdvances | src/hooks/useCharacterController.ts:75 | the frame advances by one, cyclically, every 80 ms |
| CharacterController.ChooseDirection | src/hooks/useCharacterController.ts:96-113 | none iff no direction is held; otherwise a held direction with no held direction ahead of it in the order up, down, left, right |
| CharacterController.UpBeatsLeft | src/hooks/useCharacterController.ts:100-113 | with up and left held the attempt is up |
| CharacterController.Controller.constructor | src/hooks/useCharacterController.ts:35-42 | starts idle on the initial cell, facing down, frame 0 |
| CharacterController.Controller.TryStart | src/hooks/useCharacterController.ts:93-134 | nothing while moving or paused; facing follows the chosen direction even when refused; a step starts iff the neighbour can be entered, and then the grid cell is the neighbour at once |
| CharacterController.OpenField | src/types/game.ts:78-90 | a worked-example fixture: a well-formed 10 × 10 grass map with nothing on it |
| CharacterController.ScenarioStepRight | src/hooks/useCharacterController.ts:64-134 | worked example: holding right on the open field starts one step, refuses a second start mid-step, reports (6, 5) once at 200 ms and nothing on the next frame |
| CharacterController.ScenarioBlockedRight | src/hooks/useCharacterController.ts:93-134 | worked example: a bush to the right refuses the step, yet the character turns right and stays on (5, 5) |
| CharacterController.Controller.Tick | src/hooks/useCharacterController.ts:64-87 | mid-step the sprite is the tween and the frame the walk frame; at 200 ms it snaps to the target, frame 0, idle, and reports the cell once |
| Camera.IdealOffset | src/hooks/useCamera.ts:30-31 | the ideal offset puts the middle of the player's tile in the middle of the viewport |
| Camera.ClampOffset | src/hooks/useCamera.ts:34-40 | the offset is never negative, never past the map's far edge when that is positive, and the ideal one whenever it is in range |
| Camera.CameraCentresPlayer | src/hooks/useCamera.ts:28-41 | with no clamping the player's tile is centred exactly |
| Camera.CameraFixedOnViewportSizedMap | src/hooks/useCamera.ts:34-39 | on a map as large as the viewport the camera stays at 0 |
| Camera.CameraMonotone | src/hooks/useCamera.ts:28-41 | the camera never moves against the player's motion |
| Camera.Ceil | src/hooks/useCamera.ts:56-57 | `Math.ceil`: the least integer not below its argument |
| Camera.UseVisibleTiles | src/hooks/useCamera.ts:47-66 | each start is the raw start `floor(camera/tileSize) - 1` raised to 0 when negative; each end is the raw start plus `ceil(viewport/tileSize) + 2`, never clamped to the map |
| Camera.VisibleRangeCoversViewport | src/hooks/useCamera.ts:53-65 | every cell whose pixel rectangle meets the viewport lies in [startX, endX) × [startY, endY) of the range `useVisibleTiles` returns |
| Camera.AxisRangeCovers | src/hooks/useCamera.ts:58-63 | along one axis, a cell meeting the viewport span lies between the clamped start and the end |
| Camera.EndsRunPastTheMap | src/hooks/useCamera.ts:56-63 | at the far corner of the shipped map the range ends at 41 × 31, past the 40 × 30 map, because ends are not clamped |
| TileRenderer.RenderLayer | src/components/GameMap/TileRenderer.tsx:59-81 | exactly the non-empty cells of the layer inside the window, each with its kind, in row-major order |
| TileRenderer.DashSplitsKey | src/components/GameMap/TileRenderer.tsx:73 | a key splits uniquely at its first dash |
| TileRenderer.KeyInjective | src/components/GameMap/TileRenderer.tsx:73 | different cells get different keys |
| TileRenderer.RenderedKeysDistinct | src/components/GameMap/TileRenderer.tsx:61-81 | the tiles a layer renders have pairwise distinct keys |
| TileRenderer.TileRectIsFootprint | src/components/GameMap/TileRenderer.tsx:35-48 | a cell's pixel square lies inside a tile's image exactly when the cell is in the tile's footprint, the same cells collision treats as covered |
| KeyboardInput.PreventsDefault | src/hooks/useKeyboardInput.ts:27-30 | the default is suppressed exactly for the game keys other than WASD and Enter, that is for the four arrows and space |
| KeyboardInput.PressKey | src/hooks/useKeyboardInput.ts:26-58 | a keydown holds the key's control and leaves every other control |
| KeyboardInput.ReleaseKey | src/hooks/useKeyboardInput.ts:60-87 | a keyup releases the key's control and leaves every other control |
| KeyboardInput.OtherKeysIgnored | src/hooks/useKeyboardInput.ts:32-57 | a key driving no control changes nothing |
| KeyboardInput.PressIdempotent | src/hooks/useKeyboardInput.ts:26-58 | auto-repeated keydowns change nothing after the first |
| KeyboardInput.ReleaseUndoesPress | src/hooks/useKeyboardInput.ts:26-87 | releasing a key undoes pressing it when its control was free before |
| KeyboardInput.KeyAliases | src/hooks/useKeyboardInput.ts:32-56 | w, W and ArrowUp are one control, likewise the other pairs; space and Enter both act |
| KeyboardInput.Keyboard.constructor | src/hooks/useKeyboardInput.ts:23 | the hook starts with nothing held |
| KeyboardInput.Keyboard.KeyDown | src/hooks/useKeyboardInput.ts:26-58 | the listener suppresses the default as stated and applies the keydown update |
| KeyboardInput.Keyboard.KeyUp | src/hooks/useKeyboardInput.ts:60-87 | the listener applies the keyup update |
| VirtualInput.VirtualInputContext.constructor | src/hooks/useVirtualInput.tsx:27-28 | starts with nothing held and no release pending |
| VirtualInput.VirtualInputContext.SetDirection | src/hooks/useVirtualInput.tsx:30-32 | under a provider one direction is set and nothing else changes; without one it is a no-op |
| VirtualInput.VirtualInputContext.TriggerAction | src/hooks/useVirtualInput.tsx:34-40 | the action is held at once and one release is scheduled; a no-op without a provider |
| VirtualInput.VirtualInputContext.ActionReleaseFires | src/hooks/useVirtualInput.tsx:37-39 | a release timer frees only the action |
| DPad.ReleaseAll | src/components/DPad/DPad.tsx:42-44 | the directions listed are released, everything else kept |
| DPad.ReleaseOneMore | src/components/DPad/DPad.tsx:42-44 | releasing one more direction extends the released set by it |
| DPad.DPad.constructor | src/components/DPad/DPad.tsx:14 | the pad starts with no active direction |
| DPad.DPad.TouchStart | src/components/DPad/DPad.tsx:58-65 | a direction not yet active becomes active and pressed; an active one changes nothing |
| DPad.DPad.TouchEnd | src/components/DPad/DPad.tsx:67-72 | the direction leaves the active set and is released, active or not |
| DPad.DPad.GlobalTouchEnd | src/components/DPad/DPad.tsx:39-47 | with no touch left every active direction is released and the set emptied; otherwise nothing changes |
| MapData.FillRow | src/data/mapData.ts:11-13 | a row of the requested width holding the tile in every cell |
| MapData.EmptyObjectRow | src/data/mapData.ts:16-18 | a row of the requested width of empty cells |
| MapData.Rows | src/data/mapData.ts:25-27 | thirty rows, each the given row |
| MapData.WritePoints | src/data/mapData.ts:47-51 | a listed point passing the bound check gets the tile; every other cell is kept |
| MapData.WritePointsIfEmpty | src/data/mapData.ts:180-182 | `??=`: a listed cell that is empty gets the tile; occupied and unlisted cells are kept |
| MapData.FillRect | src/data/mapData.ts:68-72 | the cells of the rectangle get the tile; every other cell is kept |
| MapData.PaintBase | src/data/mapData.ts:24-65 | grass, then flowers, then the main path from row 5 down, cell by cell |
| MapData.PaintPaths | src/data/mapData.ts:67-124 | the paved yard, then the west, east and south dirt paths over the base |
| MapData.BuildGround | src/data/mapData.ts:21-142 | the ground layer is the ponds over the paths over the base, cell by cell |
| MapData.CreateGroundLayer | src/data/mapData.ts:21-142 | the shipped ground layer equals its per-cell description |
| MapData.AddBorderTrees | src/data/mapData.ts:153-162 | trees on the outer ring except columns 17 to 21 of the top and bottom rows |
| MapData.BuildObjects | src/data/mapData.ts:145-200 | the object layer is the house, then the border, then trees, then bushes where still empty, cell by cell |
| MapData.ObjectLayerCells | src/data/mapData.ts:195-197 | writing the house anchor last overrides whatever the cell held |
| MapData.TheObjectPlanOnGrid | src/data/mapData.ts:165-193 | every tree and bush position lies on the map |
| MapData.CreateObjectsLayer | src/data/mapData.ts:145-200 | the shipped object layer equals its per-cell description |
| MapData.CreateOverheadLayer | src/data/mapData.ts:203-214 | the overhead layer is thirty rows of forty empty cells |
| MapData.CreateMapData | src/data/mapData.ts:216-238 | the assembled map is the closed-form map |
| MapData.TheMapWellFormed | src/data/mapData.ts:216-223 | the map is 40 × 30 with every layer of that shape |
| MapData.WaterOnlyInPonds | src/data/mapData.ts:126-139 | ground is water exactly in the two ponds, and walkable everywhere else |
| MapData.SingleHouse | src/data/mapData.ts:195-197 | the only house anchor is the map's house position |
| MapData.BorderOfTrees | src/data/mapData.ts:152-162 | every border cell is a tree except the spawn gap in the top and bottom rows |
| MapData.TreeKeptOverBush | src/data/mapData.ts:168-192 | (32, 6) is listed as a bush but keeps its tree, because `??=` writes only empty cells |
| MapData.HeartIndicesDistinct | src/data/mapData.ts:226-237 | ten hearts, heart i unlocking photo i |
| MapData.EnterableWhenClear | src/data/mapData.ts:21-200 | a non-pond cell with no tree, bush, house or border anchor in its window can be entered |
| MapData.WestHeartWindowsClear | src/data/mapData.ts:227-235 | the windows of the four western hearts hold no blocking anchor |
| MapData.MiddleHeartWindowsClear | src/data/mapData.ts:228-234 | the windows of the hearts at (13,6), (11,24) and (25,12) hold no blocking anchor |
| MapData.EastHeartWindowsClear | src/data/mapData.ts:232-236 | the windows of the hearts at (25,18), (27,22) and (30,10) hold no blocking anchor |
| MapData.KeyWindowsClear | src/data/mapData.ts:224-237 | the spawn, the door cell and every heart have clear windows off the ponds |
| MapData.KeyCellsEnterable | src/data/mapData.ts:224-237 | the spawn, the door cell (19, 5) and every heart can be entered |
| MapData.HouseBlockSolid | src/data/mapData.ts:195-197 | none of the house's nine cells can be entered |
| GameMap.HandleMove | src/components/GameMap/GameMap.tsx:95-109 | nothing while paused; otherwise the first uncollected heart at the cell, none exactly when there is none, and the house reached exactly at the door |
| GameMap.HouseReachedIgnoresCollected | src/components/GameMap/GameMap.tsx:105-108 | reaching the house does not depend on the hearts collected |
| GameMap.CollectedHeartNotReported | src/components/GameMap/GameMap.tsx:99-103 | a collected heart is never reported again |
| GameMap.IsAtHouseDoor | src/components/GameMap/GameMap.tsx:137 | the literal cell (19, 5) is exactly where `checkHouseCollision` puts the door of the map's house |
| GameMap.RangeSubsetSize | src/components/GameMap/GameMap.tsx:138 | a set holding every index below n has at least n elements, so collecting every photo index meets the count test |
| GameMap.AllHeartsCollected | src/components/GameMap/GameMap.tsx:138 | a count test; holding every photo index below the total satisfies it, and it holds trivially for no hearts |
| GameMap.ShowHousePrompt | src/components/GameMap/GameMap.tsx:141-143 | the prompt shows only at (19, 5) with ten indices collected, and shows there once photos 0 to 9 are collected |
| GameMap.ShouldEnterHouse | src/components/GameMap/GameMap.tsx:184-188 | the house is entered only at (19, 5) with ten indices collected, the action held and the game running; and then always when photos 0 to 9 are collected |
| GameMap.DoorMatchesHouse | src/components/GameMap/GameMap.tsx:137 | the hard-coded door (19, 5) is the door of the map's house |
| GameMap.AllCollectedOnTheMap | src/components/GameMap/GameMap.tsx:138 | all hearts are collected exactly when ten indices are |
| GameMap.EnterExactlyWithPrompt | src/components/GameMap/GameMap.tsx:141-188 | the action key enters exactly while the prompt shows and the game runs |
| GameMap.DoorStepWithHeartsMissing | src/components/GameMap/GameMap.tsx:105-171 | with no heart collected, stepping onto the door reaches the house and shows the locked bubble |
| GameMap.BubbleStep | src/components/GameMap/GameMap.tsx:146-172 | the effect always records the current door flag |
| GameMap.BubbleTimeout | src/components/GameMap/GameMap.tsx:167-170 | the hide timer hides the bubble and clears itself |
| GameMap.BubbleInvariantKept | src/components/GameMap/GameMap.tsx:146-172 | a timer runs exactly while the bubble shows, and the bubble shows only at the door |
| GameMap.BubbleOnRisingEdge | src/components/GameMap/GameMap.tsx:147-171 | the bubble appears exactly on arriving at the door with hearts missing and the game running |
| GameMap.LeavingHidesBubble | src/components/GameMap/GameMap.tsx:151-159 | away from the door there is no bubble and no timer |
| GameMap.BubbleStepIdempotent | src/components/GameMap/GameMap.tsx:146-172 | re-running the effect with the same inputs changes nothing |
| GameMap.NoBubbleWhileStaying | src/components/GameMap/GameMap.tsx:147-148 | staying at the door never brings the bubble back |
| GameMap.LockedBubble.constructor | src/components/GameMap/GameMap.tsx:89-91 | no bubble, no timer, not at the door |
| GameMap.LockedBubble.Effect | src/components/GameMap/GameMap.tsx:146-172 | the effect's in-place updates are the bubble step, and keep the invariant |
| GameMap.LockedBubble.TimerFires | src/components/GameMap/GameMap.tsx:167-170 | the timer's update is the timeout, and keeps the invariant |
| App.SelectCharacter | src/App.tsx:24-29 | the character is recorded and one instructions timer scheduled; nothing else changes |
| App.InstructionsTimerFires | src/App.tsx:28 | the screen becomes the instructions, whatever it was |
| App.IsPaused | src/App.tsx:80 | the game is paused exactly while a photo index is on show |
| App.RendersGame | src/App.tsx:73 | the game screen is drawn only on the game screen with a character chosen |
| App.RendersFinale | src/App.tsx:96 | the finale is drawn only on the finale screen with a character chosen |
| App.Continue | src/App.tsx:31-33 | the screen becomes the game; every other field is kept |
| App.CollectHeart | src/App.tsx:35-38 | the index joins the collected set, which gains nothing else, and its photo shows, pausing the game |
| App.CloseModal | src/App.tsx:40-42 | the photo goes and the game runs again; every other field is kept |
| App.ReachHouse | src/App.tsx:44-47 | the finale music plays and the cutscene shows |
| App.CompleteCutscene | src/App.tsx:49-51 | the screen becomes the finale; every other field is kept |
| App.Restart | src/App.tsx:53-59 | every session field back to its first value; scheduled timers are kept |
| App.CollectIdempotent | src/App.tsx:35-38 | collecting a heart twice is collecting it once |
| App.CollectCount | src/App.tsx:35-38 | a new heart raises the count by one; a collected one leaves the set |
| App.CollectAllSet | src/App.tsx:35-38 | collecting a list leaves exactly the old and the listed indices |
| App.CollectAllCount | src/App.tsx:35-38 | collecting distinct new indices raises the count by their number |
| App.TenHeartsCollected | src/App.tsx:35-38 | collecting photos 0 to 9 in a fresh session leaves ten collected |
| App.SelectThenPlay | src/App.tsx:24-33 | select, timer, continue: the game renders with the character, unpaused |
| App.HouseThenFinale | src/App.tsx:44-51 | house then cutscene end: the finale renders with the finale music |
| App.AppSession.constructor | src/App.tsx:15-19 | the session starts on the select screen with nothing chosen or collected |
| App.AppSession.HandleCharacterSelect | src/App.tsx:24-29 | the handler's updates are the select transition |
| App.AppSession.InstructionsTimerFired | src/App.tsx:28 | the timer's update is the instructions transition |
| App.AppSession.HandleInstructionsContinue | src/App.tsx:31-33 | the handler's update is the continue transition |
| App.AppSession.HandleHeartCollected | src/App.tsx:35-38 | the handler's updates are the collect transition |
| App.AppSession.HandleModalClose | src/App.tsx:40-42 | the handler's update is the close transition |
| App.AppSession.HandleHouseReached | src/App.tsx:44-47 | the handler's updates are the house transition |
| App.AppSession.HandleCutsceneComplete | src/App.tsx:49-51 | the handler's update is the finale transition |
| App.AppSession.HandleRestart | src/App.tsx:53-59 | the handler's updates are the restart transition |
| PlayerSelect.LowerChar | src/components/PlayerSelect/PlayerSelectScreen.tsx:41 | upper-case ASCII letters map to lower case, everything else is kept |
| PlayerSelect.ToLower | src/components/PlayerSelect/PlayerSelectScreen.tsx:41 | lower-casing keeps the length and works character by character |
| PlayerSelect.ToLowerIdempotent | src/components/PlayerSelect/PlayerSelectScreen.tsx:41 | lower-casing twice is lower-casing once |
| PlayerSelect.KeyMeaning | src/components/PlayerSelect/PlayerSelectScreen.tsx:41-58 | a highlight key always names one of the two cards |
| PlayerSelect.KeyMeaningIgnoresCase | src/components/PlayerSelect/PlayerSelectScreen.tsx:41 | a key means the same as its lower-case form |
| PlayerSelect.KeyExamples | src/components/PlayerSelect/PlayerSelectScreen.tsx:41-58 | ArrowLeft and ArrowRight highlight, A and b pick, Enter and space pick the highlighted card, other keys do nothing |
| PlayerSelect.HandleSelect | src/components/PlayerSelect/PlayerSelectScreen.tsx:26-35 | ignored after a pick; otherwise picks the character and schedules its callback |
| PlayerSelect.KeyDown | src/components/PlayerSelect/PlayerSelectScreen.tsx:38-59 | after a pick every key is ignored |
| PlayerSelect.TimerFires | src/components/PlayerSelect/PlayerSelectScreen.tsx:32-34 | the oldest scheduled callback runs and nothing else changes |
| PlayerSelect.SelectInvariantKept | src/components/PlayerSelect/PlayerSelectScreen.tsx:21-58 | the highlight stays on a card, and a callback is pending only for the one pick |
| PlayerSelect.FirstPickFinal | src/components/PlayerSelect/PlayerSelectScreen.tsx:27-39 | no key, select call or timer changes a pick once made |
| PlayerSelect.PickKeys | src/components/PlayerSelect/PlayerSelectScreen.tsx:41-58 | on a fresh screen each key class does its one thing and schedules exactly that callback |
| PlayerSelect.PlayerSelectScreen.constructor | src/components/PlayerSelect/PlayerSelectScreen.tsx:21-22 | starts on the first card with nothing picked |
| PlayerSelect.PlayerSelectScreen.Select | src/components/PlayerSelect/PlayerSelectScreen.tsx:26-35 | the handler's updates are the select step |
| PlayerSelect.PlayerSelectScreen.OnKeyDown | src/components/PlayerSelect/PlayerSelectScreen.tsx:38-59 | the listener's updates are the key step |
| PlayerSelect.PlayerSelectScreen.OnSelectTimer | src/components/PlayerSelect/PlayerSelectScreen.tsx:32-34 | the timer hands the picked character to the session |
| SecretGallery.GoNext | src/components/SecretGallery/SecretGallery.tsx:42-44 | the following photo, wrapping from the last to the first |
| SecretGallery.GoPrev | src/components/SecretGallery/SecretGallery.tsx:46-48 | the preceding photo, wrapping from the first to the last |
| SecretGallery.PrevUndoesNext | src/components/SecretGallery/SecretGallery.tsx:42-48 | each direction undoes the other |
| SecretGallery.NextTimes | src/components/SecretGallery/SecretGallery.tsx:42-44 | any number of next presses stays on a photo |
| SecretGallery.NextTimesAdvances | src/components/SecretGallery/SecretGallery.tsx:42-44 | k presses advance by k, wrapping once past the end |
| SecretGallery.FullCycle | src/components/SecretGallery/SecretGallery.tsx:42-44 | a full round returns to the start and not before |
| SecretGallery.PhotoSrc | src/components/SecretGallery/SecretGallery.tsx:21-22 | the name is the base URL, `photos/photo-`, a number, `.jpg` |
| SecretGallery.PhotoNumber | src/components/SecretGallery/SecretGallery.tsx:22 | photos 1 to 9 get a leading zero, later ones none |
| SecretGallery.PhotoNumberExamples | src/components/SecretGallery/SecretGallery.tsx:22 | the first photo is 01, the tenth 10 |
| SecretGallery.PhotoSrcSameNumber | src/components/SecretGallery/SecretGallery.tsx:21-22 | two equal file names carry the same padded number |
| SecretGallery.PaddedNumberInjective | src/components/SecretGallery/SecretGallery.tsx:22 | `String(m).padStart(2, '0')` keeps different positive numbers apart |
| SecretGallery.PhotoSrcInjective | src/components/SecretGallery/SecretGallery.tsx:21-22 | different photos never share a file name |
| SecretGallery.ShowIndex | src/components/SecretGallery/SecretGallery.tsx:24-27 | loading is set exactly when the index changes |
| SecretGallery.SetOpen | src/components/SecretGallery/SecretGallery.tsx:30-40 | opening shows the first photo; closing keeps the index; no change, no effect |
| SecretGallery.Next | src/components/SecretGallery/SecretGallery.tsx:42-44 | the next button moves to the following photo |
| SecretGallery.Prev | src/components/SecretGallery/SecretGallery.tsx:46-48 | the previous button moves to the preceding photo |
| SecretGallery.PhotoLoaded | src/components/SecretGallery/SecretGallery.tsx:105 | loading a photo hides the loader only |
| SecretGallery.Click | src/components/SecretGallery/SecretGallery.tsx:71-117 | only a click whose target is the dialog itself asks to close, and it changes nothing; an arrow button steps; a click elsewhere in the modal does nothing; nothing happens while closed |
| SecretGallery.ArrowClickMatchesKey | src/components/SecretGallery/SecretGallery.tsx:58-117 | clicking an arrow button has the same effect as the matching arrow key |
| SecretGallery.Key | src/components/SecretGallery/SecretGallery.tsx:51-69 | closed: nothing; Escape asks to close and only Escape does; arrows step; other keys nothing |
| SecretGallery.GalleryInvariantKept | src/components/SecretGallery/SecretGallery.tsx:17-69 | the index always names a photo |
| SecretGallery.MovingShowsLoader | src/components/SecretGallery/SecretGallery.tsx:24-27 | with two or more photos every step shows the loader until the photo loads |
| SecretGallery.SinglePhotoKeepsLoaded | src/components/SecretGallery/SecretGallery.tsx:24-48 | with one photo stepping changes nothing, the loader included |
| SecretGallery.ReopenStartsAtFirst | src/components/SecretGallery/SecretGallery.tsx:34-36 | closing and reopening starts from the first photo |
| SecretGallery.Gallery.constructor | src/components/SecretGallery/SecretGallery.tsx:14-18 | closed, on photo 0, loading |
| SecretGallery.Gallery.SetIndex | src/components/SecretGallery/SecretGallery.tsx:24-27 | the index update with its loading effect |
| SecretGallery.Gallery.OnOpenChange | src/components/SecretGallery/SecretGallery.tsx:30-40 | the effect's updates are the open step, and keep the invariant |
| SecretGallery.Gallery.OnNext | src/components/SecretGallery/SecretGallery.tsx:42-44 | the callback's update is the next step, and keeps the invariant |
| SecretGallery.Gallery.OnPrev | src/components/SecretGallery/SecretGallery.tsx:46-48 | the callback's update is the previous step, and keeps the invariant |
| SecretGallery.Gallery.OnPhotoLoaded | src/components/SecretGallery/SecretGallery.tsx:105 | the load handler's update |
| SecretGallery.Gallery.OnClick | src/components/SecretGallery/SecretGallery.tsx:71-117 | the click's updates and close request are the click step |
| SecretGallery.Gallery.OnKey | src/components/SecretGallery/SecretGallery.tsx:54-65 | the listener's updates and close request are the key step |
| Decimal.NatToString | src/components/SecretGallery/SecretGallery.tsx:22 | `String(n)`: digits only, no leading zero, one digit exactly below ten |
| Decimal.ValueOfNatToString | src/components/SecretGallery/SecretGallery.tsx:22 | reading the digits back gives the number |
| Decimal.NatToStringInjective | src/components/GameMap/TileRenderer.tsx:73 | different numbers print differently |
| Decimal.PadStartZero | src/components/SecretGallery/SecretGallery.tsx:22 | `padStart(w, '0')`: the string ends the result, preceded only by zeros, to width w |
| Decimal.NoLeadingZero | src/components/SecretGallery/SecretGallery.tsx:22 | a positive number never prints with a leading zero |
| Decimal.PadStartZeroInjective | src/components/SecretGallery/SecretGallery.tsx:22 | padding loses nothing for strings without a leading zero |

## Left out

- Rendering: the UI is not modelled. This covers the sprites, CSS, the `Character` component, the heart counter, the collectible-hearts overlay, the address sign and the prompt and bubble text. Only the decisions behind them are modelled.
- Audio, assets and the music toggle are not modelled; only which track is current is kept.
- Browser events and React scheduling are not modelled. Timers (`setTimeout`), `requestAnimationFrame`, `performance.now` and listener registration become explicit events. Their timing is a parameter.
- React batching and stale closures are not modelled. An example is two keydowns handled before a re-render, which could each see "nothing selected". Each handler is modelled as acting on the latest state.
- Cleanup on unmount is not modelled: the controller cancelling its frame, and the map and gallery clearing their timers.
- The jump, the secret-area trigger by water, the password modal, wildlife, fireflies and the title screen decorations are outside the modelled core.
- The street labels are not modelled. The map data ships none.
- The dialog and gallery content are not modelled. This covers `showModal` and `close` on the dialog, the `isMobile` layout, the loader text and the photo modal's content.
- Merging the keyboard state with the virtual pad into one input is not modelled. In the source, the controller and the game screen read only the keyboard hook, and the virtual state is read by no one in the modelled core.
- CharacterController.Controller.Tick: elapsed time is a natural number. A frame timestamp earlier than the step's start, which would give a negative elapsed time, is not modelled. The `onMove` callback is not called: `Tick` returns the reported cell instead.
- Camera, TileRenderer: the tile size is required to be positive. A zero tile size would divide by zero in the source.
- App: every handler may fire on every screen. In `App.tsx` each handler is wired only into its own screen, so for example restart is offered only on the finale, which is reached only after the instructions timer has fired. The model does not tie handlers to screens.
- SecretGallery.GoNext: the photo count is required to be positive. A count of zero gives `NaN` in the source.
- SecretGallery.GoPrev: the photo count is required to be positive, for the same reason.
- PlayerSelect.LowerChar: only the ASCII letters are lower-cased. That is all the keys on this screen need, while `toLowerCase` folds all of Unicode.
- The sprite lookup and the renderer skipping a tile whose sprite is missing (`!spriteSrc`) are not modelled. The asset table is not part of this model.
