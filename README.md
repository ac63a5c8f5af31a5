# Adam's Adventure — a verified model of the game's rules

Adam's Adventure is a side-scrolling game built on Box2D (physics) and SFML
(window, drawing, sound). An astronaut runs right along a corridor between two
ground strips, while obstacles and coin rows are streamed in ahead of the camera.
The player can hop up or drop down with the arrow keys. Collecting coins raises
the score. Leaving the corridor or falling behind the camera loses the game, and
reaching x = 574 wins it.

This project models the rules underneath the physics and the drawing:

- **The unit converter** (`converter.dfy`, module `Converter`):
  - metres and pixels at 32 pixels per metre;
  - the vertical flip against a 900-pixel reference height.

  All of it is exact over the reals.
- **The entity registry** (`registry.dfy`, module `Registry`). `entityList` is a
  sequence of records (type tag, body handle, width, height). This module gives
  pure descriptions of the scans over the registry:
  - the coin-contact scan of `BeginContact`;
  - the erase of the pending coin;
  - the index-based behind-camera prune, including the record it skips after
    each erase;
  - the search for the rightmost body.
- **The world builder's geometry** (`layout.dfy`, module `Layout`). Each `create*`
  call is a function that returns the records it appends, in order. This covers
  the initial field of `Game()`, the obstacles with their coin rows, the
  staircase of a bottom ground strip, the ten-iteration streaming batch and the
  closing scene. The `int` parameters of `createObstacles` and `createBlockGroup`
  truncate their float arguments toward zero (`Trunc`).
- **The game object** (`engine.dfy`, class `Engine.Game`). It holds `entityList`,
  the body positions, the score, the `bodyToBeDestroy` slot, the character
  handle, and the velocity, gravity and coin-sound effects as recorded fields.
  - Every `create*` method is a method with the source's loops. It is proved to
    append fresh bodies realising exactly the placements the `Layout` function
    describes.
  - `BeginContact`, the destroy pass of `update` and the prune are loops over
    the registry. Each is proved against the `Registry` functions.
- **The main loop** (`mainloop.dfy`, class `MainLoop.Session`). It holds `main`'s
  flags (`moveRight`, `isReady`, `nearEnding`, `isWon`, `isLost`), the view
  centre, the score text and the victory sound. It models one frame in the
  source's order: events, prune, rightmost x, streaming or closing scene, drift,
  loss and win checks, camera, banner, then the physics step. The loop runs over
  a sequence of frames until one closes the window.

Body handles are natural numbers handed out consecutively. The table of
positions is indexed by handle, so a handle's index is also its creation order.
Every registry invariant is kept:

- handles are unique;
- every record has a position;
- no record refers to a destroyed body;
- the character is the one CHARACTER record.

The physics engine, the window, the random device and the sound status are
inputs. Each frame brings:

- its events;
- its three random bits per streaming iteration;
- the character's position after the physics step;
- the contacts the step reports;
- whether the sounds are still playing.

## Model

| member | source | states |
|---|---|---|
| Converter.PixelToMeter | AdamAdventure.cpp:24-28 | the metre value times 32 gives back the pixel value |
| Converter.MeterToPixel | AdamAdventure.cpp:30-34 | the pixel value divided by 32 gives back the metre value |
| Converter.SfmlToBox2dY | AdamAdventure.cpp:36-39 | the flipped y and the input y add up to 900/32 = 28.125 |
| Converter.Box2dToSfmlY | AdamAdventure.cpp:41-44 | the flipped y and the input y add up to 28.125 |
| Converter.ReferenceHeightInMeters | AdamAdventure.cpp:36-39 | the 900-pixel reference height is exactly 28.125 metres |
| Converter.PixelMeterRoundTrip | AdamAdventure.cpp:24-34 | pixel-to-metre and metre-to-pixel are inverse to each other, in both orders |
| Converter.ConversionsMonotonic | AdamAdventure.cpp:24-34 | both conversions preserve order |
| Converter.VerticalFlipsInvert | AdamAdventure.cpp:36-44 | the two flips are the same function, and each undoes the other |
| Converter.VerticalFlipReversesOrder | AdamAdventure.cpp:41-44 | a higher body in the world is lower on screen |
| Registry.CoinHitsCountsTouchedCoins | AdamAdventure.cpp:130-137 | with unique handles, the contact scan adds exactly the number of coin bodies among the two touching bodies |
| Registry.CoinHitsAtMostTwo | AdamAdventure.cpp:126-137 | one contact adds at most two points, and at most one when both fixtures share a body |
| Registry.LastCoinHitSpec | AdamAdventure.cpp:130-137 | the pending slot is written exactly when the score moves (no coin hit leaves it alone), and then it holds the last matching coin's body |
| Registry.FirstIndexOf | AdamAdventure.cpp:429-433 | the result is the first index whose body is the pending body, or the length when no record has it |
| Registry.RemoveFirstSpec | AdamAdventure.cpp:429-444 | erasing the pending body removes exactly one record when it is registered and nothing otherwise; the others keep their order and handles stay unique |
| Registry.PruneSplits | AdamAdventure.cpp:657-664 | the prune splits the list into survivors, kept in their original order, and destroyed bodies, each of which belonged to a record behind the camera |
| Registry.PruneDisjoint | AdamAdventure.cpp:657-664 | the survivors keep unique handles, and none of them refers to a destroyed body |
| Registry.PruneKeepsAhead | AdamAdventure.cpp:659 | no record within 62.5 m of the camera is removed, and the CHARACTER record never is |
| Registry.PruneSkipsSuccessor | AdamAdventure.cpp:657-664 | when two neighbours are both behind the camera, the first is destroyed and the second, which slid into its index, survives unexamined |
| Registry.KeptThenAhead | AdamAdventure.cpp:657-664 | what one pass lets slip is exactly what a full filter would still remove: filtering the survivors gives the full filter's result |
| Registry.KeptExactWithoutNeighbours | AdamAdventure.cpp:657-664 | without two neighbouring records behind the camera, the pass removes exactly the records behind it |
| Registry.LargestPosX | AdamAdventure.cpp:666-674 | the result is at least 0 and at least every record's x, and it is either 0 or some record's x |
| Layout.Trunc | AdamAdventure.cpp:694-705 | the float-to-int conversion at the `int` parameters truncates toward zero (floor for non-negative, ceiling for negative values) |
| Layout.TruncShift | AdamAdventure.cpp:694-705 | adding a whole number before truncating a non-negative anchor equals adding it after |
| Layout.ObstaclesBlocks | AdamAdventure.cpp:228-250 | createObstacles first appends a 12x2 block at (x+5, y), then a 2x2 capstone at (x+10, y+2) on top or (x+10, y-2) below; everything after them is a coin |
| Layout.ObstaclesCoins | AdamAdventure.cpp:252-274 | coins appear iff the obstacle is a bottom one at 23, 1, 14 or 11; then there are five 1x1 coins at x+2i, two below the obstacle for 23 and 11 and two above it for 1 and 14 |
| Layout.CoinRowCount | AdamAdventure.cpp:228-274 | createObstacles appends exactly two stone blocks, and as many coins as its coin row holds |
| Layout.GroundStripGeometry | AdamAdventure.cpp:298-323 | a top strip appends only the GROUND record; a bottom strip first appends five 4x2 blocks at px-8+4i with heights 6, 8, 10, 8, 6 whatever py is, then the GROUND record last |
| Layout.InitialLayoutFacts | AdamAdventure.cpp:201-224 | Game() builds 15 records: two grounds, twelve stone blocks, no coin, and the character at (-9, 10) as the eighth record and the only CHARACTER |
| Layout.FieldBlocksGeometry | AdamAdventure.cpp:207-222 | the constructor's loop places block groups at (10, 18), (10, 7), (20, 15), (20, 10) and (30, 12): the 6.978 + 6 of the last round truncates to 12 |
| Layout.MidPairOneCoinRow | AdamAdventure.cpp:695-704 | the obstacles at 14 and 11 have opposite flags (fixed to bottom/top at i = 9), so the middle pair carries exactly one row of five coins |
| Layout.IterationCounts | AdamAdventure.cpp:691-705 | one iteration appends eight stone blocks and five coins per bottom obstacle, and no character |
| Layout.IterationCoins | AdamAdventure.cpp:691-705 | one iteration appends five coins for the middle pair plus five for each bottom obstacle at 23 and at 1 |
| Layout.BatchCounts | AdamAdventure.cpp:680-706 | a batch of n iterations appends 8n stone blocks, no ground, no character, and 5(n + number of bottom draws at 23 and 1) coins |
| Layout.BatchColumnsAdvance | AdamAdventure.cpp:680-694 | from a non-negative largest x, iteration columns are non-negative and exactly 17 m apart |
| Layout.EndingGeometry | AdamAdventure.cpp:708-715 | the ending appends nine records: blocks at heights 23 and 1, the top ground 20 m right of the largest x, then the bottom staircase and the bottom ground, and no character |
| Engine.ContactHitsBound | AdamAdventure.cpp:126-137 | one physics step adds at most two points per contact it reports |
| Engine.PendingAfterIsCoin | AdamAdventure.cpp:130-137 | from an empty slot, the step leaves the slot empty iff the score did not move; otherwise the slot names a registered coin |
| Engine.Game.constructor | AdamAdventure.cpp:185-225 | the registry is exactly the initial layout on fresh bodies, in creation order, with the character as record 7; score 0, empty slot, gravity (0, -10) |
| Engine.Game.CreateCorridor | AdamAdventure.cpp:201-202 | appends the top ground strip at (0, 0), then the bottom strip at (0, 25) with its staircase |
| Engine.Game.CreatePlayfield | AdamAdventure.cpp:203-224 | appends the character at (-9, 10), which becomes the character body, then the slabs and block groups of the field |
| Engine.Game.CreateField | AdamAdventure.cpp:204-224 | appends the lower slab, the five block groups of the loop (18 - 3i, 7 + 3i, and 6.978 + 6 truncated to 12) and the upper slab |
| Engine.Game.CreateFieldRound | AdamAdventure.cpp:207-222 | round i appends the group at 18 - 3i (6.978 + 3i truncated when i = 2), then the group at 7 + 3i only while i < 2 |
| Engine.Game.Spawn | AdamAdventure.cpp:328-355 | a new body gets the next handle and the given position, and its record is pushed at the end |
| Engine.Game.CreateStoneBlock | AdamAdventure.cpp:328-355 | appends one STONE_BLOCK record on a fresh body at the given position, and returns that body: the next handle, held by the last record |
| Engine.Game.CreateCoin | AdamAdventure.cpp:391-421 | appends one COIN record on a fresh body at the given position, and returns that body: the next handle, held by the last record |
| Engine.Game.CreateCharacter | AdamAdventure.cpp:357-389 | appends one CHARACTER record on a fresh body, and that body, the next handle, becomes the character and is returned |
| Engine.Game.CreateGround | AdamAdventure.cpp:284-326 | the ground body is allocated first (the returned handle is the next one before the call) and its record, on that body with the given size, is appended last, after the staircase of a bottom strip: together exactly GroundStrip |
| Engine.Game.CreateStairs | AdamAdventure.cpp:301-318 | the staircase loop appends exactly the five stone blocks of Stairs, whose heights follow the running dynamicPositionY |
| Engine.Game.CreateBlockGroup | AdamAdventure.cpp:278-282 | appends one 10x2 block ten metres right of x |
| Engine.Game.CreateObstacles | AdamAdventure.cpp:228-275 | appends exactly Obstacles(x, y, isTop) on fresh bodies |
| Engine.Game.CreateObstacleBlocks | AdamAdventure.cpp:230-250 | the first loop appends the platform, then the capstone, both stone blocks of Obstacles |
| Engine.Game.CreateCoinRow | AdamAdventure.cpp:252-274 | the second loop appends exactly the coin row: five coins for a bottom obstacle at a coin height, nothing otherwise |
| Engine.Game.CreateIteration | AdamAdventure.cpp:691-705 | appends the four obstacles of iteration i at 23, 14, 11 and 1, with truncated x and the iteration's draws |
| Engine.Game.CreateUpperPair | AdamAdventure.cpp:694-702 | appends the obstacle at 23 with its own draw, then the one at 14 with the middle draw, or bottom at i = 9 |
| Engine.Game.CreateLowerPair | AdamAdventure.cpp:695-705 | appends the obstacle at 11 with the opposite of the middle draw, or top at i = 9, then the one at 1 with its own draw |
| Engine.Game.CreateBatch | AdamAdventure.cpp:680-706 | the loop moves the anchor (-2 at i = 0 from 90 on, else +5) and appends the whole ten-iteration batch |
| Engine.Game.StreamBatch | AdamAdventure.cpp:677-707 | a streaming batch appends exactly Batch(largestPosX, draws) and keeps the registry invariants |
| Engine.Game.CreateEnding | AdamAdventure.cpp:708-715 | the closing scene appends exactly Ending(largestPosX) and keeps the registry invariants |
| Engine.Game.CreateEndingBlocks | AdamAdventure.cpp:711-712 | appends the block groups at heights 23 and 1, from the largest x minus 10, truncated |
| Engine.Game.CreateEndingGrounds | AdamAdventure.cpp:713-714 | appends the top ground strip, then the bottom strip with its staircase, 20 m right of the largest x |
| Engine.Game.BeginContact | AdamAdventure.cpp:123-138 | the score rises by the coin hits, the slot takes the last hit or stays as it was, and the registry is unchanged |
| Engine.Game.DestroyPending | AdamAdventure.cpp:429-444 | a registered pending body: its first record is erased, it is destroyed, the slot is emptied, and the coin sound starts unless already playing; an unregistered one: nothing changes |
| Engine.Game.PruneBehind | AdamAdventure.cpp:657-664 | the registry becomes Kept (including the skip) and the destroyed log grows by Pruned, in order, with the invariants kept |
| Engine.Game.Update | AdamAdventure.cpp:423-444 | the step moves only the character, the score rises by the step's coin hits, and the last coin hit (if registered) is erased |
| MainLoop.ReactAllOpen | AdamAdventure.cpp:605-614 | the window stays open iff it was open and no polled event closes it |
| MainLoop.ReactAllReady | AdamAdventure.cpp:605-626 | the player is ready iff they were ready already, or the window was open and some event before any close presses Up |
| MainLoop.ReactAllStopsAtClose | AdamAdventure.cpp:605-614 | once an event closes the window, polling delivers nothing more: the later events of the frame change nothing |
| MainLoop.ReactAllQuiet | AdamAdventure.cpp:605-654 | events other than arrow presses and releases leave direction, velocity and gravity unchanged |
| MainLoop.ReactAllLastArrow | AdamAdventure.cpp:605-653 | in an open window, with no close before it, the character moves right iff the last arrow event was a release |
| MainLoop.ReactAllLastPress | AdamAdventure.cpp:605-633 | in an open window, with no close before it, velocity and gravity are those set by the last arrow press: (0, 10) and (0, 200) for Up, (0, -10) and (0, -200) for Down |
| MainLoop.FramesRunBounds | AdamAdventure.cpp:600-614 | the loop runs at most the frames given; it stops early only after a frame that closes the window, and no earlier frame closed it |
| MainLoop.Session.constructor | AdamAdventure.cpp:543-570 | the initial world, the view centre (width/2 - 450, height/2 - 160 + 200), moveRight set, the other flags and the banner cleared, score 0, both sound counters 0, no body destroyed and no closing scene built; the screen size is the one given, the velocity (0, 0) and the gravity (0, -10) |
| MainLoop.Session.HandleEvents | AdamAdventure.cpp:605-654 | the control state after the event loop is the fold of React over the polled events, where a closed window delivers nothing more |
| MainLoop.Session.StageScenery | AdamAdventure.cpp:656-715 | prune, the largest x of the survivors, then a batch when due, else the ending once when the character reaches 500 (nearEnding set, one more closing scene counted), else nothing; the result is what the physics step will see |
| MainLoop.Session.AddScenery | AdamAdventure.cpp:677-715 | a batch exactly when the rightmost body is within 720 px of the camera and the character short of 500; otherwise the ending only while nearEnding is unset, setting it and counting one closing scene; otherwise nothing; the character does not move |
| MainLoop.Session.Drift | AdamAdventure.cpp:717-727 | velocity (10, 0) only while moving right and neither won nor lost; once over, velocity 0 and gravity (0, -10) |
| MainLoop.Session.Judge | AdamAdventure.cpp:729-771 | isLost and isWon are only ever set, independently of each other; the victory sound starts only while not yet won; the camera moves 4.3 only while ready and playing; the banner shows the last verdict or the score |
| MainLoop.Session.CheckVerdicts | AdamAdventure.cpp:729-757 | the loss tests set isLost and the loss text, the win test sets isWon and the win text with the score, and the victory sound starts only while not yet won |
| MainLoop.Session.FollowCamera | AdamAdventure.cpp:759-771 | the camera moves 4.3 px only while ready and neither won nor lost, and the running score is shown only while playing |
| MainLoop.Session.Survey | AdamAdventure.cpp:605-715 | the controls are the fold of the frame's events; the physics step will see the registry after the scenery, with the character not yet moved; once nearEnding is set it stays set and no further closing scene is built; the destroyed log grows by the pruned bodies |
| MainLoop.Session.Settle | AdamAdventure.cpp:717-773 | the drift, then the verdicts, camera and banner, all computed on the character's pre-step position |
| MainLoop.Session.Prelude | AdamAdventure.cpp:605-771 | everything of a frame before the physics step, composed in the source's order; nearEnding never goes back and no closing scene is built after it is set; the destroyed log grows by the bodies pruned behind the camera before it moved |
| MainLoop.Session.Physics | AdamAdventure.cpp:778 | the character moves, the score rises by the coin hits, and the collected coin is erased with its sound, and its body is appended to the destroyed log |
| MainLoop.Session.Step | AdamAdventure.cpp:600-779 | one frame: the controls, verdicts, camera, banner and drift as functions of the state before the frame; the score and the collected coin in terms of the registry the step sees (`staged`); the destroyed log grows by the pruned bodies, then by the collected coin; nearEnding never goes back, and no closing scene is built once it is set |
| MainLoop.Session.Tick | AdamAdventure.cpp:600-779 | a frame started in an open window leaves it open iff none of its events closes it; the verdicts, nearEnding and the score never go back, and the destroyed log only grows |
| MainLoop.Session.Run | AdamAdventure.cpp:600-780 | the loop plays frames until one closes the window; the verdicts, nearEnding and the score never go back, the destroyed log only grows, and at most one closing scene is built over the session |

## Left out

- Drawing: the render loop of `Game::update`, textures, fonts, the background sprite and `radToDeg` only produce pixels. They are not part of this model.
- Box2D:
  - the physics step, fixtures, densities, friction and contact detection are library code;
  - each frame supplies the character's new position and the contacts the step reports;
  - every other body keeps its created position, as the source never moves them;
  - `EndContact`, `PreSolve` and `PostSolve` are empty and are not modelled.
- Randomness: the three `dist(rd)` draws of each iteration are a `Draw` input, and every frame supplies ten of them. A frame that streams nothing ignores its draws.
- Sound: playback is external. The playing status is an input, and each start of the coin or victory sound is counted.
- The window: the desktop size is a constructor parameter, events come from the frame, and `setFramerateLimit` and `display` are not modelled. The text's position and size are left out, and the banner keeps only its content.
- Floating point: positions, the camera and the converter are exact reals, so float rounding (for example of the 4.3-pixel camera steps) is not modelled. Truncation to `int` is modelled where the source converts.
- Engine.Game.BeginContact: the score is an unbounded `nat`. The 32-bit overflow of `currentScore` after about two billion coins is not modelled.
- Engine.Game.Spawn: every body gets a fresh handle. The source compares raw pointers, so Box2D could reuse a destroyed body's address for a new one. With the slot always empty between frames this cannot cause a false match, and it is not modelled.
- Engine.Game.Update: one step may report several coin contacts, but the single `bodyToBeDestroy` slot keeps only the last one. Earlier coins stay registered although they were scored. The model keeps this behaviour as the source has it.
- MainLoop.Session.Step: does not restate the scenery appended before the step. That is stated by `StageScenery`. So the score and the collected coin are stated against `staged`, the registry the step sees, not against the registry before the frame.
- MainLoop.Session.Tick: states only what the loop needs from a frame: the window, the verdicts, nearEnding, the score, and that the destroyed log only grows. The rest of the frame is stated by `Step`, which it calls.
- MainLoop.Session.Survey: does not restate the scenery appended either. That is stated by `StageScenery`, which it calls.
- MainLoop.Session.Prelude: does not restate the scenery appended either. It states the controls, verdicts and camera.
- MainLoop.Session.Run: states the frame count, that verdicts, nearEnding and score never go back, that the closing scene is built at most once, and that the destroyed log only grows. The exact contents of each frame's registry and log are stated by `Step` and are not folded over the session.
- The accessors `getMyWorld`, `getCharacter`, `getCoin`, `getGroundWidth` and `getGroundHeight` are plain reads. They are not modelled, except for the constant they return.
