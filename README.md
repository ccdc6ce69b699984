# dropit game session, modelled in Dafny

dropit is a one-screen browser game. A box swings on a pendulum. The player presses Space to drop copies of it and tries to stack them up to a finish line before a score, counting down from 3000, runs out. All the logic lives in `libs/gameLogic.ts`. Module-level variables (`scorePoint`, `gameState`, `boxState`, `currentKeyCode`, the `droppedBoxes` array) are changed by a physics engine's collision-start callback, by the keydown and keyup listeners, and by a 100 ms interval that refreshes the score text.

This project models that session state machine:

- `GameSpec.dfy` (module `GameSpec`) holds the entities as datatypes. Bodies are records in a sequence, and a body's identity is its index. The module also has one pure transition function per event: `CollidePair`/`CollideAll`, `KeyDown`, `KeyUp`, `Tick`, `EndRound`, `AddBox` and `RemoveDropped`.
- `GameLogic.dfy` (module `GameLogic`) holds class `Session`, whose fields are the source's variables. Each handler is a method that updates them in place, with the source's loops. The body of the collision loop is its own method, `HandlePair`. Each method is proved to move `Snapshot()` exactly as the matching `GameSpec` function moves its value.
- `GameProperties.dfy` (module `GameProperties`) proves what the game promises about those functions. This covers the two collision rules, the score of a whole event, the end of a round, the clamp at the refresh tick, and the debounce. It also has two consequences of the code as written (see below) and a full won round.

Events are explicit inputs:

- A collision-start event is a sequence of `Pair(bodyA, bodyB)` body indices.
- A key press is its key code plus the pendulum box's current position.
- A timer tick is a method call.

Labels `'box'`, `'ground'` and `'finishLine'` become `Box`, `Ground` and `FinishLine`. `Other` stands for the engine's default label, which the borders and the pendulum box carry. The label is the record field `tag`, because `label` is a Dafny keyword. The collision categories are box 1, scene 2 and ground 3. A body created without a mask gets the engine's default mask, modelled as 0xFFFFFFFF. Panels are booleans (`flex` = shown). The score text is the number last written into it: `None` until the first tick.

Behaviour of the code that the model keeps as written:

- `clearBoxes` takes the dropped boxes out of the world but never empties `droppedBoxes`. Starting a round also leaves `boxState` as it was (`StartRound`).
- Starting a round does not set the debounce key. When the box state is idle, a second Space press with no release in between therefore drops a box at once (`MenuSpaceNotDebounced`). Only the drop itself is debounced (`SpawnIsDebounced`).
- A round can end while a dropped box is still moving. That box is still in the world, and a landing while the menu is shown makes the box idle again, because the collision handler has no game-state guard. But if Space is pressed before that box lands, the next round is stuck. That round starts with the box state `Moving` and no box left in the world. No key press and no collision among bodies in the world can then make the box idle or lower the score (`RoundStartsStuck`).
- Within one event, the score can go below zero with no lower bound and no game-state guard (`EventScore`). It is clamped to 0 only at the next refresh tick, and only during a round (`TickClampsAndEnds`). So after the tick that follows N landings, the score variable is max(0, 3000 − 100·N) (`TickAfterLandings`). The score text is written before the clamp, so the text written at that tick shows the unclamped 3000 − 100·N, which can be negative. The text shows 0 only from the next tick on.
- Every pair runs both rules, even after an earlier pair of the same event has ended the round. `gameEnd` then runs again and picks win or lose from the score at that moment.

## Model

| member | source | states |
|---|---|---|
| GameSpec.SceneBodies | libs/gameLogic.ts:52-102 | the static scene has five bodies with the source's labels, categories, masks, positions and sizes; the pendulum box is the fourth and carries the default label |
| GameSpec.Initial | libs/gameLogic.ts:36-50 | at page load the score is 3000, the game is in the main menu with the box idle, no key is held, the dropped-box list is empty, and the state is well formed |
| GameSpec.CollidePair | libs/gameLogic.ts:128-146 | one pair of the collision loop keeps the number of bodies and the dropped-box list. It is built from helpers that carry no ensures: LandsBox and ReachesFinish are the two rule conditions (lines 130-131, 141-142), and Land and Settle are the relabelling, recategorising, penalty and idle of lines 132-137. Their properties are in the LandingPair, FinishPair, NeutralPair and PairBoxPhase rows |
| GameSpec.CollideAll | libs/gameLogic.ts:125-147 | a whole collision-start event keeps the number of bodies and the dropped-box list, so every dropped-box index still names a body |
| GameSpec.AddBox | libs/gameLogic.ts:191-207 | appending a created box keeps every dropped-box index naming a body. The body it appends is NewBox (lines 192-203), which carries no ensures; its label, category 1, mask 3 and position are stated in the SpawnBox row and in CreateBoxPrefab's ensures |
| GameSpec.RemoveFromWorld | libs/gameLogic.ts:209-213 | the clearBoxes loop keeps the number of bodies |
| GameSpec.RemoveDropped | libs/gameLogic.ts:209-213 | clearing keeps the dropped-box list itself unchanged and well formed |
| GameSpec.KeyDown | libs/gameLogic.ts:164-184 | a key press keeps every dropped-box index naming a body |
| GameLogic.Session.constructor | libs/gameLogic.ts:36-102 | the session starts in the initial state, with the static scene in the world |
| GameLogic.Session.GameEnd | libs/gameLogic.ts:150-161 | the session moves exactly as EndRound describes |
| GameLogic.Session.RefreshTick | libs/gameLogic.ts:116-123 | the session moves exactly as Tick describes: text first, then the clamp and the end of the round |
| GameLogic.Session.OnCollision | libs/gameLogic.ts:125-147 | the loop over the event's pairs, proved by a loop invariant to move the session exactly as CollideAll does |
| GameLogic.Session.HandlePair | libs/gameLogic.ts:128-146 | one iteration relabels and recategorises in place and moves the session exactly as CollidePair does |
| GameLogic.Session.OnKeyDown | libs/gameLogic.ts:164-184 | the keydown listener moves the session exactly as KeyDown does and keeps it well formed |
| GameLogic.Session.OnKeyUp | libs/gameLogic.ts:186-188 | the keyup listener moves the session exactly as KeyUp does |
| GameLogic.Session.CreateBoxPrefab | libs/gameLogic.ts:191-207 | a new box body is appended to the bodies and its index to the dropped boxes; the returned index names that body |
| GameLogic.Session.ClearBoxes | libs/gameLogic.ts:209-213 | the loop over the dropped boxes is proved by invariants to move the session exactly as RemoveDropped does |
| GameProperties.EndRoundShowsOneResult | libs/gameLogic.ts:150-161 | about GameSpec.EndRound, which models gameEnd and carries no ensures: ending a round gives the main menu with the menu and end-game panels shown and exactly one of win/lose shown, win iff score > 0; nothing else changes |
| GameProperties.TickClampsAndEnds | libs/gameLogic.ts:116-123 | about GameSpec.Tick, which models the refresh interval body and carries no ensures: the tick writes the score into the text; if score ≤ 0 during a round, the score becomes exactly 0 and the round ends lost; otherwise only the text changes |
| GameProperties.LandingPair | libs/gameLogic.ts:130-139 | a box meeting ground: both bodies become ground in category 2, the score drops by exactly 100, the box is idle, and nothing else changes (the round goes on) |
| GameProperties.FinishPair | libs/gameLogic.ts:141-145 | ground meeting the finish line is not a landing and ends the round whatever the score: main menu, with the menu and end-game panels shown |
| GameProperties.NeutralPair | libs/gameLogic.ts:128-146 | a pair matching neither rule leaves the whole state unchanged |
| GameProperties.PairBoxPhase | libs/gameLogic.ts:130-139 | a pair changes the box state only from moving to idle, and only when it is a landing |
| GameProperties.EventScore | libs/gameLogic.ts:125-147 | an event lowers the score by exactly 100 per pair that is a landing when the loop reaches it, with no bound or guard; after any landing the box is idle, otherwise the box state is unchanged |
| GameProperties.LandKeepsOtherPair | libs/gameLogic.ts:130-139 | a landing leaves any pair with a different box still a box on ground |
| GameProperties.DistinctLandings | libs/gameLogic.ts:125-147 | with N distinct boxes each on ground, all N pairs are landings and neither the game state nor any panel changes |
| GameProperties.SettledStays | libs/gameLogic.ts:125-147 | a body already labelled ground in category 2 is unchanged by any event |
| GameProperties.LandingEvent | libs/gameLogic.ts:125-147 | N distinct box-on-ground pairs lower the score by exactly 100·N, leave every one of those boxes ground in category 2, make the box idle and do not end the round |
| GameProperties.LandedStaysSettled | libs/gameLogic.ts:130-139 | the box of each such pair is settled at the end of the event |
| GameProperties.TickAfterLandings | libs/gameLogic.ts:116-147 | at the tick after N distinct landings during a round, the score variable is max(0, score − 100·N) and the round is lost exactly when that is 0, while the score text written at that tick shows the unclamped score − 100·N |
| GameProperties.RemoveFromWorldAt | libs/gameLogic.ts:209-213 | clearing takes exactly the listed bodies out of the world and changes nothing else about any body |
| GameProperties.StartRound | libs/gameLogic.ts:166-171 | Space in the main menu with Space not held sets the score to 3000, takes every dropped box out of the world while keeping the list, hides the menu and sets the game state to game; the box state, key, other panels and text are unchanged |
| GameProperties.SpawnBox | libs/gameLogic.ts:172-181 | Space during a round with the box idle appends exactly one body (box label, category 1, mask 3, in the world, at (x, y + 50), 50×50) and its index to the dropped boxes, sets the box moving and the key to Space, and changes nothing else |
| GameProperties.IgnoredKeyDown | libs/gameLogic.ts:166 | a non-Space key, or any key while Space is held, changes nothing |
| GameProperties.MovingIgnoresSpace | libs/gameLogic.ts:172 | Space while the dropped box is still moving changes nothing |
| GameProperties.KeyUpClearsKey | libs/gameLogic.ts:186-188 | about GameSpec.KeyUp, which models the keyup listener and carries no ensures: a key release sets the key to "" and changes nothing else |
| GameProperties.KeyDownBoxPhase | libs/gameLogic.ts:164-184 | a key press changes the box state only from idle to moving, and then drops exactly one box |
| GameProperties.HeldSpaceBlocksKeys | libs/gameLogic.ts:166 | while Space is held, no run of key presses changes anything |
| GameProperties.SpawnIsDebounced | libs/gameLogic.ts:166-181 | after a drop, further presses before a release drop nothing more |
| GameProperties.MenuSpaceNotDebounced | libs/gameLogic.ts:166-173 | from the main menu, two Space presses with no release both act: the round starts and a box is dropped |
| GameProperties.BoxesDroppedInitially | libs/gameLogic.ts:52-102 | at page load no body is labelled box that is not a dropped box |
| GameProperties.BoxesDroppedByKeys | libs/gameLogic.ts:116-188 | key presses, key releases and ticks keep every box-labelled body in the dropped-box list |
| GameProperties.BoxesDroppedByEvent | libs/gameLogic.ts:125-147 | collision events keep every box-labelled body in the dropped-box list |
| GameProperties.NoBoxNoLanding | libs/gameLogic.ts:130-139 | with no box in the world, an event among bodies in the world changes no body, nor the score, nor the box state |
| GameProperties.RoundStartsStuck | libs/gameLogic.ts:166-172 | starting a round with the box still moving leaves it moving with no box in the world: every key press is then a no-op and no event among bodies in the world makes it idle or lowers the score |
| GameProperties.WonRound | libs/gameLogic.ts:116-213 | from page load: Space starts a round at 3000; after a release, Space drops body 5 at (x, y + 50); its landing on the ground gives 2900 and an idle box; the settled box touching the finish line ends the round won |

## Left out

- The physics engine itself is not modelled: integration, collision detection (including filtering by category and mask), constraint solving, rendering and the runner. Collision pairs and the pendulum box's position are inputs, and a body's position is the one it was created with.
- Geometry is in integer pixels. The float forces, the stiffness and the `Infinity` inertia (assigned at line 177) are not modelled.
- The 500 ms pendulum-force interval (lines 104-110) is left out. It is an engine call with float forces plus a flag that nothing else reads.
- Setting `boxA.render.visible` around the drop (lines 174, 179) is left out; it is purely visual.
- `getRandomPosition` (lines 215-217) is left out: it uses a random source and is never called.
- The decomposition-library setup, the renderer and runner creation, and the `gameObjects` array (lines 20-33, 97-102, 221-230) are left out as one-time wiring. The constraint object is not a body, so it is not modelled; the pendulum box's position is a key-press input.
- Timers and the DOM are left out. The page's markup is not part of this model, so the panels' visibility at load is a constructor argument. `scoreText` holds the number rather than the string.
