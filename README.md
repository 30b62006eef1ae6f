# Alien jump game: verified model of the level logic

This is a Dafny model of the game logic in `game.js`, a browser endless runner. In the game the
player's alien runs to the right and jumps over spikes, collecting candies for extra lives.

It models these parts:

- **The `LevelManager` level director.** It generates spikes in a window ahead of the alien. It
  places a candy every 10 to 20 spikes and raises the difficulty with the distance travelled.
- **Its jump-feasibility checks and repair loops.** These include the trajectory test, the
  minimum-viable-path check, the bounded repair-and-retry validator and the emergency fixes.
  None of them is called when a level is generated.
- **Level progression.**
- **The smaller pieces of state the game loop drives:**
  - the box-overlap and world-bounds physics;
  - the alien's jump, landing and hit timers;
  - candy collection;
  - the one-shot input latches;
  - the `GameEngine` screen state machine, with lives, score, the collision handlers and the
    candy clean-up.

Modules follow the program's classes:

| module | file | contents |
|---|---|---|
| `GameConfig` | `config.dfy` | `GAME_CONFIG`, `CHARACTER_CONFIG`, `GAME_STATES`, the fixed `LevelManager` settings, `Math.round` |
| `Geometry` | `geometry.dfy` | collision boxes and `PhysicsEngine.checkCollision` |
| `Physics` | `physics.dfy` | `PhysicsEngine.checkWorldBounds` and the spike case of `resolveCollision` |
| `Jumpability` | `jumpability.dfy` | the jump limits, `simulateJumpTrajectory`, `verifyMinimumViablePath`, `applyEmergencyFixes`, `validateJumpabilityAdvanced`, `validateJumpability`, `regenerateSpike` |
| `Entities` | `entities.dfy` | `SpikeObstacle`, the live spike array, `Candy`, `AlienCharacter` |
| `Levels` | `levels.dfy` | class `LevelManager` and the generator's random rolls |
| `Input` | `input.dfy` | class `InputHandler` |
| `Engine` | `engine.dfy` | class `GameEngine` |

These are modelling choices:

- **Randomness.** Every `Math.random()` is a draw in [0, 1). In a method the draw is chosen
  nondeterministically (`:|`). In a function it is a `draw` parameter. Every contract holds for
  every draw.
- **Numbers.** Positions are `real`. `Math.round(v)` is `(v + 0.5).Floor` and `Math.floor` is
  `.Floor`.
- **Objects updated in place.** Objects whose fields the game updates are classes, with
  field-level `modifies` frames. This covers `LevelManager`, `AlienCharacter`, `Candy`,
  `InputHandler`, `GameEngine` and the `spikeObstacles` array (class `ObstacleList`).
- **Pure code.** The pure and read-only code is functions and predicates.
- **Loops.** The loops of the source are `while` loops with invariants:
  - generating spikes, copying spikes into the live array and creating candies;
  - the validator's retry and repair loops;
  - the emergency fixes;
  - the collision scans.

The model follows the code in these places:

- **Fixed jump limits.** `alienMaxJumpHeight` (50) and `alienMaxJumpDistance` (300) are fixed
  values. Every check uses them, not the physics bounds.
  - The physics bounds are `calculateMaxJumpHeight` = 15²/(2·0.8) − 5 = 135.625 and
    `calculateMaxJumpDistance` = 5·(2·15/0.8) − 5 = 182.5.
  - `calculateMaxJumpDistance` uses `MAX_SPEED` = 5 (game.js:31, 1173), not the constant
    forward speed `AUTO_RUN_SPEED` = 3 (game.js:37). With 3 the same formula would give
    3·37.5 − 5 = 107.5.
- **No eviction.** The spike clean-up in `updateEndlessLevel` (game.js:907-924) comes after a
  `return` and never runs. The live spike array is append-only.
- **The validator is not wired in.** `generateLevel` never calls `validateJumpability`.
  `InitialRunIsViable` proves that every initial run passes `verifyMinimumViablePath` anyway.
- **Regeneration is thrown away.** When `validateJumpabilityAdvanced` regenerates a spike, the
  retry copies `spikePositions[i]` again, so the new spike is discarded.
  - Its result is therefore the per-spike repair `ValidatedPositions`.
  - The whole call makes at most n + 3 passes.
- **Dead candy branch.** In `generateCandies` the inner `if candyX < lastCandyX + 150` can never
  hold. It is kept in the method, and the contract gives the value that results.
- **Difficulty monotonicity is per update.** `updateEndlessLevel` derives the difficulty from
  the distance travelled, so the difficulty never falls across those updates. It can fall
  across level changes:
  - `resetToLevel1` sets it back to 1.0 and does not reset the distance;
  - `nextLevel` adds 0.1 on top.

  The contract therefore states difficulty' = `DifficultyFor`(distance') ≥
  `DifficultyFor`(old distance).

## Model

| member | source | states |
|---|---|---|
| GameConfig.Round | game.js:866-870 | `Math.round`: the result is within one half of its argument, with halves rounded up |
| Geometry.CollisionIffSharedPoint | game.js:558-577 | for boxes of positive size, `checkCollision` holds exactly when some point lies strictly inside both boxes |
| Geometry.InsetCollision | game.js:558-577 | boxes cut the same non-negative margin inside two others collide only when those two boxes do, so the 2-pixel collision boxes never report a touch the visual boxes lack |
| Physics.CheckWorldBounds | game.js:672-702 | left, right and top are clamped in that order, and each zeroes its velocity; the entity ends inside the world's width; death exactly when the corrected y is below the world; `ok` exactly when nothing needed correcting and nothing changed |
| Physics.ResolveSpikeCollision | game.js:615-628 | knockback of 8 away from the spike's centre, and a vertical velocity of −5 |
| Jumpability.CalculateMaxJumpHeight | game.js:1156-1167 | 15²/(2·0.8) − 5 = 135.625 |
| Jumpability.CalculateMaxJumpDistance | game.js:1170-1183 | 5·(2·15/0.8) − 5 = 182.5 |
| Jumpability.FixedLimitsVersusPhysics | game.js:789-792 | the fixed height limit plus the margin is below the physics height; the fixed distance limit is above the physics distance plus the margin |
| Jumpability.RequiredJumpForceBound | game.js:1288-1298 | the required force is within \|JUMP_FORCE\| exactly when \|dy + 0.016·gap²\| ≤ 3·\|gap\| |
| Jumpability.TrajectoryClosedForm | game.js:1269-1299 | `simulateJumpTrajectory` is true exactly when the gap is non-zero and at most 300, the rise is at most 50, and the closed-form ballistic bound holds |
| Jumpability.LevelJumpReach | game.js:1269-1299 | between spikes at one height and a forward gap, the test passes exactly when the gap is at most `calculateMaxJumpDistance` + margin = 187.5 |
| Jumpability.LevelBallistic | game.js:1288-1298 | with no drop, the closed-form ballistic bound holds for a forward gap exactly when the gap is at most 187.5 |
| Jumpability.StartCannotReachFarSpike | game.js:1269-1299 | from the start position, a ground spike at most 45 high with x in [300, 400] is always rejected |
| Jumpability.ViablePathFromIff | game.js:1050-1072 | the path loop from a cursor accepts exactly when every gap from the previous trailing edge is at most 300 and every height is at most 50 |
| Jumpability.VerifyMinimumViablePathIff | game.js:1050-1072 | the same, starting from START_X = 100 |
| Jumpability.EmergencyFixes | game.js:1075-1108 | the fixed list has the length of the input |
| Jumpability.EmergencyFixesGuarantees | game.js:1075-1108 | each height becomes min(height, 45), with y = 350 − height and the width kept; each x becomes max(x, previous trailing edge + 150); the first x is at least 300 |
| Jumpability.EmergencyFixesPathIff | game.js:1075-1108 | the fixed list passes the path check exactly when every ORIGINAL spike x is at most 300 past the trailing edge of the fixed spike before it (START_X = 100 for the first); since the fixes never move a spike left, they do not guarantee that the path check passes |
| Jumpability.EmergencyFixesCanLeaveUnviablePath | game.js:1092-1100 | the fixes only warn: the single spike at x = 1000 stays unviable after fixing |
| Jumpability.EmergencyFixesCanRepairPath | game.js:1081-1090 | the fixes can also repair a path: pushing a first spike at x = 150 right to 300 closes a 305-pixel gap to the spike at 470, so a failing list passes once fixed |
| Jumpability.ApplyEmergencyFixes | game.js:1075-1108 | the loop computes `EmergencyFixes` of its input |
| Jumpability.RepairRoundsFacts | game.js:1197-1250 | repair keeps the width and never raises the height; after one round the height is at most 50; a spike reported valid is at most 50 tall and either clears the minimum gap and the trajectory test against its predecessor or, as the first spike, the trajectory test from the start position |
| Jumpability.ValidatedPositionsFacts | game.js:1186-1266 | the validated list has the input's length; each spike keeps its width, is no taller than before, and is at most 50 high |
| Jumpability.RegenerateSpike | game.js:1302-1312 | x = 200 + 120·index, width 20, height in [20, 30), standing on the ground |
| Jumpability.RepairPass | game.js:1198-1248 | one pass of tests 1 to 4 computes `RepairRound` from the previous validated spike |
| Jumpability.ValidateJumpabilityAdvanced | game.js:1186-1266 | the result is `ValidatedPositions` of the input; at most 3 regenerations; passes = n + regenerations |
| Jumpability.JumpableFacts | game.js:1031-1047 | `validateJumpability` keeps the length and caps every height at 50 |
| Jumpability.ValidateJumpability | game.js:1031-1047 | the validated list, or its emergency fix when it is non-empty and fails the path check |
| Entities.ObstacleList.Push | game.js:901 | `spikeObstacles.push` appends one spike |
| Entities.SpikeObstacle.CollisionBounds | game.js:1565-1571 | the spike's collision box lies 2 pixels inside its visual box on every side |
| Entities.Candy.constructor | game.js:1364-1392 | uncollected, life bonus 1, and 75 points when floating, 50 otherwise |
| Entities.Candy.Collect | game.js:1448-1454 | succeeds exactly once, and the candy is then collected |
| Entities.Candy.CollisionBounds | game.js:1395-1402 | the candy's collision box lies 2 pixels inside its 20 × 25 box on every side |
| Entities.Candy.CheckCollision | game.js:1415-1424 | a collected candy collides with nothing; an uncollected one collides with a box exactly when that box overlaps the candy's collision box |
| Entities.AlienCharacter.constructor | game.js:1789-1840 | at rest, not grounded, may jump, and all timers are 0 |
| Entities.AlienCharacter.CollisionBounds | game.js:1843-1849 | the alien's collision box lies 2 pixels inside its visual box on every side |
| Entities.AlienCharacter.Jump | game.js:1989-2007 | takes off exactly when grounded or within coyote time and allowed to jump, setting vy = −15 and coyote time; a second jump right away fails; otherwise only the jump buffer is set |
| Entities.AlienCharacter.CheckGrounded | game.js:1863-1878 | grounded exactly when the feet reach the ground line; on landing the alien snaps to the ground and may jump again; otherwise nothing else changes |
| Entities.AlienCharacter.HandleSpikeCollision | game.js:2010-2038 | ignored exactly when invulnerable; otherwise knockback away from the spike's centre, bounce −5, a 0.3 s flash and 1 s of invulnerability; the timer invariant is kept |
| Entities.AlienCharacter.UpdateHitEffects | game.js:2041-2058 | invulnerability stays exactly while its timer is above dt, and is then zeroed; the flash ends when its timer runs out; the timer invariant is kept |
| Levels.GenerateSingleSpike | game.js:850-875 | x = round(x), width 15, integral height in [8, 45], y + height = 350, and a height of at least 21 once the difficulty is at least 1 |
| Levels.SpikesForNextCandy | game.js:798-800 | the countdown is in [10, 20] |
| Levels.InitialSpacing | game.js:838-839 | the initial step is in [150, 250) |
| Levels.DifficultySpacing | game.js:941-944 | the step is at least 150, and below 250 (below 240 once the difficulty is at least 1) |
| Levels.CandyY | game.js:968-976 | the candy height is one of ground − 30, 80, 120 or 160 |
| Levels.DifficultyMonotone | game.js:885-886 | more distance never yields less difficulty |
| Levels.GeneratedShape | game.js:850-875 | every spike the generator emits at cursor c has x = round(c), width 15, height in [8, 45] and stands on the ground |
| Levels.CursorBounds | game.js:831-844 | the i-th cursor of a run lies in [first + 150·i, first + 250·i] |
| Levels.NextBounds | game.js:831-846 | after n spikes the next cursor is at least first + 150·n, and for n > 0 below first + 250·n |
| Levels.RunSpacing | game.js:831-846 | consecutive spikes of a run are 150 to 250 apart after rounding, and so is the rounded next cursor past the last spike |
| Levels.InitialRunCount | game.js:823-847 | the initial window [300, 1100) holds 4 to 6 spikes |
| Levels.InitialRunIsViable | game.js:823-847 | every initial run passes `verifyMinimumViablePath`, although nothing validates it |
| Levels.Obstacles | game.js:899-902 | one `SpikeObstacle` per generated spike, in order |
| Levels.FrontierExtends | game.js:878-948 | appending a run that starts at the next cursor keeps the 150 to 250 spacing across the whole live array |
| Levels.AppendObstacles | game.js:899-902 | the live array becomes its old contents followed by the new spikes |
| Levels.LoadRun | game.js:3066-3071 | an empty live array filled from an initial run holds exactly the run's obstacles, spaced 150 to 250 apart up to the next cursor, each 15 wide, 8 to 45 high and on the ground |
| Levels.PartialRunExtend | game.js:829-840 | one more iteration of the generator loop, a spike at the cursor and a step of 150 to 250, extends the run generated so far |
| Levels.PartialRunDone | game.js:829-841 | when the cursor reaches the window's end, the run generated so far is a complete run |
| Levels.RunFrontier | game.js:831-846 | a run's obstacles start at the rounded first cursor and are spaced like the live array up to the next cursor; an empty run leaves the cursor where it was |
| Levels.FrontierConcat | game.js:899-902 | two spaced arrays join into one when the second starts at the first's rounded next cursor |
| Levels.RunShape | game.js:850-875 | every spike of a run is 15 wide, 8 to 45 high, stands on the ground and sits at its rounded cursor |
| Levels.LevelManager.constructor | game.js:761-795 | level 1, next spike at 300, frontier at 0, counters cleared, countdown in [10, 20], difficulty 1.0 |
| Levels.LevelManager.GetRandomSpikesForNextCandy | game.js:798-800 | a countdown in [10, 20] |
| Levels.LevelManager.GenerateInitialSpikes | game.js:823-847 | one run over [300, 1100) with 4 to 6 spikes that passes the path check; the frontier becomes 1100; the spike counter rises and the countdown falls by one per spike |
| Levels.LevelManager.GenerateMoreSpikes | game.js:928-948 | one run over [max(startX, nextSpikeX), endX) with steps in [150, 250); nextSpikeX ends at or past endX; the counters change by one per spike |
| Levels.LevelManager.GenerateCandies | game.js:951-991 | nothing while the countdown is positive; otherwise one candy at max(endX + 50, lastCandyX + 150), at one of the four heights and floating exactly when above ground − 40; lastCandyX follows it and the countdown is re-rolled into [10, 20] |
| Levels.LevelManager.UpdateEndlessLevel | game.js:878-925 | the distance becomes max(distance, alienX); the difficulty is derived from it and does not fall; the frontier becomes max(frontier, alienX + 800); the live array is only appended to, with one run continuing from the old nextSpikeX; when a run is generated, a candy is spawned exactly when the countdown minus the run's length reaches 0 or less, at x = max(alienX + 850, lastCandyX + 150), at one of the four heights, floating exactly when above ground − 40, and the countdown is re-rolled into [10, 20]; otherwise the countdown falls by the run's length and lastCandyX is kept; with no run nothing but the distance and difficulty changes; the live array's spacing is kept |
| Levels.LevelManager.ExtendLevel | game.js:891-905 | the generating branch: one run from the old nextSpikeX up to the threshold, the spike counter raised by its length, the candy step on the countdown lowered by that length, the run's obstacles appended to the live array with its spacing kept, and the frontier set to the threshold |
| Levels.LevelManager.GenerateLevel | game.js:803-820 | the unvalidated initial run with the start position, which passes the path check |
| Levels.LevelManager.CheckLevelCompletion | game.js:1111-1126 | level' = max(level, floor(x/1000) + 1); the result is true exactly when the level rises |
| Levels.LevelManager.NextLevel | game.js:1137-1142 | one level up, 0.1 more difficulty, and a fresh initial run of 4 to 6 spikes that passes the path check; the frontier goes back to 1100; the spike counter rises and the candy countdown falls by the run's length |
| Levels.LevelManager.ResetToLevel1 | game.js:1145-1153 | level 1, difficulty 1.0, lastCandyX 0, the spike counter restarted at the run's length, the candy countdown re-rolled into [10, 20] and then lowered by the run's length, and a fresh initial run of 4 to 6 spikes that passes the path check; the frontier goes back to 1100 |
| Levels.GetObstaclesInRange | game.js:1129-1134 | exactly the obstacles whose x is within range of the centre, each as often as in the input, kept in their order |
| Input.Consume | game.js:1739-1745 | reading a latch clears that latch and nothing else |
| Input.InputHandler.constructor | game.js:1667-1681 | no keys held or latched, no touch or click |
| Input.InputHandler.KeyDown | game.js:1684-1696 | the key is held, so `isKeyDown` holds, and its press latched |
| Input.InputHandler.KeyUp | game.js:1698-1701 | the key is released, so `isKeyDown` fails, and its latch cleared |
| Input.InputHandler.IsKeyDown | game.js:1734-1736 | an unknown key is not down; a known key is down exactly when it is held |
| Input.InputHandler.IsKeyPressed | game.js:1739-1745 | true exactly when the latch was set, and the latch is then clear |
| Input.InputHandler.IsTouchPressed | game.js:1760-1766 | true exactly once per touch |
| Input.InputHandler.IsClickPressed | game.js:1769-1775 | true exactly once per click |
| Input.InputHandler.GetMovementInput | game.js:1748-1757 | left and right from held keys; jump from any jump latch, touch or click; short-circuiting consumes only the first latch found, and keeps a click when a touch was pending |
| Input.InputHandler.GetGameControlInput | game.js:1778-1784 | pause, reset and menu from their latches, all three consumed |
| Engine.FirstTouching | game.js:3151-3153 | the first spike whose box overlaps the alien's, or none |
| Engine.CandyGainBounds | game.js:1388-1389 | candies give at most one life each, and 50 to 75 points per life |
| Engine.KeepCandies | game.js:3141-3144 | exactly the uncollected candies right of the threshold, kept in their order; distinctness is kept |
| Engine.KeepCandiesMultiset | game.js:3141-3144 | the filter keeps each kept candy exactly as often as the list holds it, drops every other candy, and adds none |
| Engine.GameEngine.constructor | game.js:2144-2207 | loading screen, 3 lives, score 0, level 1, not running; the stored best score; a level manager at level 1 with difficulty 1.0, no distance, lastCandyX 0 and the frontier at 1100; a fresh live array holding exactly the obstacles of one initial run of 4 to 6 spikes that passes the path check, with the spike counter equal to its length and the candy countdown lowered by it; later batches continue its spacing |
| Engine.GameEngine.IsPlayable | game.js:2971-2975 | playable only on the PLAYING screen while running and not paused; any other screen, a stopped engine or a paused game is unplayable |
| Engine.GameEngine.GenerateCurrentLevel | game.js:3062-3084 | a new live array holding exactly the obstacles of the initial run from 300 to 1100, 4 to 6 spikes that are 15 wide, 8 to 45 high, standing on the ground and passing the path check; the frontier is 1100, the spike counter rises and the candy countdown falls by the run's length; later batches continue its spacing |
| Engine.GameEngine.UpdateBestScore | game.js:3027-3033 | best' = max(best, score) |
| Engine.GameEngine.ChangeGameState | game.js:2924-2968 | no-op for the current state; otherwise the previous state is recorded and the flags follow the new screen; game over and victory record the best score |
| Engine.GameEngine.Pause | game.js:2851-2862 | only while running, and only PLAYING ↔ PAUSED, with isPaused following; pausing makes the game unplayable and resuming makes it playable; otherwise nothing changes |
| Engine.GameEngine.AddScore | game.js:2978-2984 | the score rises by floor(points·multiplier) |
| Engine.GameEngine.CheckSpikeCollisions | game.js:3148-3193 | no hit exactly when the alien is invulnerable or touches no spike, and then nothing changes; otherwise the first touching spike costs one life, earns 10 points when a life is left, reports game over exactly when lives ≤ 0, and knocks the alien back 8 away from the spike's centre with vy = −5, a 0.3 s flash and full invulnerability |
| Engine.GameEngine.HandleHit | game.js:3155-3186 | a touching spike is ignored exactly when the alien is invulnerable, and then nothing changes; otherwise one life is lost, 10 points are added when a life is left, and the alien gets the knockback, the bounce, the flash and the invulnerability |
| Engine.GameEngine.CheckCandyCollisions | game.js:3196-3223 | every touched uncollected candy is collected and no other candy changes; lives and score rise by exactly the bonuses of the newly collected candies; lives rise by at most the number of candies; 50 to 75 points per life |
| Engine.GameEngine.CollectTouched | game.js:3201-3219 | the loop over the candy list collects each touched candy in turn, and lives and score rise by the list's `LifeGain` and `ScoreGain` |
| Engine.GameEngine.CollectCandy | game.js:3202-3206 | one candy is collected if touched, and its life and score bonuses are added exactly when it was touched and not yet collected |
| Engine.GameEngine.UpdateLevelGeneration | game.js:2311-2319 | the level manager's level is unchanged, its distance becomes max(distance, alien x) with the difficulty derived from it, and its frontier becomes max(frontier, alien x + 800); with no run nothing else changes; otherwise the new run continues from the old nextSpikeX with steps of 150 to 250, its spikes are 15 wide, 8 to 45 high and on the ground, the spike counter rises by its length, and a candy is spawned exactly when the countdown minus the run's length reaches 0 (at max(alien x + 850, lastCandyX + 150), with lastCandyX following it and the countdown re-rolled), and otherwise the countdown falls by the run's length; the live array gains exactly the run's obstacles and keeps its spacing; one fresh, uncollected candy is appended per spawn, with the spawn's x, y and floating flag |
| Engine.GameEngine.AddCandies | game.js:2315-2318 | the candy list gains one fresh, uncollected candy per spawn, in order, with the spawn's x, y and floating flag; the list stays free of duplicates |
| Engine.GameEngine.UpdateCandies | game.js:3135-3145 | only the uncollected candies with x > alien.x − 500 survive, in order |
| Engine.GameEngine.CheckLevelBoundaries | game.js:3254-3267 | the alien is clamped into the 999999-wide world as `checkWorldBounds` does, with the exact x, vx, y and vy; falling below CANVAS_HEIGHT + 100 leads to game over, recording the previous screen and the best score unless the game was already over; otherwise no screen field changes; the victory flag never changes |
| Engine.GameEngine.TriggerGameOver | game.js:2993-2996 | the game-over screen; from another screen the previous screen is recorded, the game-over and restart flags are raised and best' = max(best, score); when the game is already over nothing changes; the victory flag never changes |

## Left out

- Rendering is not modelled: the `Renderer` class, particles, camera follow and shake, colours, emoji choice and all `render*` methods. They only draw on the canvas.
- DOM glue is not modelled: `bindEvents` wiring, `updateScoreDisplay`, `updateGameStatus` and its `setTimeout` messages. `KeyDown` and `KeyUp` model only the state change the key listeners make, and the touch and mouse listeners, which only set or clear a flag, are not modelled.
- Frame timing is not modelled: `gameLoop`, `requestAnimationFrame`, FPS counting, `deltaTime` bookkeeping and the rest of `GameEngine.update`. Only its endless-generation step is modelled, as `UpdateLevelGeneration`. These are scheduling and I/O.
- `localStorage` best-score loading and saving is not modelled. The stored value is a constructor parameter.
- Floating-point animation is not modelled: `Candy.update` bobbing, `SpikeObstacle.update` glow, `AlienCharacter.updateAnimation`/`updateState`/`update`, gravity, friction and position integration, `simulateProjectileMotion`, `calculateJumpToTarget` and `getDebugInfo`. These are time-stepped real arithmetic with trigonometry and square roots that the game's decisions above do not depend on.
- The NaN guards of `generateSingleSpike` and the `SpikeObstacle` constructor are not modelled. They cannot apply because model reals are never NaN. For the same reason the `|| 1`, `|| 8`, `|| 50` and `|| 5` fallbacks reduce to the configured values, except `difficultyMultiplier || 1` at 0, which is modelled.
- `generateSpikePositions`, `testLevelCompletability` and `getCurrentLevelInfo` are not modelled. They read undefined fields or a null goal and are never part of a working path. `generateCurrentLevel` calls the last one only for a log line and then calls `validateGeneratedLevel`, which only logs, so both are skipped.
- The fixed-level branch of `checkLevelCompletion` is not modelled, because `isEndlessMode` is always true.
- `resolvePlatformCollision` and `resolveGroundCollision` are not modelled. No spike path uses them, and the ground case belongs to the stepped physics.
- `GameEngine.reset`, `start`, `stop`, `init`, `completeLevel`, `triggerVictory`, `updateStats` and `checkGroundCollision` are not modelled. They are glue around the modelled state changes.
- Collision history, camera shake and console logging are not modelled.
- `game-fixed.js` is an older variant that exists only inside string literals, and `test-game.js` tests its own inline copy of the alien against mocks. Neither is part of this model.
- Jumpability.ValidateJumpabilityAdvanced: `passes` and `regenerations` are ghost counters. They state the bound on the loop rather than anything the source returns.
