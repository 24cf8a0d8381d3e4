# NeonRunner game logic in Dafny

This project models the game logic of `NeonRunner`, the browser endless runner in `js/game.js`.
It covers the part of the class that decides what happens, and leaves out how it looks.

- **The track** is a list of 15 floor segments, each 20 units long.
  - Every frame, `updateTrack` moves the ball forward by `speed * dt`.
  - It then walks the segment list from the back. Each segment more than 40 units behind the ball gets one fresh segment pushed where the current last one ends, and is then spliced out.
  - A second reverse loop splices out the obstacles more than 40 units behind.
- **Obstacles** are cubes, which end the game, and ramps, which never do.
  - They are generated from `Math.random()` draws when the initial track is laid and when a segment is recycled.
- **Score and speed**: the score grows by `floor(speed * dt * 10)` per frame. The speed grows by 0.025 per frame while it is below the cap.
- **Jumping** is governed by a gate made of `canJump` and a cooldown.
  - A jump closes the gate for 0.7 s.
  - Ground contact (height at most 1.1) reopens it at any time.
- **Lifecycle**:
  - `update` does nothing once the game is over.
  - `animate` runs `update` only after the game has started, with the frame time capped at 0.1 s.
  - `restart` starts a fresh run on a rebuilt initial track.

## How the model is built

The model has nine modules:

- `Space`: positions.
- `Lists`: facts about splicing.
- `Trail`: the "more than 40 behind" rule, and an order-keeping filter.
- `Track`: segments, the 15-segment window, and what recycling makes of it.
- `Obstacles`: draws, the obstacle generator, and spawn lists.
- `Collision`: the end-of-game test.
- `Motion`: forces, the impulse and the jump gate.
- `Scoring`: score, speed ramp, power-up timers and frame time.
- `Runner`: the class `NeonRunner`.

`Runner.NeonRunner` is imperative, like the source:

- Its fields are the game's fields.
- `trackSegments` and `obstacles` are `seq` fields that the methods push onto and splice from. They do so inside reverse `while` loops, as the source does.
- Each method is proved against a specification function:
  - `Track.Recycle` for the segment loop.
  - `Obstacles.RecycleSpawns` for the obstacles that loop pushes.
  - `Trail.Survivors` for the obstacle loop.
  - `Obstacles.InitialObstacles` and `Track.Run` for `createInitialTrack`.
  - `Collision.FirstHit` for the collision scan.
  - `Motion.Settle`, `Scoring.NextSpeed`, `Scoring.ScoreGain` and `Scoring.BoostTick` for the frame's state changes.
- Lemmas prove the properties of those functions.
- `NeonRunner.Valid` holds after every public operation. It says three things:
  - The track is 15 consecutive segments of length 20, with no gap or overlap.
  - Every obstacle has a lane in [1.5, 5.5) on either side. A cube has size in [1, 2.5) and height in [1, 2.8).
  - The speed lies between 20 and the cap plus one increment, and the cap is 65 or 70.

How the model stands in for what it cannot run:

- **Randomness**: each `Math.random()` call is an explicit value in [0, 1).
  - `Obstacles.ObstacleDraw` holds the draws of one `createObstacle`.
  - `Obstacles.SpawnDraw` holds the draws for one segment index.
  - A frame takes one `SpawnDraw` per segment index.
- **The physics engine** is an oracle.
  - `Update` receives the ball position that the physics step produced.
  - Forces and the jump impulse are returned, not applied.
- **Time**:
  - The wall clock that `restart` reads is a parameter (`now`).
  - Animation timestamps are parameters (`time`).

Where the code and its own comments or the usual reading of the game differ, the model follows the code:

- The speed may exceed the cap by one increment. The ramp tests `speed < maxSpeed` before adding the increment (js/game.js:853), so the last step can pass the cap.
- `restart` sets the speed to 22, while the constructor sets 20. This holds even though the comment at js/game.js:1139 says "Match constructor's speed".
- The speed boost's expiry sets the cap to 70, not back to the constructor's 65. This holds even though the comment at js/game.js:864 says "Reset normal speed max".
- `restart` keeps the jump gate, the cap and the power-up flags as they were.
- A jump is allowed whenever `canJump` holds, even in mid-air.
- The frame time has no lower bound in the source. This is the Finding below.

## Model

| member | source | states |
|---|---|---|
| Space.Max | js/game.js:1285 | Math.max: the result is at least both arguments and is one of them |
| Space.Min | js/game.js:974 | Math.min: the result is at most both arguments and is one of them |
| Trail.Behind | js/game.js:702 | the retirement test `z - position > 40`; whatever it retires lies behind the player |
| Trail.Survivors | js/game.js:729-739 | the obstacles the reverse splice loop keeps, in order, never more than it started with (membership in SurvivorsMembers) |
| Trail.SurvivorsMembers | js/game.js:729-739 | what survives the filter is exactly the elements not more than 40 behind the player |
| Trail.SurvivorsAppend | js/game.js:729-739 | the filter keeps relative order: filtering a concatenation filters each part, and the retired counts add up |
| Trail.SurvivorsNoneBehind | js/game.js:702 | when nothing is more than 40 behind, nothing is retired and the list is unchanged |
| Trail.SurvivorsStep | js/game.js:730-738 | one step of a reverse loop: the element at i is kept exactly when it is not behind, and the retired count grows by one exactly when it is |
| Track.Run | js/game.js:547-548 | k segments laid end to end form a list of length k |
| Track.RunAt | js/game.js:446-450 | the j-th segment of a run starts j lengths of 20 after the first, and its length is 20 |
| Track.RunAppend | js/game.js:709-710 | a run followed by the run that starts where it ends is one longer run |
| Track.InitialTrackPositions | js/game.js:547-548 | the initial track is 15 segments of length 20 at 0, 20, ..., 280, ending at 300 |
| Track.Recycle | js/game.js:698-727 | recycling never changes the number of segments |
| Track.SurvivorsOfRun | js/game.js:702 | on consecutive segments the retired ones are exactly a prefix, and the rest is the run that starts after them |
| Track.RecycleWindow | js/game.js:698-727 | recycling a run of n gives the run shifted forward by the k retired segments: same count, consecutive by 20, exactly the first k retired, and unless all were retired the track reaches at least 20n - 40 past the player |
| Track.RecycleKeepsWindow | js/game.js:698-727 | a 15-segment window stays a 15-segment window, and its first segment moves forward by 20 per retired segment |
| Track.PendingEnds | js/game.js:698-727 | before the reverse loop the list is untouched; after it, the list is the recycled list |
| Track.PendingAt | js/game.js:699-709 | during the loop the segment at i is still the original one, and the last segment ends 20 per already-retired segment past the old end of the track |
| Track.PendingRetire | js/game.js:708-725 | pushing a new segment where the last one ends and then splicing out index i handles a retired segment |
| Track.PendingKeep | js/game.js:702 | a segment that is not behind leaves the list alone |
| Track.RecycleStep | js/game.js:698-727 | one loop step on the current list: index i still holds the original segment, the last segment ends where the next new one starts, and a kept segment leaves the list as is |
| Track.RetireStep | js/game.js:708-725 | one retiring step: push, then splice at i, gives the list with index i handled |
| Obstacles.Side | js/game.js:466 | `Math.random() > 0.5 ? 1 : -1`: the side is +1 or -1, and +1 exactly when the draw is above 0.5 |
| Obstacles.MakeObstacle | js/game.js:459-471 | a ramp exactly when the first draw is above 0.85; the lane is xOffset unless xOffset is 0, and then its magnitude lies in [1.5, 5.5); a cube's size lies in [1, 2.5) and its height in [1, 2.8); the stored position is z |
| Obstacles.SecondLane | js/game.js:718 | the second obstacle's lateral offset has magnitude in [2, 5), so it is never the "not given" 0 |
| Obstacles.Spawn | js/game.js:714-721 | one or two well-formed obstacles: the primary at its position, and a second one exactly when its draw beats the threshold, at SecondLane and up to 8 units after the anchor |
| Obstacles.SpawnOn | js/game.js:712-722 | a new segment gets obstacles exactly when the draw is above 0.4, at most two, all well formed and within its first 15 units |
| Obstacles.InitialSpawn | js/game.js:551-560 | the j-th initial segment gets obstacles exactly when j >= 2 (z > 35) |
| Obstacles.InitialSpawnPlaced | js/game.js:551-559 | the j-th initial segment's obstacles are well formed and lie from 40 to 8 units past the segment's start |
| Obstacles.InitialObstacles | js/game.js:547-560 | the first n initial segments carry at most two obstacles each |
| Obstacles.InitialObstaclesPlaced | js/game.js:547-560 | every initial obstacle is well formed and lies between 40 and the end of the track laid so far |
| Obstacles.InitialObstaclesStep | js/game.js:547-560 | laying one more initial segment appends exactly that segment's obstacles |
| Obstacles.RecycleSpawns | js/game.js:698-722 | one recycling pass pushes at most two obstacles per retired segment |
| Obstacles.RecycleSpawnsWellFormed | js/game.js:712-722 | every obstacle pushed while recycling is well formed |
| Obstacles.RecycleSpawnsOnNewSegments | js/game.js:707-722 | new obstacles appear only on the segments laid in the same pass, within their first 15 units |
| Obstacles.RecycleSpawnsStep | js/game.js:698-722 | walking from the back, index i adds its new segment's obstacles after those of the later indices, exactly when it is retired |
| Obstacles.RecycleKeepsWellFormed | js/game.js:698-739 | after recycling and retirement, every obstacle is still well formed |
| Collision.Center | js/game.js:474-478 | the centre of an obstacle's physics body: in its lane, and from its stored position up to 3 units (half a ramp's depth, js/game.js:510-515) after it |
| Collision.HalfExtents | js/game.js:1281 | a well-formed obstacle's physics box has positive half-extents, and a cube's footprint is square |
| Collision.Hits | js/game.js:1274-1289 | the per-obstacle end-of-game test; only a cube can end the game (CollisionRule ties it to the source's square-root rule) |
| Collision.CollisionRule | js/game.js:1270-1296 | a ramp never ends the game; a cube ends it exactly when sqrt(dx²+dz²) < 1 + max(hx, hz) and dy < hy + 0.45 |
| Collision.SquaresOrdered | js/game.js:1288-1289 | for non-negative values, comparing squared distances is the same as comparing distances |
| Collision.ClearAbove | js/game.js:1289 | a ball at or above the cube's height plus 0.45 is never caught by that cube |
| Collision.FirstHit | js/game.js:1272-1295 | the scan returns -1 or an index of the list |
| Collision.FirstHitSpec | js/game.js:1272-1295 | -1 exactly when no obstacle ends the game; otherwise an obstacle that ends it, with none before it |
| Collision.FirstHitScan | js/game.js:1272-1295 | scanning in order: the first touching obstacle is where the loop breaks, and otherwise the scanned prefix has no hit |
| Motion.Forward | js/game.js:695 | only the forward coordinate moves, and it never moves back for non-negative speed and frame time |
| Motion.LateralForces | js/game.js:744-757 | left only gives -320; right only gives +320; both give two forces that cancel; none gives a centring force opposed to x that is zero exactly at x = 0 |
| Motion.CenteringIsSpring | js/game.js:754-756 | with no key held the force is the spring -12·x |
| Motion.Impulse | js/game.js:1206 | the impulse is at least 130, and above it exactly with super jump |
| Motion.Settle | js/game.js:802-814 | jumping is allowed after the frame exactly when it was before, or the cooldown has run out, or the ball is at or below 1.1; the cooldown runs only while jumping is blocked |
| Motion.AirborneLockout | js/game.js:802-808 | after a jump, while the ball stays above 1.1 and less than the cooldown has elapsed, jumping stays blocked and the cooldown has run down by exactly the elapsed time |
| Motion.GroundResetsGate | js/game.js:810-814 | ground contact at the end of a frame allows a jump, however much cooldown is left |
| Scoring.BoostTick | js/game.js:858-874 | with no power-up active nothing changes; a power-up stays on only while its time is positive; an expiring speed boost sets the cap to 70 |
| Scoring.ScoreGain | js/game.js:838 | the points are the largest integer not above speed·dt·10, and are non-negative for non-negative speed and frame time |
| Scoring.TopSpeedFrame | js/game.js:838 | a 0.1 s frame at speed 65 scores 65 points, and at 70 scores 70 |
| Scoring.NextSpeed | js/game.js:852-855 | the speed never decreases; it grows by exactly the increment below the cap, holds at or above it, and never passes the cap plus one increment |
| Scoring.RampBounds | js/game.js:852-855 | over any number of frames the speed stays between its start and the cap plus one increment, and it has grown linearly until the cap is reached |
| Scoring.FrameDeltaAsWritten | js/game.js:974 | the frame time as written: never above 0.1 and equal to the elapsed time whenever that is at most 0.1, with no lower bound |
| Scoring.RestartFrameGoesBackwards | js/game.js:1196-1200 | as written, the first frame after a restart with a stopped loop has duration -now/1000 and lowers the score |
| Scoring.FrameDelta | js/game.js:974 | the corrected frame time lies in [0, 0.1] and equals the elapsed time whenever that already lies in that range |
| Scoring.ScoreNeverDrops | js/game.js:974 | with the corrected frame time no frame lowers the score |
| Runner.NeonRunner.constructor | js/game.js:2-117 | score 0, speed 20, cap 65, not over, not started, jump allowed, no power-ups, the initial 15-segment track with its obstacles, the invariant, and a running loop with last time 0 |
| Runner.NeonRunner.RebuildTrack | js/game.js:1142-1194 | both lists are emptied and then hold exactly the 15 segments from 0 and their initial obstacles |
| Runner.NeonRunner.CreateTrackSegment | js/game.js:421-457 | pushes one segment of length 20 at z and returns it |
| Runner.NeonRunner.CreateObstacle | js/game.js:459-543 | pushes exactly the obstacle MakeObstacle describes |
| Runner.NeonRunner.CreateInitialTrack | js/game.js:545-561 | appends the run of 15 segments from 0, and after them the initial obstacles |
| Runner.NeonRunner.LayInitialSegment | js/game.js:547-560 | one loop iteration extends both lists by the k-th segment and its obstacles |
| Runner.NeonRunner.PlaceInitialObstacles | js/game.js:551-560 | appends exactly InitialSpawn for the segment |
| Runner.NeonRunner.UpdateTrack | js/game.js:693-740 | moves the ball forward; the segments become Recycle of the old ones, the obstacles become the survivors of the old ones plus those pushed; the window and well-formedness are kept |
| Runner.NeonRunner.RecycleSegments | js/game.js:698-727 | the reverse push-and-splice loop leaves Recycle of the old list and appends RecycleSpawns to the obstacles |
| Runner.NeonRunner.RecycleIndex | js/game.js:699-726 | one iteration at index i takes the loop state for i + 1 to the state for i |
| Runner.NeonRunner.SpawnOnNewSegment | js/game.js:712-722 | appends exactly SpawnOn for the new segment |
| Runner.NeonRunner.RetireObstacles | js/game.js:729-739 | the reverse splice loop leaves exactly the survivors, in their original order |
| Runner.NeonRunner.UpdatePowerups | js/game.js:858-874 | the power-up state becomes BoostTick of the old one, and the speed invariant is kept |
| Runner.NeonRunner.EndGame | js/game.js:986-987 | the game is over |
| Runner.NeonRunner.CheckObstacleCollisions | js/game.js:1270-1296 | returns the first touching obstacle (FirstHit) and ends the game exactly when there is one |
| Runner.NeonRunner.Touches | js/game.js:1273-1289 | the per-obstacle test is exactly Hits |
| Runner.NeonRunner.UpdateBall | js/game.js:742-818 | returns the lateral forces, runs the power-up timers, settles the jump gate, and ends the game exactly on a fall below -10 or a hit |
| Runner.NeonRunner.SettleJump | js/game.js:802-814 | the jump gate becomes Settle of the old one |
| Runner.NeonRunner.UpdateScore | js/game.js:837-856 | adds ScoreGain at the old speed, ramps the speed with NextSpeed, and keeps the speed invariant |
| Runner.NeonRunner.Jump | js/game.js:1204-1211 | returns 220 with super jump and 130 otherwise, and closes the gate for 0.7 s |
| Runner.NeonRunner.RequestJump | js/game.js:613-614 | jumps exactly when jumping is allowed, and otherwise changes nothing |
| Runner.NeonRunner.Update | js/game.js:933-962 | a game that is over changes nothing; otherwise one frame has exactly the effect Advanced describes; the invariant is kept |
| Runner.NeonRunner.Play | js/game.js:940-947 | the frame of a running game: ball, track, obstacles, forces, power-ups, jump gate, end of game, score and speed as Advanced describes |
| Runner.NeonRunner.Animate | js/game.js:964-984 | once over, the loop stops and no game field changes; before the start only `animating` and `lastTime` change; otherwise the frame has exactly the effect Advanced describes, with a frame time in [0, 0.1] and a score that does not drop; `gameStarted` is never changed |
| Runner.NeonRunner.Restart | js/game.js:1132-1202 | not over, started, score 0, speed 22, ball at the start, the initial track rebuilt from empty lists, the invariant kept, and a stopped loop marked running with last time now |
| Runner.NeonRunner.ResetRun | js/game.js:1136-1139 | not over, started, score 0, speed 22 |
| Runner.NeonRunner.ResumeLoop | js/game.js:1196-1201 | a stopped loop is marked running with last time now; a running one is left alone |
| Runner.NeonRunner.StartGame | js/game.js:1325-1327 | the game has started |

## Left out

- Rendering is not modelled because it is presentational and does not affect game state. This covers the Three.js scene, camera, lights, sprites, glow, after-images, particles, collision and game-over effects, the restart flash, the speed bar and the score display.
- The physics engine is not modelled because it is a foreign library. This covers world stepping, body creation and removal, the side walls, and `applyForce`/`applyImpulse`. Instead, the ball position after each step is an input, and the forces and the jump impulse are returned values.
- Browser plumbing is not modelled because it does not affect game state. This covers DOM, keyboard, mouse, touch and swipe input, viewport and mobile detection, and `adjustQualitySettings` with its FPS counter. `RequestJump` keeps only the `canJump` guard that every jump input applies.
- Runner.NeonRunner.EndGame: models only `gameOver := true`. The final-score display, the overlay and its `setTimeout` chain, and restart-button listener management are not modelled.
- Runner.NeonRunner.UpdatePowerups: models only the timer part. The glow colours are visual, and nothing in the game switches a power-up on, so the timers never actually run.
- Runner.NeonRunner.Restart: does not clear the power-up, particle and after-image lists, which are presentational. It does not re-create the ball's physics body; the ball is placed back at (0, 1, 0), which models that. It does not model the `animate()` call it makes on a stopped loop; `Scoring.RestartFrameGoesBackwards` covers that frame.
- Runner.NeonRunner.Animate: uses the corrected frame time `Scoring.FrameDelta` rather than the source's uncapped-below one. It does not model the `requestAnimationFrame` scheduling; a later frame is a later call.
- Runner.NeonRunner.constructor: does not model the ball and light creation or the event wiring. Its closing `animate()` call is folded in: that call only sets `animating`, because the game has not started.
- Obstacles' physics bodies are not stored. Their centre and half-extents follow from the obstacle's shape, lane and position (`Collision.Center`, `Collision.HalfExtents`).
- Numbers are exact reals, not IEEE doubles. Exact reals are the intended arithmetic, and rounding is left out.
- The Findings row below changes a clamp. Apart from it, no discrepancy between the code and its comments has been "fixed": the speed overshoot of one increment, restart's speed of 22, and the cap of 70 set when the boost expires are all modelled as written.

## Findings

| source | as written | input that shows it | evidently intended | confidence | as-written member | corrected member |
|---|---|---|---|---|---|---|
| js/game.js:1196-1200 | `deltaTime = Math.min((time - lastTime) / 1000, 0.1)` has no lower bound; `restart()` on a stopped loop sets `lastTime = Date.now()` and calls `animate()` with its default time 0 | `now` = 1,700,000,000,000 ms: deltaTime = -1,700,000,000 s, and the score changes by floor(22 · deltaTime · 10), a huge negative amount | the frame time clamped to [0, 0.1], so no frame moves the run backwards or lowers the score | not executed | Scoring.RestartFrameGoesBackwards | Scoring.FrameDelta |
