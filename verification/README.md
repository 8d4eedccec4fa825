# Endless runner core, modelled in Dafny

`game.js` is a one-screen endless runner: a square player auto-runs on the
ground line, jumps over obstacles that scroll in from the right, scores one
point for every obstacle that leaves the screen on the left, and the run ends
on the first collision. Behind the canvas drawing there is a small
deterministic simulation. This project models that simulation as pure step
functions over an immutable run-state record, and proves its invariants.

Modules, one per part of the game loop:

- `Config` (`config.dfy`): the constants and the canvas size. The canvas is a
  parameter, because its width and height come from the page.
- `Geometry` (`geometry.dfy`): rectangles and the strict AABB test `Hit`.
- `State` (`state.dfy`): the `Player` and `RunState` records, the random
  `Draws` of a spawn, and the invariant `Valid`.
- `Score` (`score.dfy`): `setScore` with the high score as a plain field.
- `Physics` (`physics.dfy`): `jump`, and gravity with the ground clamp (`Fall`).
- `Obstacles` (`obstacles.dfy`): moving, culling with scoring, spawning, and
  the collision scan. `CullBelow` follows the source loop step by step: it
  walks backwards, splices, and sets the score once per removal. `Keep` and
  `OffCount` are the independent reference definitions, and the contract of
  `CullBelow` states that the two agree.
- `Speed` (`speed.dfy`): the speed ramp.
- `Game` (`game.dfy`): the per-frame `Update`, the frame loop's `dt`
  bookkeeping (`Frame`), `StartGame`, `EndGame`, the page's first start
  (`Boot`), and input sequences (`Run`).

Numbers are exact `real`s. The source uses IEEE-754 doubles. Its arithmetic
is addition, subtraction, `min`/`max`, and one multiplication by the
constant 60 in the gap formula. The model leaves out rounding. In doubles,
obstacle positions, gaps and speeds can be off in the last bits. For
example, ten moves of 3.6 starting from 820 end at 783.9999999999998, not 784.
In exact arithmetic the speed ramp reaches the cap at step 62.
Randomness is passed in as arguments: a `Draws` value holds the width,
height and gap jitter one spawn would use, and `DrawsInRange` gives their
ranges. Timestamps are passed in too.

## Model

| member | source | states |
|---|---|---|
| Geometry.Hit | game.js:79-84 | for rectangles of positive size, a hit is exactly the overlap of both open projections |
| Geometry.HitSymmetric | game.js:79-84 | the collision test does not depend on argument order |
| Geometry.TouchingDoesNotHit | game.js:79-84 | rectangles that only share an edge do not collide (all comparisons are strict) |
| Geometry.SharedPointHits | game.js:79-84 | a point strictly inside both rectangles makes them collide |
| Geometry.HitHasSharedPoint | game.js:79-84 | colliding rectangles of positive size share an interior point (the centre of their intersection) |
| Geometry.ContainmentHits | game.js:79-84 | a box containing a rectangle of positive size collides with it |
| Score.SetScore | game.js:87-92 | the score becomes the argument; the high score becomes the larger of its old value and the new score, so it never decreases; nothing else changes |
| Physics.Jump | game.js:41-47 | a jump changes the state only when running and on the ground, and then only sets vy to -10 and clears on-ground; the player does not move |
| Physics.JumpIdempotent | game.js:41-47 | a second press before landing does nothing |
| Physics.Fall | game.js:202-209 | after gravity and the clamp the bottom edge is at or above the ground line; when the clamp fires the player rests on the line with vy 0 and on-ground set; otherwise vy gains 0.5 and y moves by the new vy |
| Physics.FallKeepsGrounded | game.js:202-209 | from a grounded player the step keeps the player grounded, and afterwards on-ground holds exactly when the bottom edge is on the ground line |
| Physics.RestingIsFixed | game.js:202-209 | a player standing on the ground stays where it is |
| Physics.JumpThenFall | game.js:202-209 | the first frame after a jump from the ground leaves vy at -9.5 and the player 9.5 pixels higher |
| Obstacles.Advance | game.js:212 | every obstacle moves left by the speed, with its size and height unchanged |
| Obstacles.AdvanceTwice | game.js:212 | two moves are one move by the summed speed |
| Obstacles.AdvanceNIsOneMove | game.js:212 | n frames at speed v move every obstacle by n·v (for example 10 frames at 3.6 move it 36 pixels) |
| Obstacles.AdvanceKeepsObstaclesOk | game.js:212 | moving keeps every obstacle on the ground with a size in range |
| Obstacles.Keep | game.js:213-218 | the survivors plus the number removed account for every obstacle |
| Obstacles.KeepMembers | game.js:213-218 | an obstacle survives if and only if it was there and its right edge is not left of 0 |
| Obstacles.KeepOrdered | game.js:213-218 | the survivors keep their relative order |
| Obstacles.KeepAllVisible | game.js:213-218 | with nothing off screen, culling removes nothing and awards nothing |
| Obstacles.CullBelow | game.js:213-218 | the backwards splice loop, with one setScore per removal, equals its reference description: the visible obstacles kept in order, one point per removal, and the high score raised to the final score when anything was removed |
| Obstacles.Cull | game.js:213-218 | culling leaves exactly the visible obstacles, raises the score by the number removed, never lowers the high score and leaves it at least the score when anything was removed; nothing else changes |
| Obstacles.NextGap | game.js:71-74 | the next gap is either the floor 450 or 900 - 60·(speed - 3.6) + jitter, whichever is larger: it is at least 450, at least 900 - 60·(speed - 3.6) + jitter, and below 980 for speeds from the base up and jitter below 80 |
| Obstacles.NextGapShrinks | game.js:71-74 | a higher speed never gives a longer gap |
| Obstacles.MaybeSpawn | game.js:59-75 | one obstacle is appended if and only if ts - lastSpawn >= nextGap; it sits 20 pixels beyond the right edge, rests on the ground and has the drawn size; lastSpawn becomes ts and nextGap becomes `NextGap` of the current speed and the jitter (so at least 450); when the gate is closed nothing changes |
| Obstacles.CollidesAny | game.js:224-227 | the scan finds a collision if and only if some obstacle hits the player box |
| Speed.Accelerate | game.js:229-234 | the timer always ends below 1200 and resets to 0 when the step fires; the speed only rises and stays within the base and the cap |
| Speed.BumpNClosedForm | game.js:233 | k ramp steps from the base speed give min(11, 3.6 + 0.12·k) |
| Speed.CapReachedAtStep62 | game.js:16-19 | every step before 62 is below the cap of 11, and step 62 reaches it |
| Game.EndGame | game.js:276-279 | ending a run clears the running flag and nothing else |
| Game.CheckCollision | game.js:224-227 | the run ends exactly when some obstacle hits the player box, and nothing else changes |
| Game.Update | game.js:200-235 | one frame: the player is clamped above the ground, the score rises by the number of obstacles culled, the high score stays put when nothing is culled and otherwise becomes the larger of its old value and the new score, the survivors come first and a new obstacle follows exactly when the spawn gate is open (with nextGap set by `NextGap`, and lastSpawn and nextGap untouched otherwise), the run stays running exactly when no obstacle hits the player, and the ramp timer stays below 1200, resetting to 0 with one speed step when timer + dt reaches 1200 and otherwise growing by dt |
| Game.Frame | game.js:243-249 | nothing changes while not running; otherwise lastTs becomes the timestamp and the result is exactly one `Update` with dt = ts - lastTs (0 when lastTs was 0): the player takes one gravity step, the score rises by the obstacles culled, the high score does not fall, a spawn happens exactly when due, the run continues exactly when nothing hits, and the ramp advances by that dt |
| Game.StartGame | game.js:256-274 | a start gives a valid running state with score 0, base speed, the player resting on the ground, no obstacles, lastSpawn 0, nextGap 850 and lastTs 0, and keeps the high score (raised to 0 if it was negative) |
| Game.Boot | game.js:22-38 | the state on page load (`Initial`: the player 40 pixels above the ground, no run, the stored high score), after the immediate start, is valid and running, with the stored high score (or 0 if it was negative) |
| Game.JumpPreservesValid | game.js:41-47 | jumping keeps the state invariant |
| Game.EndGamePreservesValid | game.js:276-279 | ending keeps the state invariant |
| Game.UpdatePreservesValid | game.js:200-235 | a frame keeps the player grounded, every obstacle on the ground with size in range, the speed within base and cap, the gap within [450, 980), the ramp timer below 1200 and the score at most the high score |
| Game.FramePreservesValid | game.js:243-249 | the frame loop keeps the state invariant |
| Game.FrameSpeedMonotone | game.js:229-234 | within a run the speed never decreases and never exceeds the cap |
| Game.EndedRunIsFrozen | game.js:243-244 | after the run ends, frames and jump presses change nothing |
| Game.FirstFrameAfterStart | game.js:243-249 | the first frame after a start has dt 0, so speed and ramp timer stay put and the player stays on the ground; the first obstacle appears in that frame as soon as the timestamp is at least 850 |
| Game.ContainedObstacleEndsRun | game.js:224-227 | an obstacle inside the player's box after the frame's moves ends the run |
| Game.StepPreservesValid | game.js:48-53 | `Step` applies one input (a key or canvas press calls `Jump`, an animation frame calls `Frame`, a retry click calls `StartGame`), and each input keeps the state valid and never lowers the high score |
| Game.RunPreservesValid | game.js:48-53 | over any input sequence applied in order by `Run`, restarts included, the state stays valid and the high score never decreases |

## Left out

- Canvas drawing (`drawBackground`, `drawPlayer`, `drawObstacles`, `render`) and the parallax offset. They only draw and do not change game state.
- DOM lookups, the score and high-score text, and the retry button's visibility. These are UI. Input is modelled as `Game.Input`: a jump press, a frame or a retry click. The source hides the retry button while a run is going, but its handler calls `startGame` without a guard, and `Retry` models that handler.
- `localStorage` and the `Number(...)` parse of the stored high score. This is persistence I/O. The high score is an integer field, and `Boot` takes the stored value as a parameter. A non-numeric stored value would give NaN in the source. That case is not modelled.
- `requestAnimationFrame` scheduling. One frame is one call to `Game.Frame`. A consequence is not modelled: a frame that ends the run still schedules one more callback. If retry is clicked before that callback fires, it sees a running game. Then two callback chains run at once.
- `Math.random`. The draws are passed in, with their ranges as preconditions. The obstacle hue is cosmetic and is not sampled.
- IEEE-754 rounding. The model uses exact reals (see above). Obstacle positions, spawn gaps and speeds can differ from the doubles in the last bits.
- NaN timestamps. `!lastTs` is modelled as `lastTs == 0`, which is the only falsy value a real number can take.
