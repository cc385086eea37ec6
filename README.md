# Catch-the-ball game controller

A Dafny model of the game logic of a browser game driven by pose tracking. On
every video frame a pose detector reports the player's wrists. Two balls sit on
the video. The left wrist catches the left ball and the right wrist catches the
right ball. A caught ball disappears and respawns at a random position on the
next frame. Two variants of the same loop are modelled.

- `src/main.js`, the full game.
  - The left ball carries a one-shot expiry timer. The timer is armed each time
    the ball respawns and cleared when the ball is caught.
  - When the timer fires, the ball's position becomes an "exploded" marker.
    At most three markers are recorded, and each frame draws the recorded ones.
    The left ball then respawns.
  - A periodic callback moves the right ball.
- `src/index.js`, the earlier game. It has the same catch-and-respawn loop, with
  no timer and no markers. Its balls start at fixed positions.

Module `Playfield` (playfield.dfy) holds what both variants share:
  - positions;
  - the wrists of a pose, with the sentinel `(-1, -1)` used when no pose is found;
  - the draw calls;
  - the catch test `BallInBoundary`, which is written identically in both files.

Module `TimedGame` (timed_game.dfy) models `src/main.js`. Module `BasicGame`
(basic_game.dfy) models `src/index.js`. Each variant has the same two layers:
  - a value `State` with one pure function per callback, which states what the
    callback does;
  - a class `Controller` whose fields are the module-level variables. Its
    methods update those fields step by step, as the source does, and are
    proved equal to the functions.

`TimedGame` also models the page's single thread as a sequence of callbacks:
frames, timer firings and interval firings. Over any such sequence it proves:
  - at most one expiry timer is ever pending;
  - a timer is pending exactly when the left ball is live (its flag is 0);
  - the exploded markers are the left ball's positions at the first three
    expiries, in order.

Timers are modelled as JavaScript has them. `setTimeout` adds a pending timer
with a fresh handle and never cancels an earlier one. `clearTimeout` cancels
only the handle it is given, so cancelling an already fired or cleared timer
does nothing. The source keeps only the last handle in `timeoutID`. The "one
timer" invariant is therefore a real property of how the code orders arming and
clearing, not a consequence of the model.

The sentinel wrist `(-1, -1)` is an ordinary point to the catch test. It cannot
catch a ball that lies at least 9 units from the origin along either axis
(`NoPoseMisses`). It does catch a ball spawned within 9 units of the top-left
corner along both axes, for example one at `(0, 0)`
(`NoPoseCatchesCornerBall`). The model keeps this behaviour of the code.

Both files use `radius = 10` as the half-width of the catch box. Neither file
has hand/ball cross checks, a game end after the third expiry, network events or
a stopwatch.

Coordinates are `real`. `Math.random() * VIDEO_WIDTH` gives a position in
`[0, width) x [0, height)` (`InVideo`). Random spawn positions and the detector's
result are parameters of each callback. The 0/1 catch flags are booleans.

## Model

| member | source | states |
|---|---|---|
| Playfield.BallInBoundary | src/main.js:266-275 | a catch happens iff the wrist is strictly less than `radius` from the ball on both axes, so the box is open; the same test is at src/index.js:234-243 |
| Playfield.EdgeIsNoCatch | src/index.js:234-243 | a wrist exactly on any edge of the box is not a catch |
| Playfield.Wrists | src/main.js:188-202 | keypoints 9 and 10 of the first pose, or `(-1,-1)` for both hands without one; the same block is at src/index.js:178-192 |
| Playfield.NoPoseMisses | src/main.js:188-202 | without a pose both wrists are `(-1,-1)`, and neither catches a ball whose x or y is at least `radius - 1` |
| Playfield.NoPoseCatchesCornerBall | src/main.js:188-202 | the bound is tight: without a pose the sentinel wrist catches a ball at `(0,0)`, a position inside any non-empty video |
| TimedGame.Inv | src/main.js:40-55 | the invariant between callbacks: at most one expiry timer is pending, one is pending exactly when the left flag is 0, and it is the one in `timeoutID`; the last handle issued is below the next one; a live ball and every recorded marker lie inside the video; the count is at most 3 |
| TimedGame.Init | src/main.js:40-55 | the initial state has both flags set, no markers and no pending timer, and satisfies the invariant `Inv` |
| TimedGame.Respawn | src/main.js:206-220 | a caught left ball moves to its spawn position and arms a new timer under a fresh handle stored as `timeoutID`; a caught right ball moves with no timer; both flags end at 0; a live ball keeps its position and the timers; markers are untouched; `Inv` is preserved, leaving exactly one pending timer |
| TimedGame.ExplodedDraws | src/main.js:222-242 | one marker is drawn per recorded slot, `min(numOfExplodedBall, 3)` in all, in slot order, each at its recorded position |
| TimedGame.ResolveCatches | src/main.js:246-263 | a left catch sets the flag, cancels the timer in `timeoutID` and suppresses the draw; a miss draws the ball where it is and changes neither flag nor timers; the right ball is tested only against the right wrist, with no timer; locations and markers are unchanged; `Inv` is preserved |
| TimedGame.TickStep | src/main.js:188-263 | after a tick, each ball is at its spawn position if it was caught before, else where it was; its flag is set iff its own wrist is inside its box; no timer is pending iff the left flag is set; the draws are the markers, then the uncaught balls, left first; `Inv` is preserved |
| TimedGame.Expire | src/main.js:277-297 | the fired timer stops being pending and the left flag is set in every case; below three markers the count grows by one and the left ball is drawn as a marker; at three nothing is recorded or drawn; under `Inv` no timer is left and the ball was live |
| TimedGame.ExpireRecordsMarker | src/main.js:279-294 | the left ball's position is appended to the markers while fewer than three are recorded; the earlier ones are kept, and at three the markers stay as they are |
| TimedGame.Relocate | src/main.js:319-322 | the interval moves the right ball and changes nothing else: no flag, no timer, not the left ball, no marker |
| TimedGame.FiredTimerFindsLiveBall | src/main.js:206-253 | under `Inv` a timer that fires finds the left flag at 0 and is the timer armed last, so it is never stale |
| TimedGame.Step | src/main.js:299-322 | each of the three callbacks that share the page's thread (a frame, an expiry, the interval) preserves `Inv` |
| TimedGame.Run | src/main.js:299-322 | `Inv` holds after every admissible sequence of callbacks |
| TimedGame.StepMarkers | src/main.js:277-297 | only an expiry changes the markers, and it appends the left ball's position up to three |
| TimedGame.MarkersAreFirstExpiries | src/main.js:277-297 | after any sequence of callbacks the markers are the first three of the earlier markers followed by the left ball's positions at each expiry |
| TimedGame.Reachable | src/main.js:206-297 | in every state reachable from the start: at most one timer is pending; one is pending iff the left ball is live; the count is at most 3; the markers are the left positions at the first three expiries |
| TimedGame.Controller.constructor | src/main.js:40-55 | the fields start as `Init` |
| TimedGame.Controller.SetTimeout | src/main.js:210 | `setTimeout` adds a pending timer under a fresh handle |
| TimedGame.Controller.ClearTimeout | src/main.js:252 | `clearTimeout` removes that handle from the pending timers; it is a no-op for a fired or cleared timer |
| TimedGame.Controller.RespawnCaught | src/main.js:206-220 | the in-place respawn equals `Respawn` |
| TimedGame.Controller.DrawExploded | src/main.js:222-242 | the draw calls equal `ExplodedDraws` |
| TimedGame.Controller.CatchOrDraw | src/main.js:246-263 | the in-place catch step equals `ResolveCatches` |
| TimedGame.Controller.Tick | src/main.js:153-263 | one `renderResult` call leaves the fields and returns the draws of `TickStep`, and keeps `Valid()` |
| TimedGame.Controller.FireExpiry | src/main.js:277-297 | `setExplodedBall` run by a pending timer leaves the fields and the draws of `Expire`, and keeps `Valid()` |
| TimedGame.Controller.RelocateRight | src/main.js:319-322 | the interval callback leaves the fields of `Relocate`, and keeps `Valid()` |
| BasicGame.BallTick | src/index.js:196-231 | one ball on its own: it is at its spawn position if it was caught and keeps its location otherwise, and it is caught again iff its wrist is inside its box at that position |
| BasicGame.TickStep | src/index.js:178-231 | a ball flagged at tick start moves to its spawn position, inside the video; an unflagged one keeps its location; at the end of the tick a flag is set iff that ball was caught in the tick; only uncaught balls are drawn, at their locations, left first |
| BasicGame.TickIsTwoIndependentBalls | src/index.js:215-231 | the tick is two independent `BallTick`s, the left one with keypoint 9 and the right one with keypoint 10; neither ball's outcome depends on the other ball, its spawn or its wrist |
| BasicGame.Controller.constructor | src/index.js:40-45 | both flags start at 0, the left ball at (600,200) and the right ball at (200,200) |
| BasicGame.Controller.Tick | src/index.js:143-232 | one `renderResult` call leaves the fields and returns the draws of `TickStep` |

## Left out

- Pose detection (`createDetector`, `checkGuiUpdate`, `detector.estimatePoses`): its result is a parameter. It is either the wrists of the first pose or `None`. `None` covers no pose, an empty result, an error the detector raised, and a model change in progress.
- Camera setup, `drawCtx`, `drawResults` and the internals of the draw calls (src/camera.js): only the three game draw calls and their positions are recorded.
- Timing statistics (`beginEstimatePosesStats`, `endEstimatePosesStats`), `requestAnimationFrame` and the wait for `readyState`: each tick is one call.
- `Math.random`: spawn and relocation positions are parameters, required to lie in `[0, width) x [0, height)`.
- Timer durations (5000 ms for the expiry and for the interval): a timer either fires or does not. Any pending timer may fire between two callbacks.
- `VIDEO_WIDTH` and `VIDEO_HEIGHT`: params.js is not part of this model, so the video size is a constructor argument.
- Floating point: coordinates are exact reals, so the rounding of `x - radius` and `x + radius` is not modelled.
- The `console.log` call in `setExplodedBall`, and the events, stopwatch and game end that these two files do not contain.
