# BunnyHop runner, modelled in Dafny

BunnyHop is a browser side-scroller in one file, `main.js`. The player runs
right over a green ground strip and brown platforms, jumps, and dies on
touching a black obstacle. Underneath the canvas drawing and the DOM
wiring is a small per-frame simulation, and that is what this project
models. Each frame does the following:

- it scrolls the world under a player who is past mid-screen;
- it generates platforms and obstacles ahead of the spawn frontier
  `platformSpawnX`;
- it widens the ground;
- it integrates gravity and velocity;
- it lands the player on platforms;
- it prunes rectangles that have left the screen on the left;
- it tests the obstacles and recomputes the score.

The whole mutable state of `main.js` is one immutable `World` value. One
call of `gameLoop` is the pure function `Session.Tick`. Each
`Math.random()` value is a parameter of type `Unit`, a real in [0, 1).

Modules, in dependency order:

- `Entities`: the canvas constants, the `Rect`, `Player` and `World` records, strict box overlap, and the player's inset hit box.
- `Generator`: `generateNewPlatform`, `generateNewObstacle`, their ground-avoiding do-while loops, and the frontier loop of `gameLoop`.
- `Physics`: the scroll section (scroll, frontier, ground extension), the left clamp, the integration step, the floor clamp, and pruning.
- `Collision`: the landing pass, and the death pass `checkForObstaclesCollision` with `gameOver`.
- `Session`: the page-load state, `startGame`, the animation timer and sprite-cell choice of `drawPlayer`, one tick, and the invariant every reachable world keeps.
- `Input`: the key handlers, the hit tests of `restartOrExit`, and the click outcome.

A do-while loop that redraws `y` until it misses the ground band is
modelled as a finite sequence of draws that contains an accepted one. The
loop settles on the first accepted draw. The frontier loop takes one
record of draws per pass, as the function `draws: nat -> SpawnDraws`. The
loop terminates because every pass moves the frontier at least 100
further, which is the measure Dafny checks.

Points where the code's behaviour is easy to misread, and which the model
follows as written:

- The left clamp runs before integration. A player walking left at the
  screen edge therefore ends the frame at x = -5 (`Session.LeftEdgeOvershoot`).
- The ground widens when its end `groundExtendX` falls inside the viewport
  `offsetX + 800`, not when the spawn frontier reaches it.
- `startGame` leaves `direction`, `frameIndex` and `frameTimer` as they
  were. A restart is therefore the page-load state only up to those three
  fields (`Session.StartGame`).
- The click listener is registered by the first `gameOver` and never
  removed. Before the first game over a click does nothing. After it, a
  click on "Yes" restarts and a click on "No" closes the window, even in a
  live game (`Input.Click`).
- `platformSpawnX` counts distance travelled, yet a new rectangle is placed
  at that value as a screen x coordinate. In a reachable world, every new
  rectangle starts at least the distance travelled so far beyond the right
  edge of the screen (`Session.SpawnsBeyondViewport`).

## Model

| member | source | states |
|---|---|---|
| Generator.StopIndex | main.js:114-116 | The do-while loop stops at a draw whose sample misses the ground band, and every earlier draw hit it. |
| Generator.RedrawY | main.js:114-116 | The settled y is 200·u+150 for the first draw u the loop accepts, so it misses the ground band and lies in [150, 350). |
| Generator.GeneratePlatform | main.js:109-124 | Exactly one platform is appended, the existing ones are kept, and nothing else changes but the frontier. The new platform is brown, 20 high, 50 to 150 wide, at x equal to the old frontier, with a ground-safe y. The frontier advances by an amount in [100, 250). |
| Generator.ObstacleCandidate | main.js:128-138 | The proposed obstacle is black, 20 high, 30 to 80 wide, at the frontier, with a ground-safe y in [150, 350). |
| Generator.AnyOverlap | main.js:141-152 | The scan over the platforms reports an overlap exactly when some platform strictly overlaps the candidate; touching edges do not count. |
| Generator.GenerateObstacle | main.js:127-158 | If the candidate strictly overlaps a platform, the world is unchanged. Otherwise the candidate is appended and the frontier advances by an amount in [50, 150). Platforms and everything else are untouched in both cases. |
| Generator.SpawnOnce | main.js:269-272 | One pass of the loop appends one fresh platform at the old frontier, and keeps the old entries. It then appends an obstacle exactly when the obstacle candidate, drawn after the platform has moved the frontier, overlaps none of the platforms including the new one; otherwise no obstacle is added. A placed obstacle is exactly that candidate and moves the frontier a further [50, 150); a rejected one leaves the frontier where the platform put it. In all, the frontier advances by an amount in [100, 400). |
| Generator.Frontier | main.js:269-272 | The loop ends with the frontier at or past offsetX + 800. It changes nothing if the frontier was already there. Otherwise it adds at least one platform and stops before offsetX + 1200. It keeps existing entries as prefixes. It adds at least 100 of frontier per platform, and at most one obstacle per platform. Every added rectangle is fresh and ground-safe. Every added platform lies left of offsetX + 800, because each pass starts with the frontier inside the viewport. Added obstacles overlap none of the earlier platforms. |
| Generator.FrontierInView | main.js:269-270 | If a pass starts inside the viewport and places its platform at the frontier, and the rest of the loop adds platforms only inside the viewport, then every platform the whole loop adds lies inside the viewport. |
| Physics.ScrollBy | main.js:262-266 | The offset grows by s. The player and every platform and obstacle move left by exactly s, and nothing else changes. |
| Physics.ExtendGround | main.js:274-278 | Past the ground's end, the extent grows by exactly 800 and the ground's width becomes the new extent. Otherwise nothing changes. Other platforms are untouched either way. |
| Physics.ScrollAndFill | main.js:259-272 | After scrolling by s and running the frontier loop, the offset is up by s and the frontier is at or past the viewport. Old rectangles are shifted by exactly s. New ones are fresh at or beyond the old frontier, and new platforms lie left of the viewport's end. Nothing is added when the frontier was already past the scrolled viewport. |
| Physics.Advance | main.js:258-280 | Outside scroll mode (x ≤ 400 or dx ≤ 0) the world is untouched. In scroll mode the offset grows by dx and the player moves left by dx. The frontier ends past the viewport and never moves back. The ground extent grows by one step of 800 exactly when it ended before offsetX + 800 after the scroll, and then the ground is as wide as its extent; otherwise it stays. Nothing is generated when the frontier already lies past the scrolled viewport. |
| Physics.AdvanceShifts | main.js:259-266 | In scroll mode every old platform and obstacle moves left by exactly dx. The ground keeps its other fields and changes width only when the extent grows. |
| Physics.AdvanceFresh | main.js:269-272 | In scroll mode every rectangle the frontier loop adds is fresh relative to the frontier before the frame and to the ground, and every added platform lies left of the end of the scrolled viewport. |
| Physics.ClampLeft | main.js:283-285 | The player's x becomes max(x, 0): a negative x is set to exactly 0, and a player already at x ≥ 0 is unchanged. Nothing but x changes. |
| Physics.Integrate | main.js:288-290 | dy grows by exactly the gravity 0.5. x grows by dx, and y by the new dy. |
| Physics.FloorClamp | main.js:293-297 | The player's bottom ends at or above 400. A player below it is put on the bottom with dy = 0 and not jumping, and any other player is unchanged. |
| Physics.Move | main.js:282-297 | After the clamp, the integration and the floor clamp, x equals max(x, 0) + dx and the bottom is at or above 400. It is stated for both outcomes of the floor test. |
| Physics.Prune | main.js:333-334 | The result is a subsequence of the input, so order is kept and no element is modified. Every survivor has x + width > 0. Every rectangle with x + width > 0 occurs exactly as often as in the input. |
| Physics.PruneKeepsVisibleHead | main.js:333 | A visible first rectangle survives pruning and stays first. |
| Collision.LandOn | main.js:313-329 | When the inset box strictly overlaps the platform, the player is falling, and the box's bottom was at or above the top before the step, the bottom ends exactly on the platform's top with dy = 0 and not jumping. Otherwise the player is unchanged. |
| Collision.RestingLandsNowhere | main.js:325 | A player that is not falling is left unchanged by any platform. |
| Collision.Land | main.js:307-331 | If no platform catches the player, the landing pass leaves it unchanged. It only ever changes y, dy and jumping. |
| Collision.LandOnFirst | main.js:307-331 | The landing pass lands the player on the first platform that catches it, and no later platform changes the result. So there is at most one landing per frame. |
| Collision.LandOutcome | main.js:319-329 | Either no platform catches the player and it is unchanged, or it rests on one that caught it: bottom on that platform's top, dy = 0, not jumping. |
| Collision.GameOver | main.js:186-187 | gameOver sets the flag and registers the click listener, and changes nothing else. |
| Collision.CheckEach | main.js:161-183 | The death pass ends in the game-over world exactly when some obstacle strictly overlaps the inset box. Otherwise the world is unchanged. |
| Collision.CheckObstacles | main.js:161-183 | The flag is set afterwards exactly when it was set before or some obstacle overlaps the inset box. No overlap leaves the world unchanged. |
| Session.StartGame | main.js:225-241 | A restart gives the page-load world: player at (50, 250) at rest and not jumping, the three starting platforms, no obstacles, offset 0, frontier 800, ground 800, score 0, not over. Only facing, animation frame and timer, and the click listener are carried over. |
| Session.RestartForgetsHistory | main.js:225-241 | Two worlds that agree on the fields startGame keeps restart to the same world, and restarting twice is restarting once. |
| Session.Animate | main.js:91-95 | Each frame advances the timer by one. On reaching 12 the timer resets to 0 and the frame index flips between 0 and 1. Nothing else changes. |
| Session.AnimationHolds | main.js:91-95 | While the timer stays below 12, n frames add n to it and leave the frame index alone. |
| Session.AnimationFlips | main.js:91-95 | The frame that brings the timer to 12 flips the frame index and resets the timer. |
| Session.AnimationPeriod | main.js:91-95 | From a reset timer the frame index holds for 11 frames and flips on the 12th. |
| Session.SpriteCell | main.js:77-97 | Read off the player after the animation step: row 1 is shown in the air or falling, rows 3 and 2 when running right and left, and row 0 when standing. The column is the updated frame index, offset by 2 for every row but 0. |
| Session.RunningRowFollowsKeys | main.js:83-85 | In a reachable world on the ground, running right shows row 3 and running left shows row 2. |
| Session.Resolve | main.js:282-351 | After the scroll section, the player is moved, landed and animated, and both collections are pruned. The score equals offsetX / 10. The game is over exactly when it already was or the pruned obstacles hit the new player. A new game over registers the click listener, and a registered listener is never removed. |
| Session.Tick | main.js:253-352 | A finished game changes nothing. A running one ends with score = offsetX / 10, and is over afterwards exactly when an obstacle overlaps the player's new hit box. A new game over registers the click listener, and a registered listener stays registered. |
| Session.GroundMultipleStep | main.js:276 | Adding one 800 step keeps the ground extent a whole positive multiple of 800. |
| Session.InitialInv | main.js:10-43 | The page-load world `Session.Initial` (player at (50, 250) at rest, the three starting platforms, no obstacles, offset 0, frontier and ground 800, no listener) satisfies the invariant: ground first and as wide as its extent, extent and frontier past the viewport, and player in range. |
| Session.StartGameInv | main.js:225-241 | A restart from any reachable world satisfies the invariant. |
| Session.AdvanceInv | main.js:258-280 | The scroll section keeps the course invariant and the player invariant, and never decreases the offset. |
| Session.AdvanceGround | main.js:274-278 | In scroll mode the ground extent stays a whole multiple of 800 and at or past the end of the viewport. |
| Session.SpawnsBeyondViewport | main.js:119-121 | Every rectangle generated in a frame starts at or beyond offsetX + 800, measured with the offset before the frame. |
| Session.LeftEdgeOvershoot | main.js:283-289 | A player at or left of the edge and running left ends the frame at x = -5. |
| Session.LandNeverLowers | main.js:325-328 | The landing pass never moves the player down. |
| Session.PlayerStepOk | main.js:282-331 | Moving, landing and animating keep the player invariant. Speed and facing are as the keys set them, x ≥ -5, the bottom is at or above 400, and the counters are in range. |
| Session.ResolveCourse | main.js:333 | Pruning keeps the ground first, so the course invariant survives the rest of the frame. |
| Session.ResolvePlayer | main.js:282-348 | The rest of the frame keeps the player invariant. |
| Session.ResolveInv | main.js:282-351 | The rest of the frame restores the whole invariant, including score = offsetX / 10 and game over implying a registered listener. |
| Session.TickInv | main.js:253-352 | Every frame keeps the invariant. |
| Session.TickMonotone | main.js:262-276 | A frame never decreases the offset or the frontier. The ground extent stays or grows by exactly 800. |
| Session.TickScrolls | main.js:259-290 | In scroll mode the offset grows by exactly dx. The player's x ends at max(x - dx, 0) + dx, which is its starting x when dx ≤ x. |
| Session.TickStill | main.js:259-290 | Outside scroll mode offset, frontier and ground stay put and the rectangles are only pruned. x ends at max(x, 0) + dx. |
| Session.GroundNeverPruned | main.js:275-277 | In a reachable world the ground survives every frame as the first platform, green, visible, and as wide as the ground extent. |
| Input.KeyDown | main.js:53-64 | Right and left set speed ±5 and the matching facing, and leave dy and jumping alone. Space starts a jump (dy = -12) unless already jumping, and leaves speed and facing alone. Nothing happens after game over or for other keys, and no other field changes. |
| Input.KeyUp | main.js:66-71 | Releasing either arrow stops the player and clears the facing, even after game over. Other keys change nothing. |
| Input.KeysKeepInv | main.js:53-71 | Key events keep the invariant. |
| Input.ClassifyMatchesButtons | main.js:194-220 | The hit tests of `Input.Classify` for "Yes" and "No" are exactly the drawn button rectangles, edges included, and no click is inside both. |
| Input.Click | main.js:205-222 | With no listener a click does nothing. With the listener, "Yes" restarts, "No" closes the window, and anywhere else does nothing, game over or not. |
| Input.ClickKeepsInv | main.js:213-216 | A click that does not close the window keeps the invariant. |

## Left out

- Canvas drawing is not modelled: `drawRect`, the `drawImage` call, the prompt and buttons of `gameOver`, `displayScore`, `clearRect`. It has no effect on the state.
- `requestAnimationFrame` and DOM listener registration and dispatch are not modelled. `Tick` is one call of `gameLoop`, and the handlers are pure updates applied between ticks.
- The trailing `gameLoop()` call in `startGame` is left to the driver as its next `Tick`.
- Two loops can run interleaved when "Yes" is clicked during a live game. That is event-dispatch concurrency and is not modelled.
- `window.close()` is only reported as the `CloseWindow` outcome.
- Image loading and the sprite sheet's pixel size are not modelled. The sprite choice is a row and column of the 4 by 4 sheet.
- `Math.random()` becomes `Unit` parameters. The `Math.random() < 2` coin always passes, so its draw is not recorded.
- The do-while loops are given draw sequences that contain an accepted draw. A loop that never stops is outside the model.
- IEEE-754 rounding is not modelled: coordinates are exact reals, and the code only adds, multiplies by constants and compares.
- The `collisionBox` at main.js:300-305 is never read and is not modelled.
- `Math.floor` in the score display is not modelled, since it is drawing only.
- Generator.Frontier: new obstacles are stated apart only from the platforms present before the loop. The pass-by-pass statement, which includes platforms added in the same loop, is on `Generator.SpawnOnce`.
- Session.Tick: requires a first platform whenever the frame reads it (scroll mode with the frontier or ground end inside the viewport). Without one, `main.js` would throw a TypeError; the invariant guarantees it.
