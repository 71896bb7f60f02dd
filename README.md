# Platformer physics core, in Dafny

This project models the game logic of `script.js`, a one-player 2D platformer
that runs in the browser. One player box of 32×32 pixels moves inside a
rectangular container among static rectangular platforms. The model covers:

- **Geometry** (`geometry.dfy`): the bounding boxes of platforms and of the
  player (`getBounds`, `getPlayerBounds`) and the overlap test `isColliding`.
  Boxes that only share an edge do not overlap.
- **Physics** (`physics.dfy`): every stage of `updateGame` as a pure function
  over values. The stages run in this order:
  1. horizontal input;
  2. gravity;
  3. the vertical collision pass over the platforms, in order;
  4. the horizontal collision pass;
  5. the container clamp;
  6. the jump and double-jump rule;
  7. the animation state;
  8. the previous position.

  `FrameStep` composes the stages, and the lemmas state what one frame does.
- **Controls** (`controls.dfy`): the jump latch (`jumpPressed`, `canJump`)
  that the keydown and keyup handlers drive, and its edge triggering over any
  sequence of key events.
- **Clock** (`clock.dfy`): the minutes and seconds of the scoreboard,
  including JavaScript's truncating `%`.
- **Game** (`game.dfy`): class `Game`, whose fields are the script's
  module-level variables. Its methods update those fields in place, as the
  script does:
  - `updateGame`, with its two `forEach` loops as `while` loops;
  - the pause gate of `gameLoop`;
  - `togglePause` and `restartGame`;
  - the key handlers;
  - `updateScoreboard`.

  Each method is proved to compute the pure definition of its stage.
  `UpdateGame` is proved to leave the player's fields equal to
  `FrameStep(old state, ArrowLeft held, ArrowRight held, platforms, width, height)`.

Positions and velocities are `real`. Every constant of the script is exact in
binary: gravity 0.5, speed 4, jump strength −11, box size 32, spawn at x = 50,
5 pixels above the floor. Platform offsets are integers. Within the range a
game screen reaches, the script's floating-point arithmetic is therefore
exact, and `real` models it without rounding.

`updateGame` is one function in the script. The model splits it into methods
along the script's own section comments:
- `ApplyHorizontalInput`;
- `CheckVerticalCollisions` and `CheckHorizontalCollisions`, one for each `forEach`;
- `CheckContainerBounds`;
- `ApplyJump`;
- `UpdateAnimationState`.

`MoveAndCollide` runs the first half of the sections and `SettleFrame` the
second half. Their pure counterparts are `Move` and `Settle`. `UpdateGame`
reads the two arrow keys once at the start. This matches the script, because
nothing in `updateGame` writes `keysPressed`.

## Where the code differs from what a player would expect

The model follows the code. In five places the code does not do what one
would expect of a platformer with a double jump:

- **Blocked jump requests stay latched.** One would expect a jump request
  with no jump left to be dropped. The code clears `jumpPressed` only when
  the jump fires (script.js:261-271), so the request stays latched and fires
  on the first later frame that allows it.
  - `JumpRule` states this.
  - In `FrameStepJump`, a request still latched at the end of a frame implies
    that the player is in the air with the counter at 2.
- **The floor does not reset the double-jump counter.** One would expect the
  counter to be 0 whenever the player becomes grounded. The floor branch of
  the container clamp sets `onGround` but leaves `doubleJump` alone
  (script.js:243-247). `FrameStepFloorKeepsCounter` proves this for any
  platforms: when no jump is latched, a frame that reaches the floor ends
  with the counter it had before the clamp. A latched jump fires on the floor
  and sets the counter to 1 (script.js:261-265).
- **At most two jumps per airborne period does not hold.** A player who walks
  off a platform is in the air with the counter at 0. `doubleJump < 2` then
  stays true, and the air-jump branch leaves the counter at 0, so every request
  fires. `AirborneJumpsFromZero` proves that n requests give n jumps. The
  two-jump bound holds only after a ground jump
  (`AirborneJumpsAfterGroundJump`). `FrameStepAirborneJump` shows that a
  frame ending in the air changes the counter only through the jump rule.
  `AirborneRunJumps` carries both results over to whole runs of frames.
- **The horizontal pass never fires.** `currentPlayerBounds` is taken after
  the input step has already moved `playerX` (script.js:189). For each snap,
  the box edge must be past the platform's side while the same edge in
  `currentPlayerBounds` is not. That cannot happen (script.js:233, 235).
  - `HorizontalPassKeepsX` proves the pass never changes x.
  - `FrameStepX` proves that platforms never stop horizontal motion.
  - The player therefore does not stop at a platform's side, although the
    pass is evidently meant to stop it there.
- **The player can end a frame inside a platform.** As a consequence of the
  dead horizontal pass, the "no overlap after a frame" invariant fails.
  `FrameStepCanEnterPlatformSide` gives a concrete case:
  - the player is at (66, 110), falling from rest, and holds ArrowRight;
  - the only platform is 50 × 50 at (100, 100);
  - the player ends the frame at (70, 110.5), overlapping the platform.

## Model

| member | source | states |
|---|---|---|
| Geometry.GetBounds | script.js:60-69 | a platform's box has its offsets as top and left edges, bottom = top + height and right = left + width, and is well formed |
| Geometry.Colliding | script.js:82-89 | the boxes collide exactly when their open extents intersect on both axes, so boxes that only share an edge do not collide |
| Geometry.PlayerBounds | script.js:71-80 | the player's box has its top-left corner at (x, y), is 32 × 32 and well formed |
| Geometry.CollidingSymmetric | script.js:82-89 | the overlap test does not depend on the order of its arguments |
| Geometry.TouchingIsNotColliding | script.js:82-89 | boxes whose edges coincide on one axis are reported as not colliding, in either order |
| Geometry.CollidingIffCommonInterior | script.js:82-89 | for boxes of positive area, the test reports a collision exactly when some point lies strictly inside both boxes |
| Geometry.LandedPlayerTouches | script.js:208-209 | a player box placed at a platform's top minus 32 has its bottom on that top and does not collide with the platform |
| Geometry.BumpedPlayerTouches | script.js:204-205 | a player box placed at a platform's bottom has its top on that bottom and does not collide with the platform |
| Physics.HorizontalInput | script.js:166-177 | the player moves iff an arrow key is held; x changes by +4 for ArrowRight and −4 for ArrowLeft, so both keys cancel out; the player faces right iff ArrowRight is held or it faced right and ArrowLeft is not held |
| Physics.VerticalStep | script.js:202-214 | one platform of the pass: a platform the player can hit from below while rising stops it at the platform's bottom (Bump); a platform it can land on while falling or at rest puts it on the top (Land); anything else changes nothing |
| Physics.VerticalPass | script.js:200-215 | after the pass, velocityY is unchanged or 0; the counter is unchanged, or it is 0 and the player is grounded; a grounded flag is never cleared by the pass |
| Physics.LastLanding | script.js:208-212 | the index returned is −1 or a platform the player can land on, and no later platform can be landed on |
| Physics.FirstBump | script.js:203-207 | the index returned is −1 or a platform the player can hit from below, and no earlier platform can be hit from below |
| Physics.VerticalPassAppend | script.js:201-215 | the pass over two lists joined end to end is the pass over the first list, then the pass over the second |
| Physics.VerticalPassSplit | script.js:201-215 | the pass is the pass over the platforms before index c, then the step for platform c, then the pass over the rest |
| Physics.VerticalPassSingle | script.js:201-215 | the pass over one platform is that platform's step |
| Physics.VerticalPassFalling | script.js:201-215 | when velocityY ≥ 0, no ceiling hit happens; the last platform the player can land on puts it on that platform's top, with velocityY 0, grounded and the counter 0; with none, nothing changes |
| Physics.VerticalPassRisingMiss | script.js:201-215 | when velocityY < 0 and no platform can be hit from below, nothing changes |
| Physics.VerticalPassRising | script.js:201-215 | when velocityY < 0, the first platform that can be hit from below stops the player at its bottom with velocityY 0; after that, only a landing on a later platform can change the outcome, and the last such landing wins |
| Physics.HorizontalStep | script.js:230-239 | one platform of the horizontal pass: x is kept, or snapped to the platform's left side minus 32, or to its right side; when the two boxes share their horizontal edges, x is kept |
| Physics.HorizontalPass | script.js:229-240 | the pass returns x, or the snap position beside one of the platforms |
| Physics.HorizontalPassKeepsX | script.js:189-240 | when the box after the vertical move and the box before it share their horizontal edges, as they do in updateGame, the horizontal pass returns x unchanged |
| Physics.ClampY | script.js:242-252 | with a container at least 32 high, y ends inside [0, height − 32], and a y already inside is left alone. A y at or below the floor goes to height − 32, grounded, and only a downward velocity is zeroed. A y above the top edge goes to 0, the ceiling is hit, and only an upward velocity is zeroed. The player is grounded iff it was or it reached the floor; the counter never changes |
| Physics.ClampX | script.js:253-258 | with a container at least 32 wide, x ends inside [0, width − 32]; an x already inside is left alone; a negative x goes to 0; an x past width − 32 goes to width − 32 |
| Physics.JumpRule | script.js:260-271 | the latch is cleared iff the jump fires, and a refused request stays latched; a fired jump sets velocityY to −11, and the counter to 1 from the ground, 2 after 1 in the air, and unchanged otherwise; a refused request changes nothing |
| Physics.AirborneJumpsAfterGroundJump | script.js:260-271 | over successive applications of the jump rule in the air, each with a request, at most one jump fires after a ground jump (counter 1), and none after the air jump (counter 2); AirborneRunJumps carries this over to frames |
| Physics.AirborneJumpsFromZero | script.js:260-271 | over successive applications of the jump rule in the air with the counter at 0, each of n requests fires, so n jumps happen; AirborneRunJumps carries this over to frames |
| Physics.AnimationState | script.js:274-289 | run iff grounded and moving; idle1 iff grounded and not moving; jump iff in the air with velocityY < 0; fall iff in the air with velocityY ≥ 0 |
| Physics.Move | script.js:166-240 | the first half of a frame keeps the latch, the previous position and both animation labels; the facing follows the keys; velocityY is the old one plus gravity, or 0; the counter is kept, or it is 0 and the player is grounded |
| Physics.Settle | script.js:242-313 | the second half of a frame leaves x and y inside the container (when it is at least 32 × 32), sets the previous position to the new one, keeps the facing, records the old animation state as the previous one, and picks the new state from the final grounding and velocity |
| Physics.FrameStep | script.js:165-313 | one frame, the first half then the second: the previous position is the new one, the previous animation state is the old one, and the facing follows the keys. The lemmas below state the rest |
| Physics.FrameStepX | script.js:166-258 | after a frame, x is the old x ± 4 for the held keys, clamped to the container, and inside [0, width − 32] for a container at least 32 wide; prevX equals the new x |
| Physics.FrameStepY | script.js:242-313 | after a frame, y is inside [0, height − 32] for a container at least 32 high, and prevY equals the new y |
| Physics.MoveLands | script.js:180-217 | before the clamp, a falling player that can land on a platform rests on the last such platform, stopped and grounded, with the counter 0 and the latch untouched |
| Physics.FrameStepLanding | script.js:180-289 | a falling player that can land, with room below the floor, ends the frame on the last such platform, grounded and touching it without overlap. Its counter is 0, or 1 with velocity −11 if a latched jump fires at once, and it shows run or idle1 |
| Physics.FrameStepJump | script.js:260-271 | after a frame, a latched request on the ground fires (counter 1, velocityY −11); a cleared request means the jump fired; a latch is never set by the frame; a latch still set means the player is in the air with counter ≥ 2; a counter in 0..2 stays in 0..2 |
| Physics.FrameStepAirborneJump | script.js:180-271 | a frame that ends in the air leaves the counter as the jump rule in the air sets it, and clears a request exactly when that rule fires, so it is one step of the airborne jump count |
| Physics.AirborneRunJumps | script.js:180-271 | for any run of frames, each after a jump request, in which the player never lands, the jumps that fire are the airborne jump count: at most one after a ground jump, none after the air jump, and one per frame from counter 0 |
| Physics.FrameStepAnimation | script.js:274-289 | the state is chosen from the final grounding and velocity, so a ground jump still shows run or idle1; the previous state is the old state; the facing follows the keys |
| Physics.FrameStepCanEnterPlatformSide | script.js:189-240 | a concrete frame starts with no overlap and ends with the player box overlapping a platform |
| Physics.FrameStepFloorKeepsCounter | script.js:243-247 | with no latched jump, whatever the platforms, a frame whose first half ends at or below the floor grounds the player at height − 32, zeroes only a downward velocity and keeps the counter that the first half left |
| Physics.FrameStepFloorJumps | script.js:243-265 | with a latched jump, whatever the platforms, a frame whose first half ends at or below the floor grounds the player at height − 32, fires the jump, sets the counter to 1 and velocityY to −11, and clears the latch |
| Controls.OnKeyDown | script.js:317-321 | a jump is requested iff one already was, or the key is ArrowUp and the key was armed; ArrowUp disarms the key, other keys leave it as it was |
| Controls.OnKeyUp | script.js:330-333 | a pending request is kept; releasing ArrowUp re-arms the key |
| Controls.RequestsBoundedByReleases | script.js:317-334 | over any sequence of key events, the number of jump requests is at most the number of ArrowUp releases, plus one if the key starts armed |
| Clock.Scoreboard | script.js:124-135 | the display shows the score and lives as they are; its seconds lie strictly between −60 and 60 and agree with the whole seconds elapsed up to a multiple of 60 |
| Clock.Rem60 | script.js:129 | JavaScript's `% 60`: the remainder has the sign of the dividend, lies strictly between −60 and 60, and differs from the dividend by a multiple of 60 |
| Clock.ElapsedSeconds | script.js:127 | the whole seconds are the floor of the milliseconds divided by 1000 |
| Clock.ScoreboardSplitsSeconds | script.js:124-135 | from the start time on, minutes · 60 + seconds equals the whole seconds elapsed, with seconds in 0..59 and minutes ≥ 0; score and lives are shown as they are |
| Clock.ScoreboardBeforeStart | script.js:124-129 | before the start time, the minutes are negative and the seconds in −59..0, and the display is a minute short unless the seconds are a whole minute |
| Platformer.Game.constructor | script.js:7-40 | the initial state: running and not paused, score 0, 3 lives, the player at x = 50, 5 above the floor, at rest, facing right, idle1, counter 0, latch clear and armed, no key held |
| Platformer.Game.UpdateGame | script.js:165-313 | the player's fields become FrameStep of their old values with the two arrow keys as held, and the counter stays within 0..2 |
| Platformer.Game.MoveAndCollide | script.js:166-240 | the fields become Move of their old values; the moving flag is set iff an arrow key is held |
| Platformer.Game.SettleFrame | script.js:242-313 | the fields become Settle of their old values, and the counter stays within 0..2 |
| Platformer.Game.ApplyHorizontalInput | script.js:166-177 | x, the facing and the moving flag are HorizontalInput of the old x and facing |
| Platformer.Game.CheckVerticalCollisions | script.js:200-215 | the loop leaves projectedY, velocityY, onGround, hitCeiling and the counter equal to VerticalPass over all platforms; the counter is unchanged or 0 |
| Platformer.Game.CheckHorizontalCollisions | script.js:229-240 | the loop leaves playerX equal to HorizontalPass over all platforms |
| Platformer.Game.CheckContainerBounds | script.js:242-258 | y, velocityY, onGround and hitCeiling become ClampY of their old values, and x becomes ClampX |
| Platformer.Game.ApplyJump | script.js:260-271 | velocityY, the counter and the latch become JumpRule of their old values |
| Platformer.Game.UpdateAnimationState | script.js:274-289 | the previous state is the old current state, and the current state is AnimationState |
| Platformer.Game.Tick | script.js:139-163 | while paused or stopped, no player field changes; otherwise the fields take one FrameStep. The scoreboard is computed from the clock reading after that |
| Platformer.Game.UpdateScoreboard | script.js:124-136 | the display shows the score and lives, and from the start time on, its minutes and seconds split the whole seconds elapsed |
| Platformer.Game.TogglePause | script.js:91-99 | paused is negated and nothing else changes, so two toggles restore it |
| Platformer.Game.RestartGame | script.js:101-122 | the player goes back to x = 50, 5 above the floor, at rest, idle1, facing right, with score 0, 3 lives, the new start time, not paused. Its frame keeps the counter, the latch, the previous position and the grounded flag |
| Platformer.Game.KeyDown | script.js:317-328 | the latch becomes OnKeyDown; Escape toggles pause; the key becomes held and every other key is held as before |
| Platformer.Game.KeyUp | script.js:330-334 | the latch becomes OnKeyUp; the key becomes released and every other key is held as before |

## Left out

- DOM access and rendering are not modelled:
  - element lookup, layout offsets and CSS classes;
  - the sprite transform and its offsets;
  - the pause menu's markup and its display toggling (script.js:1-4, 43-57, 93-98, 112-118, 291-309).

  Platforms and the container size are plain inputs to the constructor.
- Scheduling is not modelled: `requestAnimationFrame`, `Date.now()` and `performance.now()`. One tick is one call of `Tick`, and the clock reading is a parameter of `Tick`, `UpdateScoreboard`, `RestartGame` and the constructor.
- `lastTime`, `deltaTime`, `frameCount` and `fps` are not modelled. The FPS block can never run, because `lastTime` is set to the timestamp just before the test. `updateGame` never reads `deltaTime`.
- `isPlayerGrounded` is not modelled: it is declared but never read or written.
- The scoreboard's string formatting is not modelled: `padStart` and the HTML text. The model keeps the integer minutes, seconds, score and lives that the text shows.
- Listener registration and the pause-menu buttons are not modelled (script.js:336-351). Only the handler bodies are: the buttons call `togglePause` and `restartGame`, which are modelled.
- Floating-point rounding is not modelled: positions and velocities are exact reals. With the script's constants, doubles stay exact for any position a game screen can hold.
