# Asteroids game: per-tick motion, verified in Dafny

This project models the motion arithmetic of a small browser arcade game
(`app.js`). A ship rotates, thrusts and wraps around the screen edges. A
fixed wave of asteroids is spawned from random draws, placed away from the
centre of the screen, and bounces off the screen edges on every tick.
Drawing, DOM wiring and timers are left out. What remains is the state the
game keeps and how each call changes it. That is stated exactly over Dafny
`real` and proved.

The model follows the objects of the source:

- `js.dfy` (module `Js`): the JavaScript values that reach the game's
  methods (`undefined`, numbers, NaN, strings), truthiness, `typeof ...
  === "number"`, the range of `Math.random()`, and `Math.floor` and
  `Math.ceil`.
- `geometry.dfy` (module `Geometry`): the frame rate `FPS`, `Math.PI`, the
  canvas size `Screen`, and `distanceBetweenPoints`. The square root is not
  computed. A distance is any `d >= 0` whose square is the squared
  distance, and `DistanceBelow` shows that comparing squares decides the
  source's `distance < t` test.
- `ship.dfy` (module `Ship`): class `Player`, with the fields `rotate` and
  `thrust` update in place. The pure parts are `RotationStep`,
  `ThrustDelta` (the `switch` on the arrow key) and `Wrap` (the screen wrap
  on one axis). `Player.Valid()` says the ship is on the screen extended by
  its radius.
- `asteroids.dfy` (module `Asteroids`): class `Asteroid`. It has the spawn
  functions for lives, radius and velocity. `#setCoords` is `SetCoords`.
  `#isOffXBounds` and `#isOffYBounds` are `IsOffXBounds` and `IsOffYBounds`.
  The placement loop is in the constructor, and the motion half of `draw`
  is `Draw`. Motion along one axis is the pure `BounceStep`.
  `Asteroid.Valid()` includes the invariant `Contained`: on each axis the
  asteroid is inside the screen, or it was inside on the previous tick.
  Because of that invariant the bounce never lets an asteroid escape.
- `game.dfy` (module `Game`): class `App`. It holds the construction of the
  ship and the wave, `#drawAsteroids`, the tick `#update`, and the bodies of
  the keydown and keyup listeners.

Outside inputs are parameters:

- `Math.cos` and `Math.sin` are passed in as functions `real -> real` and
  applied to the ship's `angle`.
- The draws `Math.random()` would return are passed in as data:
  `CoordDraw` and `SpawnDraws`.
- The canvas size is a `Screen` fixed when the game starts.

Facts about the code that a reader might not expect:

- The Y velocity of a new asteroid is exactly `1` or `-1`. In
  `app.js:148-149`, `*` binds tighter than `<`, and `<` binds tighter than
  `?:`. So the random magnitude only feeds the comparison, and the
  conditional gives `1` or `-1` (`SpawnVelocityY`).
- A lives draw of exactly 0 gives 0 lives and radius 0, because
  `Math.ceil(0) = 0` (`SpawnLives`, `SpawnRadius`).
- `rotate` turns the heading once per call. The heading changes only when a
  `keydown` event for `z` or `c` arrives (and again for each repeated
  `keydown` while the key is held). The tick never calls `rotate`, so the
  `rotation` field is never applied per tick.
- The screen wrap moves the ship to the opposite edge plus the margin and
  drops any overshoot. So it is not a modular wrap: the new position is not
  congruent to the old one modulo the width of the wrap.
- On a 400 by 400 canvas, no position passes the placement test for an
  asteroid with four lives, so the source's placement loop never exits
  there (`NoPlacementOnSmallScreen`). On a canvas at least 600 wide and at
  least twice the asteroid's radius tall, a position passes for any number
  of lives (`PlacementOnLargeScreen`).
- Collisions, projectiles, lives of the ship, scoring, levels,
  invulnerability and the leaderboard are not in this file.

## Model

| member | source | states |
|---|---|---|
| `Js.Floor` | app.js:202-203 | `Math.floor(r)` is the integer `n` with `n <= r < n + 1` |
| `Js.Ceil` | app.js:145 | `Math.ceil(r)` is the integer `n` with `n - 1 < r <= n` |
| `Js.Truthy` | app.js:64 | the `if (direction ...)` test: `undefined`, `0`, NaN and the empty string are false, every other value is true |
| `Js.IsNumber` | app.js:64 | `typeof direction === "number"`: true for numbers, NaN included, and false for `undefined` and strings |
| `Geometry.DistanceSquared` | app.js:22-23 | the squared distance between two points is never negative |
| `Geometry.DistanceBelow` | app.js:152-159 | the distance, as the non-negative root of the squared distance, is below `t` exactly when `t > 0` and the squared distance is below `t * t` |
| `Geometry.IsDistance` | app.js:22-23 | `d` is what `distanceBetweenPoints` returns: the non-negative number whose square is `(x2 - x1)² + (y2 - y1)²` |
| `Ship.IsArrow` | app.js:14-19 | the key is one of `ArrowUp`, `ArrowDown`, `ArrowLeft` and `ArrowRight`, the names the `keys.arrows` table holds |
| `Ship.RotationStep` | app.js:69 | the rotation one call of `rotate(direction)` sets: `rotationSpeed * direction / 180 * PI / FPS` radians |
| `Ship.IsArrowValue` | app.js:76-111 | the `direction` argument matches a case of the `switch` in `thrust`: a string equal to one of the four arrow names, since `switch` compares strictly |
| `Ship.ThrustDelta` | app.js:76-112 | a direction that matches none of the four arrow names adds nothing to the thrust vector |
| `Ship.OppositeArrowsCancel` | app.js:77-111 | the ArrowDown push is the exact negation of the ArrowUp push, and ArrowRight of ArrowLeft, for any cosine and sine |
| `Ship.StrafeIsPerpendicular` | app.js:77-111 | the ArrowLeft push is at a right angle to the ArrowUp push |
| `Ship.ArrowThrustLength` | app.js:77-111 | when `cos² + sin² = 1`, every arrow push has length `thrustAcceleration / FPS` |
| `Ship.RotationStepIsOdd` | app.js:69 | rotating with direction `-d` gives the opposite step of direction `d` |
| `Ship.ThirtyStepsTurnOnce` | app.js:69 | `FPS` (30) calls of `rotate(1)`, each adding the step of direction 1, turn the ship by `rotationSpeed` degrees, which is one full turn |
| `Ship.Wrap` | app.js:123-133 | the wrapped position lies in `[-radius, extent + radius]`; a position already there is unchanged; one past the low edge lands on the high edge and one past the high edge lands on the low edge |
| `Ship.WrapIdempotent` | app.js:123-133 | wrapping a wrapped position changes nothing |
| `Ship.Player.constructor` | app.js:26-40 | a new ship is at the centre of the screen, at rest, not rotating, not thrusting, heading `90/180 * PI` |
| `Ship.Player.Rotate` | app.js:63-71 | a falsy or non-number direction sets `rotation` to 0 and leaves `angle`; a non-zero number sets `rotation` to `rotationSpeed * direction / 180 * PI / FPS` and adds it to `angle`; nothing else changes |
| `Ship.Player.Thrust` | app.js:74-134 | while thrusting, the thrust vector gains the arrow's push (unchanged when no arrow is given); otherwise it becomes exactly 0; the position then advances by the vector and wraps; afterwards the ship is always within its radius of the screen; a non-thrusting ship that was on the screen does not move; only the thrust vector and position change |
| `Asteroids.SpawnLives` | app.js:145 | a new asteroid has 0 to 4 lives, and 0 exactly when the draw is 0 |
| `Asteroids.SpawnRadius` | app.js:150 | the radius `size * lives / 2` is between 0 and `2 * size` for 0 to 4 lives, and 0 exactly when there are no lives |
| `Asteroids.SpawnVelocityX` | app.js:146-147 | the X velocity has magnitude `draw * speed / FPS`, strictly below `speed / FPS`, and its sign follows the sign draw |
| `Asteroids.SpawnVelocityY` | app.js:148-149 | the Y velocity is exactly 1 or -1, and 1 even when the magnitude draw is 0 |
| `Asteroids.BounceStep` | app.js:179-188 | along one axis, the velocity is negated when the circle is off-bounds and kept otherwise, the position advances by the resulting velocity, and the speed is unchanged |
| `Asteroids.OffAxis` | app.js:206-212 | on one axis, the circle reaches past an edge: `pos + radius > extent` or `pos - radius < 0` |
| `Asteroids.ContainedIsNearScreen` | app.js:179-188 | a contained asteroid reaches past an edge by at most its speed |
| `Asteroids.BounceKeepsContained` | app.js:179-188 | one bounce-and-move step keeps an asteroid contained |
| `Asteroids.TicksKeepContained` | app.js:179-188 | after any number of ticks, an asteroid that started contained is still contained and has the same speed |
| `Asteroids.CoordFromDraw` | app.js:202-203 | `Math.floor(draw * extent)` is a whole number, at least 0, and below the extent when the extent is positive |
| `Asteroids.TooCloseToCentre` | app.js:152-159 | the squared distance from the screen centre is below `(size * 2 + radius)²`, with that threshold positive |
| `Asteroids.TooCloseIsDistanceTest` | app.js:152-159 | `TooCloseToCentre` holds exactly when the distance `distanceBetweenPoints` returns is below `size * 2 + radius` |
| `Asteroids.Acceptable` | app.js:152-162 | the negation of the placement loop's condition: the position is not closer to the centre than `size * 2 + radius` and the circle is off-bounds on neither axis |
| `Asteroids.FirstAccepted` | app.js:152-164 | the placement loop stops at the first coordinate draw it accepts: every earlier draw is rejected, and the index is the number of draws when none is accepted |
| `Asteroids.ExitIsFirstAccepted` | app.js:152-164 | a loop that meets an accepted draw without passing the first accepted one has stopped exactly at the first accepted one |
| `Asteroids.AcceptedIsFarFromCentre` | app.js:152-159 | an accepted position is at least `size * 2 + radius` from the screen centre, as `distanceBetweenPoints` measures it |
| `Asteroids.NoPlacementOnSmallScreen` | app.js:152-164 | on a 400 by 400 canvas, no position is accepted for an asteroid with four lives (radius 100), so the placement loop cannot exit |
| `Asteroids.PlacementOnLargeScreen` | app.js:152-164 | on a canvas at least 600 wide and at least twice the radius tall, the position `(radius, radius)` is accepted for any number of lives from 0 to 4 |
| `Asteroids.SpawnedAt` | app.js:152-164 | the coordinates the placement loop leaves are accepted ones |
| `Asteroids.Asteroid.constructor` | app.js:138-165 | lives, radius and both velocity components come from their draws; the position comes from the first accepted coordinate draw; it is not off-bounds on X or Y and not too close to the centre; the asteroid invariant holds |
| `Asteroids.Asteroid.IsOffXBounds` | app.js:206-208 | the asteroid's circle reaches past the left or right edge: `x + radius > width` or `x - radius < 0` |
| `Asteroids.Asteroid.IsOffYBounds` | app.js:210-212 | the asteroid's circle reaches past the top or bottom edge: `y + radius > height` or `y - radius < 0` |
| `Asteroids.Asteroid.SetCoords` | app.js:201-204 | the position becomes the floor of each draw times the screen extent, a whole-pixel position `CoordFromDraw` places in `[0, width)` by `[0, height)` |
| `Asteroids.Asteroid.Draw` | app.js:179-188 | on each axis the velocity is negated exactly when the asteroid is off-bounds on that axis, then the position advances by it; only position and velocity change; the invariant is kept |
| `Game.App.constructor` | app.js:221-237 | a new game has a fresh ship at rest at the centre and `ASTEROIDS_COUNT` distinct fresh asteroids, one per spawn; each is spawned from its own draws and then moved once by the initial `#drawAsteroids` |
| `Game.App.DrawAsteroids` | app.js:290-294 | every asteroid takes one bounce-and-move step; the ship and the asteroid list are unchanged |
| `Game.App.Update` | app.js:239-245 | one tick is a thrust with no direction followed by every asteroid's step: the ship keeps its thrust vector (or has 0 when not thrusting) and moves by it with wrap; heading, rotation and the thrusting flag are unchanged |
| `Game.App.KeyDown` | app.js:248-264 | an arrow key starts thrusting and pushes the ship once in that direction; `z` and `c` rotate by the step of direction 1 and -1; other keys change nothing |
| `Game.App.KeyUp` | app.js:266-282 | releasing an arrow stops thrusting and zeroes the thrust vector without moving an on-screen ship; releasing `z` or `c` sets the rotation to 0 without turning; other keys change nothing |

## Left out

- Rendering is left out: the ship polygon in `Player.draw`, the asteroid's
  fill and lives text in `Asteroid.draw`, and the background in
  `#setCanvasContext`. They draw state and change none of it.
- Registering the listeners, `DOMContentLoaded`, the `setInterval` timer and
  `console.log` are left out. They are scheduling and I/O. The listener
  bodies are modelled as `App.KeyDown` and `App.KeyUp`, and a timer tick is
  one call of `App.Update`.
- `Math.random`, `Math.cos`, `Math.sin` and `Math.sqrt` are foreign
  floating-point primitives. Random results are parameters in `[0, 1)`.
  Cosine and sine are function parameters. The square root appears only
  as the relation `IsDistance`. `Math.PI` is its printed decimal value.
- Numbers are exact reals. IEEE double rounding is not modelled.
- The asteroid's colour string (app.js:142-144) and the ship's
  `strokeColor` are left out: only the rendering reads them (app.js:170,
  app.js:43), and the rendering is left out. Nothing reads the asteroid's
  `angle` (app.js:151) or the ship's `friction`. No listener handles the
  key `x`.
- `Asteroids.Asteroid.constructor`: placement runs that never end are not
  modelled. The loop in the source has no bound. The model is given a
  finite sequence of coordinate draws and requires that one of them is
  accepted, which is exactly when the loop exits. A run can fail to end
  by chance, and on a small canvas it always fails to end:
  `NoPlacementOnSmallScreen` shows that on a 400 by 400 canvas no position
  is accepted for an asteroid with four lives.
- `Game.App.KeyDown` and `Game.App.KeyUp` treat only the four arrow names as
  arrows. The source's lookup `keys.arrows[event.key]` would also be truthy
  for inherited property names such as `toString`, but no key reports
  such a name.
- The canvas is sized once, from the window, when the game starts. Resizing
  the window later does not change it in the source, and the model does
  not model resizing either.
