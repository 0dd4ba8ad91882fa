/** An asteroid: how it is spawned from random draws, where it may be placed,
    and how it bounces off the screen edges each tick. */
module Asteroids {
  import opened Js
  import opened Geometry

  /** The largest per-second speed an asteroid is spawned with, per axis. */
  const ASTEROID_SPEED: real := 100.0
  /** An asteroid's radius per remaining life is half of this. */
  const ASTEROID_SIZE: real := 50.0
  const ASTEROIDS_MAX_LIVES: int := 4

  /** The two `Math.random()` results one `#setCoords` call consumes. */
  datatype CoordDraw = CoordDraw(rx: real, ry: real)

  /** The `Math.random()` results one asteroid's construction consumes, apart
      from those for its colour and its (unused) angle: the coordinate draws
      of the first `#setCoords` call and of every retry of the placement loop,
      in order, and the draws for lives and for the two velocity components. */
  datatype SpawnDraws = SpawnDraws(
    coords: seq<CoordDraw>,
    lives: real,
    speedX: real, signX: real,
    speedY: real, signY: real)

  /** `Math.ceil(Math.random() * ASTEROIDS_MAX_LIVES)`; a draw of exactly 0
      gives an asteroid without lives. */
  function SpawnLives(draw: real): (lives: int)
    requires IsRandomDraw(draw)
    ensures 0 <= lives <= ASTEROIDS_MAX_LIVES
    ensures lives == 0 <==> draw == 0.0
  {
    Ceil(draw * ASTEROIDS_MAX_LIVES as real)
  }

  /** The radius grows with the remaining lives, `size * lives / 2`: at
      most twice the size, and zero for an asteroid without lives. */
  function SpawnRadius(lives: int): (r: real)
    ensures 0 <= lives <= ASTEROIDS_MAX_LIVES ==> 0.0 <= r <= ASTEROID_SIZE * 2.0
    ensures r == 0.0 <==> lives == 0
  {
    (ASTEROID_SIZE * lives as real) / 2.0
  }

  /** The X velocity: a random magnitude below `ASTEROID_SPEED / FPS` with a
      random sign. */
  function SpawnVelocityX(speedDraw: real, signDraw: real): (v: real)
    requires IsRandomDraw(speedDraw) && IsRandomDraw(signDraw)
    ensures Abs(v) == (speedDraw * ASTEROID_SPEED) / FPS
    ensures Abs(v) < ASTEROID_SPEED / FPS
    ensures v > 0.0 ==> signDraw < 0.5
    ensures v < 0.0 ==> signDraw >= 0.5
  {
    ((speedDraw * ASTEROID_SPEED) / FPS) * (if signDraw < 0.5 then 1.0 else -1.0)
  }

  /** The Y velocity as the source computes it: the product of the magnitude
      and the sign draw is compared with 0.5 before the conditional applies,
      so the result is a unit step, up or down, whatever the magnitude draw;
      even a zero magnitude moves the asteroid. */
  function SpawnVelocityY(speedDraw: real, signDraw: real): (v: real)
    requires IsRandomDraw(speedDraw) && IsRandomDraw(signDraw)
    ensures v == 1.0 || v == -1.0
    ensures speedDraw == 0.0 ==> v == 1.0
  {
    if ((speedDraw * ASTEROID_SPEED) / FPS) * signDraw < 0.5 then 1.0 else -1.0
  }

  /** One coordinate of an asteroid with its velocity along that axis. */
  datatype Axis = Axis(pos: real, vel: real)

  /** The circle reaches past either edge of `[0, extent]` on this axis. */
  predicate OffAxis(pos: real, radius: real, extent: real)
  {
    pos + radius > extent || pos - radius < 0.0
  }

  /** One tick of motion along one axis: the velocity is reflected when the
      circle is off-bounds, then added to the position. */
  function BounceStep(a: Axis, radius: real, extent: real): (b: Axis)
    ensures OffAxis(a.pos, radius, extent) ==> b.vel == -a.vel
    ensures !OffAxis(a.pos, radius, extent) ==> b.vel == a.vel
    ensures b.pos == a.pos + b.vel
    ensures Abs(b.vel) == Abs(a.vel)
  {
    var vel := if OffAxis(a.pos, radius, extent) then a.vel * -1.0 else a.vel;
    Axis(a.pos + vel, vel)
  }

  /** `n` ticks of motion along one axis. */
  function Ticks(a: Axis, radius: real, extent: real, n: nat): Axis
  {
    if n == 0 then a else BounceStep(Ticks(a, radius, extent, n - 1), radius, extent)
  }

  /** The circle is inside `[0, extent]` on this axis, or it left on the last
      step and undoing that step puts it back inside. */
  predicate Contained(a: Axis, radius: real, extent: real)
  {
    !OffAxis(a.pos, radius, extent) || !OffAxis(a.pos - a.vel, radius, extent)
  }

  /** A contained circle overshoots an edge by at most its speed. */
  lemma ContainedIsNearScreen(a: Axis, radius: real, extent: real)
    requires Contained(a, radius, extent)
    ensures -Abs(a.vel) <= a.pos - radius && a.pos + radius <= extent + Abs(a.vel)
  {
  }

  /** The bounce never lets a contained asteroid escape. */
  lemma BounceKeepsContained(a: Axis, radius: real, extent: real)
    requires Contained(a, radius, extent)
    ensures Contained(BounceStep(a, radius, extent), radius, extent)
  {
  }

  /** However many ticks pass, an asteroid that started contained stays
      contained and keeps its speed. */
  lemma {:induction false} TicksKeepContained(a: Axis, radius: real, extent: real, n: nat)
    requires Contained(a, radius, extent)
    ensures Contained(Ticks(a, radius, extent, n), radius, extent)
    ensures Abs(Ticks(a, radius, extent, n).vel) == Abs(a.vel)
  {
    if n > 0 {
      TicksKeepContained(a, radius, extent, n - 1);
      BounceKeepsContained(Ticks(a, radius, extent, n - 1), radius, extent);
    }
  }

  /** `Math.floor(Math.random() * extent)`: a whole-pixel position on the
      screen, at least 0 and below the extent. */
  function CoordFromDraw(r: real, extent: nat): (c: real)
    ensures c == c.Floor as real
    ensures IsRandomDraw(r) ==> 0.0 <= c && (extent > 0 ==> c < extent as real)
  {
    DrawTimesExtentBelow(r, extent as real);
    Floor(r * extent as real) as real
  }

  lemma DrawTimesExtentBelow(r: real, e: real)
    requires e >= 0.0
    ensures IsRandomDraw(r) ==> 0.0 <= r * e && (e > 0.0 ==> r * e < e)
  {
  }

  /** The placement loop's test, `distanceBetweenPoints(centre, (x, y)) <
      size * 2 + radius`, stated on squared distances. */
  predicate TooCloseToCentre(screen: Screen, x: real, y: real, radius: real)
  {
    var t := ASTEROID_SIZE * 2.0 + radius;
    t > 0.0 && DistanceSquared(screen.CentreX(), screen.CentreY(), x, y) < t * t
  }

  /** `TooCloseToCentre` is the source's test: it holds exactly when the
      distance `distanceBetweenPoints` returns is below `size * 2 + radius`. */
  lemma TooCloseIsDistanceTest(screen: Screen, x: real, y: real, radius: real, d: real)
    requires IsDistance(d, screen.CentreX(), screen.CentreY(), x, y)
    ensures TooCloseToCentre(screen, x, y, radius) <==> d < ASTEROID_SIZE * 2.0 + radius
  {
    DistanceBelow(d, screen.CentreX(), screen.CentreY(), x, y, ASTEROID_SIZE * 2.0 + radius);
  }

  /** A position the placement loop accepts: far enough from the centre and
      not off-bounds on either axis. */
  predicate Acceptable(screen: Screen, x: real, y: real, radius: real)
  {
    !TooCloseToCentre(screen, x, y, radius)
    && !OffAxis(x, radius, screen.width as real)
    && !OffAxis(y, radius, screen.height as real)
  }

  predicate AcceptableDraw(screen: Screen, draw: CoordDraw, radius: real)
  {
    Acceptable(screen, CoordFromDraw(draw.rx, screen.width), CoordFromDraw(draw.ry, screen.height), radius)
  }

  /** The placement loop exits at the first accepted coordinate draw; the
      result is `|coords|` when none is accepted. */
  function FirstAccepted(screen: Screen, radius: real, coords: seq<CoordDraw>): (k: nat)
    ensures k <= |coords|
    ensures k < |coords| ==> AcceptableDraw(screen, coords[k], radius)
    ensures forall j :: 0 <= j < k ==> !AcceptableDraw(screen, coords[j], radius)
  {
    if |coords| == 0 then 0
    else if AcceptableDraw(screen, coords[0], radius) then 0
    else 1 + FirstAccepted(screen, radius, coords[1..])
  }

  /** A loop that stops at the first acceptable draw it meets, having met
      no draw past `FirstAccepted`, stops exactly there. */
  lemma ExitIsFirstAccepted(screen: Screen, radius: real, coords: seq<CoordDraw>, i: nat)
    requires i < |coords| && i <= FirstAccepted(screen, radius, coords)
    requires AcceptableDraw(screen, coords[i], radius)
    ensures i == FirstAccepted(screen, radius, coords)
  {
  }

  /** An accepted position is at least `size * 2 + radius` from the centre of
      the screen, measured as `distanceBetweenPoints` measures it. */
  lemma AcceptedIsFarFromCentre(screen: Screen, x: real, y: real, radius: real, d: real)
    requires Acceptable(screen, x, y, radius)
    requires IsDistance(d, screen.CentreX(), screen.CentreY(), x, y)
    ensures d >= ASTEROID_SIZE * 2.0 + radius
  {
    DistanceBelow(d, screen.CentreX(), screen.CentreY(), x, y, ASTEROID_SIZE * 2.0 + radius);
  }

  /** On a 400 by 400 canvas no position is acceptable for an asteroid with
      four lives (radius 100): every position inside the screen is closer
      than 200 to the centre, so the placement loop can never exit. */
  lemma NoPlacementOnSmallScreen(x: real, y: real)
    ensures !Acceptable(Screen(400, 400), x, y, SpawnRadius(ASTEROIDS_MAX_LIVES))
  {
    var screen := Screen(400, 400);
    var radius := SpawnRadius(ASTEROIDS_MAX_LIVES);
    if !OffAxis(x, radius, 400.0) && !OffAxis(y, radius, 400.0) {
      SquareAtMost(x - 200.0, 100.0);
      SquareAtMost(y - 200.0, 100.0);
      assert DistanceSquared(screen.CentreX(), screen.CentreY(), x, y) <= 20000.0;
    }
  }

  /** On a canvas at least 600 wide and tall enough for the asteroid, the
      top-left position that just fits is acceptable for any number of lives,
      so there the placement loop can exit. */
  lemma PlacementOnLargeScreen(screen: Screen, lives: int)
    requires 0 <= lives <= ASTEROIDS_MAX_LIVES
    requires screen.width >= 600 && screen.height as real >= 2.0 * SpawnRadius(lives)
    ensures Acceptable(screen, SpawnRadius(lives), SpawnRadius(lives), SpawnRadius(lives))
  {
    var radius := SpawnRadius(lives);
    var t := ASTEROID_SIZE * 2.0 + radius;
    var dx := radius - screen.CentreX();
    var dy := radius - screen.CentreY();
    SquareAtLeast(-dx, t);
    SquareNonNegative(dy);
    assert DistanceSquared(screen.CentreX(), screen.CentreY(), radius, radius) == dx * dx + dy * dy;
  }

  lemma SquareAtMost(a: real, b: real)
    requires -b <= a <= b
    ensures a * a <= b * b
  {
  }

  lemma SquareAtLeast(a: real, b: real)
    requires 0.0 <= b <= a
    ensures b * b <= a * a
  {
  }

  /** The draws are genuine `Math.random()` results, and the placement loop
      exits within the supplied coordinate draws. */
  predicate Spawnable(screen: Screen, d: SpawnDraws)
  {
    && IsRandomDraw(d.lives)
    && IsRandomDraw(d.speedX) && IsRandomDraw(d.signX)
    && IsRandomDraw(d.speedY) && IsRandomDraw(d.signY)
    && (forall i :: 0 <= i < |d.coords| ==> IsRandomDraw(d.coords[i].rx) && IsRandomDraw(d.coords[i].ry))
    && FirstAccepted(screen, SpawnRadius(SpawnLives(d.lives)), d.coords) < |d.coords|
  }

  /** Where the placement loop leaves a freshly spawned asteroid. */
  function SpawnedAt(screen: Screen, d: SpawnDraws): (c: CoordDraw)
    requires Spawnable(screen, d)
    ensures AcceptableDraw(screen, c, SpawnRadius(SpawnLives(d.lives)))
  {
    d.coords[FirstAccepted(screen, SpawnRadius(SpawnLives(d.lives)), d.coords)]
  }

  /** A freshly spawned asteroid's lives. */
  function SpawnedLives(screen: Screen, d: SpawnDraws): int
    requires Spawnable(screen, d)
  {
    SpawnLives(d.lives)
  }

  /** A freshly spawned asteroid's X position and velocity. */
  function SpawnedX(screen: Screen, d: SpawnDraws): Axis
    requires Spawnable(screen, d)
  {
    Axis(CoordFromDraw(SpawnedAt(screen, d).rx, screen.width), SpawnVelocityX(d.speedX, d.signX))
  }

  /** A freshly spawned asteroid's Y position and velocity. */
  function SpawnedY(screen: Screen, d: SpawnDraws): Axis
    requires Spawnable(screen, d)
  {
    Axis(CoordFromDraw(SpawnedAt(screen, d).ry, screen.height), SpawnVelocityY(d.speedY, d.signY))
  }

  class Asteroid {
    const screen: Screen
    const speed: real := ASTEROID_SPEED
    const size: real := ASTEROID_SIZE
    const lives: int
    const radius: real
    var x: real
    var y: real
    var velocityX: real
    var velocityY: real

    function XAxis(): Axis
      reads this
    {
      Axis(x, velocityX)
    }

    function YAxis(): Axis
      reads this
    {
      Axis(y, velocityY)
    }

    predicate IsOffXBounds()
      reads this
    {
      OffAxis(x, radius, screen.width as real)
    }

    predicate IsOffYBounds()
      reads this
    {
      OffAxis(y, radius, screen.height as real)
    }

    /** What holds of every asteroid from its construction on: the spawn
        bounds, and that on each axis it is inside the screen or was on the
        previous tick. */
    ghost predicate Valid()
      reads this
    {
      && 0 <= lives <= ASTEROIDS_MAX_LIVES
      && radius == SpawnRadius(lives)
      && (velocityY == 1.0 || velocityY == -1.0)
      && Abs(velocityX) < speed / FPS
      && Contained(XAxis(), radius, screen.width as real)
      && Contained(YAxis(), radius, screen.height as real)
    }

    /** Draws lives and velocity, then re-draws the coordinates until the
        asteroid is on the screen and far enough from its centre. */
    constructor (screen: Screen, draws: SpawnDraws)
      requires Spawnable(screen, draws)
      ensures this.screen == screen
      ensures lives == SpawnedLives(screen, draws) && radius == SpawnRadius(lives)
      ensures XAxis() == SpawnedX(screen, draws) && YAxis() == SpawnedY(screen, draws)
      ensures !IsOffXBounds() && !IsOffYBounds() && !TooCloseToCentre(screen, x, y, radius)
      ensures Valid()
    {
      this.screen := screen;
      var initialLives := SpawnLives(draws.lives);
      lives := initialLives;
      velocityX := SpawnVelocityX(draws.speedX, draws.signX);
      velocityY := SpawnVelocityY(draws.speedY, draws.signY);
      radius := SpawnRadius(initialLives);
      new;
      ghost var accepted := FirstAccepted(screen, radius, draws.coords);
      var i := 0;
      SetCoords(draws.coords[i]);
      while TooCloseToCentre(screen, x, y, radius) || IsOffXBounds() || IsOffYBounds()
        modifies this`x, this`y
        invariant i <= accepted
        invariant x == CoordFromDraw(draws.coords[i].rx, screen.width)
        invariant y == CoordFromDraw(draws.coords[i].ry, screen.height)
        decreases accepted - i
      {
        i := i + 1;
        SetCoords(draws.coords[i]);
      }
      ExitIsFirstAccepted(screen, radius, draws.coords, i);
      assert SpawnedAt(screen, draws) == draws.coords[i];
    }

    /** `#setCoords`: a random integer position on the screen. */
    method SetCoords(draw: CoordDraw)
      modifies this`x, this`y
      ensures x == CoordFromDraw(draw.rx, screen.width)
      ensures y == CoordFromDraw(draw.ry, screen.height)
    {
      x := CoordFromDraw(draw.rx, screen.width);
      y := CoordFromDraw(draw.ry, screen.height);
    }

    /** The motion half of `draw`: bounce on each axis where the asteroid is
        off-bounds, then move by the velocity. Nothing else changes. */
    method Draw()
      modifies this`x, this`y, this`velocityX, this`velocityY
      ensures XAxis() == BounceStep(old(XAxis()), radius, screen.width as real)
      ensures YAxis() == BounceStep(old(YAxis()), radius, screen.height as real)
      ensures old(Valid()) ==> Valid()
    {
      if IsOffXBounds() {
        velocityX := velocityX * -1.0;
      }
      if IsOffYBounds() {
        velocityY := velocityY * -1.0;
      }
      x := x + velocityX;
      y := y + velocityY;
      if old(Valid()) {
        BounceKeepsContained(old(XAxis()), radius, screen.width as real);
        BounceKeepsContained(old(YAxis()), radius, screen.height as real);
      }
    }
  }
}
