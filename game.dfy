/** The game: one ship and a fixed wave of asteroids, the per-tick update,
    and the keyboard dispatch onto the ship. */
module Game {
  import opened Js
  import opened Geometry
  import opened Ship
  import opened Asteroids

  /** The number of asteroids spawned when the game starts. */
  const ASTEROIDS_COUNT: nat := 5

  const KEY_ROTATE_LEFT: string := "z"
  const KEY_ROTATE_RIGHT: string := "c"

  class App {
    const screen: Screen
    const player: Player
    var asteroids: seq<Asteroid>

    /** The ship and every asteroid satisfy their own invariants on this
        screen, and the asteroids are distinct objects. */
    ghost predicate Valid()
      reads this, player, asteroids
    {
      && player.screen == screen && player.Valid()
      && |asteroids| == ASTEROIDS_COUNT
      && (forall i :: 0 <= i < |asteroids| ==> asteroids[i].screen == screen && asteroids[i].Valid())
      && (forall i, j :: 0 <= i < j < |asteroids| ==> asteroids[i] != asteroids[j])
    }

    /** Creates the ship and `ASTEROIDS_COUNT` asteroids from their random
        draws, then draws the asteroids once, which moves each of them one step. */
    constructor (screen: Screen, spawns: seq<SpawnDraws>)
      requires |spawns| == ASTEROIDS_COUNT
      requires forall i :: 0 <= i < |spawns| ==> Spawnable(screen, spawns[i])
      ensures this.screen == screen && Valid()
      ensures fresh(player)
      ensures player.x == screen.CentreX() && player.y == screen.CentreY()
      ensures player.rotation == 0.0 && player.angle == (90.0 / 180.0) * PI
      ensures !player.isThrusting && player.thrustX == 0.0 && player.thrustY == 0.0
      ensures |asteroids| == |spawns|
      ensures forall i :: 0 <= i < |asteroids| ==>
        && fresh(asteroids[i])
        && asteroids[i].lives == SpawnedLives(screen, spawns[i])
        && asteroids[i].XAxis() == BounceStep(SpawnedX(screen, spawns[i]), asteroids[i].radius, screen.width as real)
        && asteroids[i].YAxis() == BounceStep(SpawnedY(screen, spawns[i]), asteroids[i].radius, screen.height as real)
    {
      this.screen := screen;
      player := new Player(screen);
      var wave: seq<Asteroid> := [];
      for i := 0 to ASTEROIDS_COUNT
        modifies {}
        invariant |wave| == i
        invariant forall k :: 0 <= k < i ==>
          && fresh(wave[k]) && wave[k].screen == screen && wave[k].Valid()
          && wave[k].lives == SpawnedLives(screen, spawns[k])
          && wave[k].XAxis() == SpawnedX(screen, spawns[k])
          && wave[k].YAxis() == SpawnedY(screen, spawns[k])
        invariant forall k, j :: 0 <= k < j < i ==> wave[k] != wave[j]
      {
        var a := new Asteroid(screen, spawns[i]);
        wave := wave + [a];
      }
      asteroids := wave;
      new;
      DrawAsteroids();
    }

    /** The motion half of `#drawAsteroids`: every asteroid, in order, takes
        one bounce-and-move step; the ship is untouched. */
    method DrawAsteroids()
      requires Valid()
      modifies asteroids
      ensures Valid()
      ensures forall i :: 0 <= i < |asteroids| ==>
        && asteroids[i].XAxis() == BounceStep(old(asteroids[i].XAxis()), asteroids[i].radius, screen.width as real)
        && asteroids[i].YAxis() == BounceStep(old(asteroids[i].YAxis()), asteroids[i].radius, screen.height as real)
    {
      for i := 0 to |asteroids|
        invariant Valid()
        invariant forall k :: 0 <= k < i ==>
          && asteroids[k].XAxis() == BounceStep(old(asteroids[k].XAxis()), asteroids[k].radius, screen.width as real)
          && asteroids[k].YAxis() == BounceStep(old(asteroids[k].YAxis()), asteroids[k].radius, screen.height as real)
        invariant forall k :: i <= k < |asteroids| ==>
          asteroids[k].XAxis() == old(asteroids[k].XAxis()) && asteroids[k].YAxis() == old(asteroids[k].YAxis())
      {
        asteroids[i].Draw();
      }
    }

    /** One tick: the ship thrusts with no arrow given, then every asteroid
        bounces and moves. */
    method Update(cos: real -> real, sin: real -> real)
      requires Valid()
      modifies player`thrustX, player`thrustY, player`x, player`y, asteroids
      ensures Valid()
      ensures if player.isThrusting
        then player.thrustX == old(player.thrustX) && player.thrustY == old(player.thrustY)
        else player.thrustX == 0.0 && player.thrustY == 0.0
      ensures player.x == Wrap(old(player.x) + player.thrustX, player.radius, screen.width as real)
      ensures player.y == Wrap(old(player.y) + player.thrustY, player.radius, screen.height as real)
      ensures forall i :: 0 <= i < |asteroids| ==>
        && asteroids[i].XAxis() == BounceStep(old(asteroids[i].XAxis()), asteroids[i].radius, screen.width as real)
        && asteroids[i].YAxis() == BounceStep(old(asteroids[i].YAxis()), asteroids[i].radius, screen.height as real)
    {
      player.Thrust(Undefined, cos, sin);
      DrawAsteroids();
    }

    /** The keydown listener: an arrow starts thrusting and pushes once in its
        direction; `z` and `c` turn the ship one step left or right; any other
        key changes nothing. */
    method KeyDown(key: string, cos: real -> real, sin: real -> real)
      requires Valid()
      modifies player`isThrusting, player`thrustX, player`thrustY, player`x, player`y,
        player`rotation, player`angle
      ensures Valid()
      ensures IsArrow(key) ==>
        && player.isThrusting
        && player.angle == old(player.angle) && player.rotation == old(player.rotation)
        && var d := ThrustDelta(Str(key), cos(player.angle), sin(player.angle));
        && player.thrustX == old(player.thrustX) + d.dx
        && player.thrustY == old(player.thrustY) + d.dy
        && player.x == Wrap(old(player.x) + player.thrustX, player.radius, screen.width as real)
        && player.y == Wrap(old(player.y) + player.thrustY, player.radius, screen.height as real)
      ensures !IsArrow(key) && (key == KEY_ROTATE_LEFT || key == KEY_ROTATE_RIGHT) ==>
        && var step := RotationStep(if key == KEY_ROTATE_LEFT then 1.0 else -1.0);
        && player.rotation == step && player.angle == old(player.angle) + step
        && unchanged(player`isThrusting, player`thrustX, player`thrustY, player`x, player`y)
      ensures !IsArrow(key) && key != KEY_ROTATE_LEFT && key != KEY_ROTATE_RIGHT ==> unchanged(player)
    {
      if IsArrow(key) {
        player.isThrusting := true;
        player.Thrust(Str(key), cos, sin);
        return;
      }
      if key == KEY_ROTATE_LEFT {
        player.Rotate(Num(1.0));
      } else if key == KEY_ROTATE_RIGHT {
        player.Rotate(Num(-1.0));
      }
    }

    /** The keyup listener: releasing an arrow stops thrusting and drops the
        thrust vector to zero, leaving the ship where it is; releasing `z` or
        `c` stops the rotation without turning the ship. */
    method KeyUp(key: string, cos: real -> real, sin: real -> real)
      requires Valid()
      modifies player`isThrusting, player`thrustX, player`thrustY, player`x, player`y,
        player`rotation, player`angle
      ensures Valid()
      ensures IsArrow(key) ==>
        && !player.isThrusting && player.thrustX == 0.0 && player.thrustY == 0.0
        && unchanged(player`x, player`y, player`rotation, player`angle)
      ensures !IsArrow(key) && (key == KEY_ROTATE_LEFT || key == KEY_ROTATE_RIGHT) ==>
        && player.rotation == 0.0
        && unchanged(player`angle, player`isThrusting, player`thrustX, player`thrustY, player`x, player`y)
      ensures !IsArrow(key) && key != KEY_ROTATE_LEFT && key != KEY_ROTATE_RIGHT ==> unchanged(player)
    {
      if IsArrow(key) {
        player.isThrusting := false;
        player.Thrust(Undefined, cos, sin);
        return;
      }
      if key == KEY_ROTATE_LEFT || key == KEY_ROTATE_RIGHT {
        player.Rotate(Num(0.0));
      }
    }
  }
}
