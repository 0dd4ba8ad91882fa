/** The player's ship: its heading, rotation step, thrust vector and the
    toroidal wrap of its position at the screen edges. */
module Ship {
  import opened Js
  import opened Geometry

  /** The ship's turn rate, in degrees per second. */
  const ROTATION_SPEED: real := 360.0
  /** The ship's size; its radius is half of it. */
  const SHIP_SIZE: real := 30.0
  /** How much one arrow key press adds to the thrust vector, per second. */
  const THRUST_ACCELERATION: real := 5.0

  const ARROW_UP: string := "ArrowUp"
  const ARROW_DOWN: string := "ArrowDown"
  const ARROW_LEFT: string := "ArrowLeft"
  const ARROW_RIGHT: string := "ArrowRight"

  datatype Vector = Vector(dx: real, dy: real)

  /** One of the four arrow key names. */
  predicate IsArrow(key: string)
  {
    key == ARROW_UP || key == ARROW_DOWN || key == ARROW_LEFT || key == ARROW_RIGHT
  }

  /** The `direction` argument selects a case of the `switch` in `thrust`
      (a strict comparison, so only the four strings match). */
  predicate IsArrowValue(direction: JsValue)
  {
    direction.Str? && IsArrow(direction.s)
  }

  /** What one `thrust(direction)` call adds to the thrust vector while the ship
      is thrusting, given the cosine and sine of its heading. Screen Y grows
      downwards, so the heading points along (cos, -sin). */
  function ThrustDelta(direction: JsValue, cosAngle: real, sinAngle: real): (d: Vector)
    ensures !IsArrowValue(direction) ==> d == Vector(0.0, 0.0)
  {
    var along := (THRUST_ACCELERATION * cosAngle) / FPS;
    var across := (THRUST_ACCELERATION * sinAngle) / FPS;
    if direction == Str(ARROW_UP) then Vector(along, -across)
    else if direction == Str(ARROW_DOWN) then Vector(-along, across)
    else if direction == Str(ARROW_LEFT) then Vector(-across, -along)
    else if direction == Str(ARROW_RIGHT) then Vector(across, along)
    else Vector(0.0, 0.0)
  }

  /** ArrowDown undoes ArrowUp, and ArrowRight undoes ArrowLeft. */
  lemma OppositeArrowsCancel(cosAngle: real, sinAngle: real)
    ensures var up, down := ThrustDelta(Str(ARROW_UP), cosAngle, sinAngle), ThrustDelta(Str(ARROW_DOWN), cosAngle, sinAngle);
      down == Vector(-up.dx, -up.dy)
    ensures var left, right := ThrustDelta(Str(ARROW_LEFT), cosAngle, sinAngle), ThrustDelta(Str(ARROW_RIGHT), cosAngle, sinAngle);
      right == Vector(-left.dx, -left.dy)
  {
  }

  /** The strafing keys push at a right angle to the forward key. */
  lemma StrafeIsPerpendicular(cosAngle: real, sinAngle: real)
    ensures var up, left := ThrustDelta(Str(ARROW_UP), cosAngle, sinAngle), ThrustDelta(Str(ARROW_LEFT), cosAngle, sinAngle);
      up.dx * left.dx + up.dy * left.dy == 0.0
  {
  }

  /** With a genuine cosine and sine, every arrow adds a vector of the same
      length, `THRUST_ACCELERATION / FPS`. */
  lemma ArrowThrustLength(direction: JsValue, cosAngle: real, sinAngle: real)
    requires IsArrowValue(direction)
    requires cosAngle * cosAngle + sinAngle * sinAngle == 1.0
    ensures var d := ThrustDelta(direction, cosAngle, sinAngle);
      d.dx * d.dx + d.dy * d.dy == (THRUST_ACCELERATION / FPS) * (THRUST_ACCELERATION / FPS)
  {
  }

  /** The change of heading for one `rotate(direction)` call, in radians. */
  function RotationStep(direction: real): real
  {
    (((ROTATION_SPEED * direction) / 180.0) * PI) / FPS
  }

  /** Rotating left and rotating right are exact opposites. */
  lemma RotationStepIsOdd(direction: real)
    ensures RotationStep(-direction) == -RotationStep(direction)
  {
  }

  /** `FPS` (30) calls of `rotate(1)` turn the ship by `ROTATION_SPEED`
      degrees, a full turn. The steps are calls, not ticks: the tick never
      rotates the ship. */
  lemma ThirtyStepsTurnOnce()
    ensures FPS * RotationStep(1.0) == ROTATION_SPEED / 180.0 * PI
    ensures FPS * RotationStep(1.0) == 2.0 * PI
  {
  }

  /** `p` lies on the screen extended by `margin` on both sides. */
  predicate WithinMargin(p: real, margin: real, extent: real)
  {
    -margin <= p <= extent + margin
  }

  /** The screen wrap along one axis: a position past one edge (by more than
      the margin) reappears at the opposite edge. */
  function Wrap(p: real, margin: real, extent: real): (q: real)
    requires 0.0 <= margin && 0.0 <= extent
    ensures WithinMargin(q, margin, extent)
    ensures WithinMargin(p, margin, extent) ==> q == p
    ensures p < -margin ==> q == extent + margin
    ensures p > extent + margin ==> q == -margin
  {
    if p < 0.0 - margin then extent + margin
    else if p > extent + margin then 0.0 - margin
    else p
  }

  /** Wrapping a wrapped position changes nothing. */
  lemma WrapIdempotent(p: real, margin: real, extent: real)
    requires 0.0 <= margin && 0.0 <= extent
    ensures Wrap(Wrap(p, margin, extent), margin, extent) == Wrap(p, margin, extent)
  {
  }

  class Player {
    const screen: Screen
    const rotationSpeed: real := ROTATION_SPEED
    const size: real := SHIP_SIZE
    const radius: real := SHIP_SIZE / 2.0
    const thrustAcceleration: real := THRUST_ACCELERATION
    var x: real
    var y: real
    /** The heading change applied by the last `rotate` call. */
    var rotation: real
    /** The heading, in radians. */
    var angle: real
    var isThrusting: bool
    var thrustX: real
    var thrustY: real

    /** The ship is on the screen, extended by its radius on every side. */
    ghost predicate Valid()
      reads this
    {
      WithinMargin(x, radius, screen.width as real) && WithinMargin(y, radius, screen.height as real)
    }

    /** A ship at rest at the centre of the screen, pointing up. */
    constructor (screen: Screen)
      ensures this.screen == screen
      ensures x == screen.CentreX() && y == screen.CentreY()
      ensures rotation == 0.0 && angle == (90.0 / 180.0) * PI
      ensures !isThrusting && thrustX == 0.0 && thrustY == 0.0
      ensures Valid()
    {
      this.screen := screen;
      x := screen.CentreX();
      y := screen.CentreY();
      rotation := 0.0;
      angle := (90.0 / 180.0) * PI;
      isThrusting := false;
      thrustX := 0.0;
      thrustY := 0.0;
    }

    /** A falsy or non-number direction stops the rotation; a non-zero number
        sets the rotation step and turns the heading by it once. */
    method Rotate(direction: JsValue)
      modifies this`rotation, this`angle
      ensures if Truthy(direction) && IsNumber(direction)
        then rotation == RotationStep(direction.n) && angle == old(angle) + rotation
        else rotation == 0.0 && angle == old(angle)
    {
      if !Truthy(direction) || !IsNumber(direction) {
        rotation := 0.0;
        return;
      }
      rotation := RotationStep(direction.n);
      angle := angle + rotation;
    }

    /** While thrusting, the held arrow adds its push to the thrust vector;
        otherwise the vector drops to zero. The vector is then added to the
        position, which wraps at the screen edges. */
    method Thrust(direction: JsValue, cos: real -> real, sin: real -> real)
      modifies this`thrustX, this`thrustY, this`x, this`y
      ensures var d := ThrustDelta(direction, cos(angle), sin(angle));
        if isThrusting
        then thrustX == old(thrustX) + d.dx && thrustY == old(thrustY) + d.dy
        else thrustX == 0.0 && thrustY == 0.0
      ensures x == Wrap(old(x) + thrustX, radius, screen.width as real)
      ensures y == Wrap(old(y) + thrustY, radius, screen.height as real)
      ensures Valid()
      ensures isThrusting && !IsArrowValue(direction) ==>
        thrustX == old(thrustX) && thrustY == old(thrustY)
      ensures !isThrusting && old(Valid()) ==> x == old(x) && y == old(y)
    {
      if isThrusting {
        var d := ThrustDelta(direction, cos(angle), sin(angle));
        thrustX := thrustX + d.dx;
        thrustY := thrustY + d.dy;
      } else {
        thrustX := 0.0;
        thrustY := 0.0;
      }

      x := x + thrustX;
      y := y + thrustY;

      x := Wrap(x, radius, screen.width as real);
      y := Wrap(y, radius, screen.height as real);
    }
  }
}
