/** The drawing surface's size, the frame rate, and point-to-point distance. */
module Geometry {

  /** Frames per second of the tick timer; per-second speeds are divided by it. */
  const FPS: real := 30.0

  /** The decimal value JavaScript prints for `Math.PI`. */
  const PI: real := 3.141592653589793

  /** The canvas, sized once from the window when the game starts; canvas
      dimensions are non-negative integers. */
  datatype Screen = Screen(width: nat, height: nat)
  {
    function CentreX(): real { width as real / 2.0 }
    function CentreY(): real { height as real / 2.0 }
  }

  /** The square of `distanceBetweenPoints`: the value under its square root. */
  function DistanceSquared(x1: real, y1: real, x2: real, y2: real): (s: real)
    ensures s >= 0.0
  {
    var dx, dy := x2 - x1, y2 - y1;
    SquareNonNegative(dx);
    SquareNonNegative(dy);
    dx * dx + dy * dy
  }

  /** `d` is what `distanceBetweenPoints(x1, y1, x2, y2)` returns: the
      non-negative square root of the squared distance. */
  ghost predicate IsDistance(d: real, x1: real, y1: real, x2: real, y2: real)
  {
    d >= 0.0 && d * d == DistanceSquared(x1, y1, x2, y2)
  }

  /** `distanceBetweenPoints(x1, y1, x2, y2) < t` can be decided without a square
      root: it holds exactly when `t` is positive and the squared distance is
      below `t * t`. */
  lemma DistanceBelow(d: real, x1: real, y1: real, x2: real, y2: real, t: real)
    requires IsDistance(d, x1, y1, x2, y2)
    ensures d < t <==> (t > 0.0 && DistanceSquared(x1, y1, x2, y2) < t * t)
  {
    var s := DistanceSquared(x1, y1, x2, y2);
    if d < t {
      SquareBelow(d, t);
      EqualThenBelow(s, d * d, t * t);
    } else if t > 0.0 && s < t * t {
      RootBelow(d, t, s);
    }
  }

  // Small steps of real arithmetic, each kept to one product so that the
  // solver's non-linear reasoning stays within reach.

  lemma SquareNonNegative(a: real)
    ensures a * a >= 0.0
  {
  }

  lemma NegativeTimesPositive(x: real, y: real)
    requires x < 0.0 < y
    ensures x * y < 0.0
  {
  }

  lemma SquareBelow(d: real, t: real)
    requires 0.0 <= d < t
    ensures d * d < t * t
  {
    NegativeTimesPositive(d - t, d + t);
  }

  lemma RootBelow(d: real, t: real, s: real)
    requires 0.0 <= d && 0.0 < t && s == d * d && s < t * t
    ensures d < t
  {
  }

  lemma EqualThenBelow(a: real, b: real, c: real)
    requires a == b && b < c
    ensures a < c
  {
  }
}
