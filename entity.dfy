/** The motion and collision primitives shared by Pacman and the ghosts. */
module Entities {
  import opened GameConstants

  /** A position on the canvas. */
  datatype Point = Point(x: real, y: real)

  /** Squared Euclidean distance between two positions. */
  function Dist2(x1: real, y1: real, x2: real, y2: real): (d: real)
    ensures d >= 0.0
  {
    (x1 - x2) * (x1 - x2) + (y1 - y2) * (y1 - y2)
  }

  /** "sqrt(d2) < bound", decided without a square root (d2 is a squared distance). */
  predicate DistanceBelow(d2: real, bound: real) {
    bound > 0.0 && d2 < bound * bound
  }

  /** "sqrt(d2) > bound", decided without a square root (d2 is a squared distance). */
  predicate DistanceAbove(d2: real, bound: real) {
    bound < 0.0 || d2 > bound * bound
  }

  /** The two square-root-free comparisons agree with comparing the distance itself. */
  lemma DistanceComparisons(dist: real, bound: real)
    requires dist >= 0.0
    ensures DistanceBelow(dist * dist, bound) <==> dist < bound
    ensures DistanceAbove(dist * dist, bound) <==> dist > bound
  {
    if bound >= 0.0 {
      if dist < bound {
        SquareMonotone(dist, bound);
      } else if bound < dist {
        SquareMonotone(bound, dist);
      }
    }
  }

  /** Squaring is strictly monotone on the non-negative reals. */
  lemma SquareMonotone(a: real, b: real)
    requires 0.0 <= a < b
    ensures a * a < b * b
  {
    var aa, ab, bb := a * a, a * b, b * b;
    assert aa <= ab;
    assert ab < bb;
  }

  /** The x coordinate after travelling `speed` along heading d. */
  function StepX(x: real, speed: real, d: Direction): real {
    x + d.Dx() as real * speed
  }

  /** The y coordinate after travelling `speed` along heading d. */
  function StepY(y: real, speed: real, d: Direction): real {
    y + d.Dy() as real * speed
  }

  /** A step along a cardinal heading changes exactly one coordinate, by exactly the speed. */
  lemma StepIsCardinal(x: real, y: real, speed: real, d: Direction)
    ensures d == Right || d == Left ==> StepY(y, speed, d) == y
    ensures d == Down || d == Up ==> StepX(x, speed, d) == x
    ensures d == Right ==> StepX(x, speed, d) == x + speed
    ensures d == Left ==> StepX(x, speed, d) == x - speed
    ensures d == Down ==> StepY(y, speed, d) == y + speed
    ensures d == Up ==> StepY(y, speed, d) == y - speed
    ensures Dist2(StepX(x, speed, d), StepY(y, speed, d), x, y) == speed * speed
  {
  }

  /** A player or ghost body: position, speed, heading and size. */
  class Entity {
    var x: real
    var y: real
    var speed: real
    var direction: Direction
    const size: real

    constructor (x0: real, y0: real, speed0: real, size0: real)
      ensures x == x0 && y == y0 && speed == speed0 && size == size0
      ensures direction == Right
    {
      x, y, speed, size := x0, y0, speed0, size0;
      direction := Right;
    }

    /** One step along the heading, committed only if the target passes `canMove`. */
    method Move(canMove: (real, real) -> bool)
      modifies this
      ensures var nx, ny := StepX(old(x), speed, direction), StepY(old(y), speed, direction);
        if canMove(nx, ny) then x == nx && y == ny else x == old(x) && y == old(y)
      ensures canMove(old(x), old(y)) ==> canMove(x, y)
      ensures speed == old(speed) && direction == old(direction)
    {
      var newX := StepX(x, speed, direction);
      var newY := StepY(y, speed, direction);
      if canMove(newX, newY) {
        x := newX;
        y := newY;
      }
    }

    /** Whether the centres are closer than the mean of the sizes, scaled by m. */
    function CollidesWith(other: Entity, m: real): (r: bool)
      reads this, other
      ensures m >= 0.0 && size + other.size > 0.0 ==>
        (r <==> m > 0.0 && Dist2(x, y, other.x, other.y) < ((size + other.size) / 2.0 * m) * ((size + other.size) / 2.0 * m))
    {
      DistanceBelow(Dist2(x, y, other.x, other.y), (size / 2.0 + other.size / 2.0) * m)
    }
  }

  /** Collision is symmetric in the two entities. */
  lemma CollisionSymmetric(a: Entity, b: Entity, m: real)
    ensures a.CollidesWith(b, m) == b.CollidesWith(a, m)
  {
    assert Dist2(a.x, a.y, b.x, b.y) == Dist2(b.x, b.y, a.x, a.y);
  }
}
