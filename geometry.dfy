/**
 * Screen coordinates, the squared-distance helpers of the controller and the
 * mouse effects the model records instead of moving the real mouse.
 */
module Geometry {

  /** A screen or gaze coordinate; the source's 2-tuples and `Point2d`. */
  datatype Point = Point(x: real, y: real)

  /** One mouse action handed to the input-injection collaborator. */
  datatype MouseEvent = Move(to: Point) | ClickDown | ClickUp

  function Min(a: real, b: real): (m: real)
    ensures m <= a && m <= b && (m == a || m == b)
  {
    if a <= b then a else b
  }

  function Max(a: real, b: real): (m: real)
    ensures m >= a && m >= b && (m == a || m == b)
  {
    if a >= b then a else b
  }

  /** `_squared`: the square of a number is never negative and is zero only for zero. */
  function Squared(v: real): (r: real)
    ensures r >= 0.0
    ensures r == 0.0 <==> v == 0.0
  {
    var r := v * v;
    assert v != 0.0 ==> r > 0.0 by {
      if v > 0.0 {
        calc { r; == v * v; > { assert v * v > 0.0 * v; } 0.0 * v; == 0.0; }
      } else if v < 0.0 {
        calc { r; == (-v) * (-v); > { assert (-v) * (-v) > 0.0 * (-v); } 0.0 * (-v); == 0.0; }
      }
    }
    r
  }

  /** `_distance_squared`: the squared Euclidean distance between two points. */
  function DistanceSquared(a: Point, b: Point): (r: real)
    ensures r >= 0.0
    ensures r == 0.0 <==> a == b
  {
    Squared(a.x - b.x) + Squared(a.y - b.y)
  }

  /** The squared distance does not depend on the order of its arguments. */
  lemma DistanceSquaredSymmetric(a: Point, b: Point)
    ensures DistanceSquared(a, b) == DistanceSquared(b, a)
  {
    assert Squared(a.x - b.x) == Squared(b.x - a.x);
    assert Squared(a.y - b.y) == Squared(b.y - a.y);
  }

  /** Python's `int()` on a float: truncation toward zero. */
  function Trunc(v: real): (i: int)
    ensures v >= 0.0 ==> 0 <= i && i as real <= v < i as real + 1.0
    ensures v < 0.0 ==> i <= 0 && i as real - 1.0 < v <= i as real
  {
    if v >= 0.0 then v.Floor else -((-v).Floor)
  }
}
