/**
 * The CoreGraphics helpers the scene adds by extension: `CGPoint.distance`
 * and the `CGLine` struct with `getPoint`. Coordinates are reals; the
 * distance is handled through its square, so no square root is needed.
 */
module Geometry {
  import opened Optional

  datatype Point = Point(x: real, y: real)
  datatype Vector = Vector(dx: real, dy: real)

  /** The planet's centre and the gravity field's position. */
  const Origin := Point(0.0, 0.0)

  /** The square of `CGPoint.distance(pointA:pointB:)`: the sum of the squared offsets. */
  function SquaredDistance(a: Point, b: Point): (d2: real)
    ensures d2 >= 0.0
  {
    var xDistance := a.x - b.x;
    var yDistance := a.y - b.y;
    assert xDistance * xDistance >= 0.0 && yDistance * yDistance >= 0.0;
    xDistance * xDistance + yDistance * yDistance
  }

  /**
   * `CGPoint.distance` returns the non-negative `d` with `d * d` equal to the
   * squared distance; comparing it with a non-negative bound is the same as
   * comparing the squared distance with the squared bound.
   */
  lemma DistanceBelowIffSquaredBelow(a: Point, b: Point, d: real, bound: real)
    requires d >= 0.0 && d * d == SquaredDistance(a, b)
    requires bound >= 0.0
    ensures d < bound <==> SquaredDistance(a, b) < bound * bound
  {
    var dd, db, bb := d * d, d * bound, bound * bound;
    if d < bound {
      assert dd <= db;
      assert db < bb;
    } else {
      assert bb <= db;
      assert db <= dd;
    }
  }

  /** The line `xCoefficient * x - yCoefficient * y + offset == 0`. */
  datatype Line = Line(xCoefficient: real, yCoefficient: real, offset: real)

  /**
   * `CGLine.getPoint(x:)`: the point of the line with abscissa `x`. Its
   * ordinate divides by `yCoefficient`; a zero coefficient gives no finite
   * point (floating-point division yields an infinity or NaN there).
   */
  function GetPoint(line: Line, x: real): (p: Option<Point>)
    ensures p.Some? <==> line.yCoefficient != 0.0
    ensures p.Some? ==> p.value.x == x
    ensures p.Some? ==> line.yCoefficient * p.value.y == line.xCoefficient * x + line.offset
  {
    if line.yCoefficient == 0.0 then None
    else Some(Point(x, line.xCoefficient / line.yCoefficient * x + line.offset / line.yCoefficient))
  }

  /** Every point of a non-horizontal-coefficient line is the one `GetPoint` returns for its abscissa. */
  lemma GetPointIsTheLinePoint(line: Line, q: Point)
    requires line.yCoefficient != 0.0
    requires line.yCoefficient * q.y == line.xCoefficient * q.x + line.offset
    ensures GetPoint(line, q.x) == Some(q)
  {
    var p := GetPoint(line, q.x).value;
    assert line.yCoefficient * p.y == line.yCoefficient * q.y;
  }
}
