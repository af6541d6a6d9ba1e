/** Points and vectors of 3D space, the reach_lib::Point primitive the core computes with.
    Coordinates are exact reals: IEEE rounding is not modelled. */
module Geometry {

  datatype Point = Point(x: real, y: real, z: real)

  /** The zero vector, reach_lib::Point(0.0, 0.0, 0.0). */
  const Origin: Point := Point(0.0, 0.0, 0.0)

  function Add(p: Point, q: Point): (r: Point) {
    Point(p.x + q.x, p.y + q.y, p.z + q.z)
  }

  function Scale(p: Point, s: real): (r: Point) {
    Point(p.x * s, p.y * s, p.z * s)
  }

  /** The points a loop `for (int i = 0; i < n; i++) v.push_back(Point(0,0,0))` appends:
      none when n is not positive. */
  function Zeros(n: int): (zeros: seq<Point>) {
    seq(if n > 0 then n else 0, _ => Origin)
  }

  /** std::max on two doubles: the first argument unless it is smaller than the second. */
  function Max(a: real, b: real): (m: real) {
    if a < b then b else a
  }
}
