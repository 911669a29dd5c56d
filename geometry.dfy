/** raisa.util.Vector2D, as far as the modelled code uses it. */
module Geometry {

  datatype Vector2 = Vector2(x: real, y: real)

  /** `new Vector2D()`. */
  const Origin: Vector2 := Vector2(0.0, 0.0)

  function SquaredDistance(a: Vector2, b: Vector2): (d: real)
    ensures d >= 0.0
    ensures a == b ==> d == 0.0
  {
    (a.x - b.x) * (a.x - b.x) + (a.y - b.y) * (a.y - b.y)
  }

  /** `a.distance(b)`, with the square root passed in. */
  function Distance(a: Vector2, b: Vector2, sqrt: real -> real): real {
    sqrt(SquaredDistance(a, b))
  }
}
