/** Small value types shared by the game modules: an optional value, a 2D vector
    (Unity's Vector2 restricted to what the rules read and write) and real helpers. */
module Common {

  datatype Option<+T> = None | Some(value: T)

  /** A 2D vector; positions, velocities and multipliers. */
  datatype Vec = Vec(x: real, y: real)

  /** Component-wise product, as Unity's `Vector2 * Vector2`. */
  function Scale(v: Vec, m: Vec): (r: Vec)
    ensures m == Vec(1.0, 1.0) ==> r == v
    ensures m == Vec(0.0, 0.0) ==> r == Vec(0.0, 0.0)
  {
    Vec(v.x * m.x, v.y * m.y)
  }

  function Abs(x: real): (r: real)
    ensures r >= 0.0 && (r == x || r == -x)
  {
    if x < 0.0 then -x else x
  }

  function Max(a: real, b: real): (r: real)
    ensures r >= a && r >= b && (r == a || r == b)
  {
    if a < b then b else a
  }

  function Min(a: real, b: real): (r: real)
    ensures r <= a && r <= b && (r == a || r == b)
  {
    if a < b then a else b
  }
}
