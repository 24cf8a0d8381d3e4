/** Positions in the game world and the scalar helpers the game's arithmetic uses. */
module Space {

  /** A point or vector of the physics world: x is lateral, y vertical, z forward along the track. */
  datatype Vec3 = Vec3(x: real, y: real, z: real)

  /** Math.max on two numbers. */
  function Max(a: real, b: real): (r: real)
    ensures r >= a && r >= b
    ensures r == a || r == b
  {
    if a >= b then a else b
  }

  /** Math.min on two numbers. */
  function Min(a: real, b: real): (r: real)
    ensures r <= a && r <= b
    ensures r == a || r == b
  {
    if a <= b then a else b
  }

  function Abs(a: real): (r: real)
    ensures r >= 0.0
    ensures r == a || r == -a
  {
    if a < 0.0 then -a else a
  }
}
