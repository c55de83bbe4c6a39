/** Values shared by the residency controller and the navigation task:
    optional values, results with an error, block positions. */
module Common {

  datatype Option<+T> = None | Some(value: T)

  /** The outcome of an operation that can raise an exception. */
  datatype Result<+T, +E> = Ok(value: T) | Err(error: E)

  /** Integer block coordinates. */
  datatype Pos = Pos(x: int, y: int, z: int)

  /** A block position tagged with the registry key of its world (dimension). */
  datatype GlobalPos = GlobalPos(dimension: int, pos: Pos)

  /** The world origin, used as the default of unset positions. */
  const Origin: Pos := Pos(0, 0, 0)

  function Abs(n: int): (r: nat)
    ensures r == n || r == -n
  {
    if n < 0 then -n else n
  }

  /** The block directly below `p`. */
  function Below(p: Pos): (q: Pos)
    ensures q.x == p.x && q.y == p.y - 1 && q.z == p.z
  {
    Pos(p.x, p.y - 1, p.z)
  }
}
