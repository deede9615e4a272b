/** Hexagonal cube coordinates: a cell is a triple whose coordinates sum to
    zero; moving one step adds one of six unit vectors, the distance is half
    the sum of the absolute coordinate differences, and rounding a fractional
    triple snaps it back onto the plane x + y + z = 0. */
module Hecs {

  datatype Hex = Hex(x: int, y: int, z: int)

  /** A triple of fractional coordinates, the input of rounding. */
  datatype FracHex = FracHex(x: real, y: real, z: real)

  datatype Direction = SE | E | NE | NW | W | SW

  predicate OnPlane(p: Hex)
  {
    p.x + p.y + p.z == 0
  }

  /** The `transforms` table. */
  function Transform(d: Direction): (v: Hex)
    ensures OnPlane(v)
  {
    match d
    case SE => Hex(0, 1, -1)
    case E => Hex(1, 0, -1)
    case NE => Hex(1, -1, 0)
    case NW => Hex(0, -1, 1)
    case W => Hex(-1, 0, 1)
    case SW => Hex(-1, 1, 0)
  }

  function OppositeDirection(d: Direction): Direction
  {
    match d
    case SE => NW
    case E => W
    case NE => SW
    case NW => SE
    case W => E
    case SW => NE
  }

  /** `hecsMove`: one step in a direction keeps the coordinate sum. */
  function Move(p: Hex, d: Direction): (r: Hex)
    ensures r.x + r.y + r.z == p.x + p.y + p.z
    ensures OnPlane(p) ==> OnPlane(r)
  {
    var v := Transform(d);
    Hex(p.x + v.x, p.y + v.y, p.z + v.z)
  }

  /** Opposite directions cancel. */
  lemma MoveThenBack(p: Hex, d: Direction)
    ensures Move(Move(p, d), OppositeDirection(d)) == p
  {
  }

  function Abs(n: int): nat
  {
    if n < 0 then -n else n
  }

  /** `hecsDistance`: half the sum of the absolute coordinate differences. */
  function Distance(a: Hex, b: Hex): real
  {
    (Abs(a.x - b.x) + Abs(a.y - b.y) + Abs(a.z - b.z)) as real / 2.0
  }

  lemma DistanceSymmetricAndZero(a: Hex, b: Hex)
    ensures Distance(a, b) == Distance(b, a)
    ensures Distance(a, a) == 0.0
  {
  }

  /** A single step always covers a distance of exactly one. */
  lemma DistanceOfStep(p: Hex, d: Direction)
    ensures Distance(p, Move(p, d)) == 1.0
  {
  }

  function Max3(a: int, b: int, c: int): int
  {
    if a >= b && a >= c then a else if b >= c then b else c
  }

  /** On the plane, the distance is a whole number: the largest coordinate difference. */
  lemma DistanceOnPlane(a: Hex, b: Hex)
    requires OnPlane(a) && OnPlane(b)
    ensures Distance(a, b) == Max3(Abs(a.x - b.x), Abs(a.y - b.y), Abs(a.z - b.z)) as real
  {
    var dx, dy, dz := a.x - b.x, a.y - b.y, a.z - b.z;
    assert dx + dy + dz == 0;
    var m := Max3(Abs(dx), Abs(dy), Abs(dz));
    assert Abs(dx) + Abs(dy) + Abs(dz) == 2 * m;
  }

  /** `Math.round`: nearest integer, halves rounded up. */
  function JsRound(v: real): (r: int)
    ensures v - 0.5 < r as real <= v + 0.5
  {
    (v + 0.5).Floor
  }

  function AbsReal(v: real): real
  {
    if v < 0.0 then -v else v
  }

  /** `hecsRound`: round every coordinate, then recompute the one that moved
      furthest from the others so that the result lies on the plane. */
  function Round(p: FracHex): (r: Hex)
    ensures OnPlane(r)
    ensures (r.x == JsRound(p.x) && r.y == JsRound(p.y))
         || (r.x == JsRound(p.x) && r.z == JsRound(p.z))
         || (r.y == JsRound(p.y) && r.z == JsRound(p.z))
  {
    var rx, ry, rz := JsRound(p.x), JsRound(p.y), JsRound(p.z);
    var dx, dy, dz := AbsReal(p.x - rx as real), AbsReal(p.y - ry as real), AbsReal(p.z - rz as real);
    if dx > dy && dx > dz then Hex(-ry - rz, ry, rz)
    else if dy > dz then Hex(rx, -rx - rz, rz)
    else Hex(rx, ry, -rx - ry)
  }

  function ToFrac(p: Hex): FracHex
  {
    FracHex(p.x as real, p.y as real, p.z as real)
  }

  /** Rounding a cell that is already on the plane gives the cell back. */
  lemma RoundOfCell(p: Hex)
    requires OnPlane(p)
    ensures Round(ToFrac(p)) == p
  {
    assert JsRound(p.x as real) == p.x;
    assert JsRound(p.y as real) == p.y;
    assert JsRound(p.z as real) == p.z;
  }
}
