/**
 * The four move directions of the game, each a unit (dx, dy) delta.
 * Up is taken as dy = -1 (screen coordinates); nothing proved depends on that sign.
 */
module Directions {

  datatype Direction = Up | Right | Down | Left

  function Delta(d: Direction): (v: (int, int))
    ensures (v.0 == 0) != (v.1 == 0)
    ensures -1 <= v.0 <= 1 && -1 <= v.1 <= 1
  {
    match d
    case Up => (0, -1)
    case Right => (1, 0)
    case Down => (0, 1)
    case Left => (-1, 0)
  }

  /** The reverse heading: its delta is the negated delta. */
  function Opposite(d: Direction): (r: Direction)
    ensures Delta(r) == (-Delta(d).0, -Delta(d).1)
    ensures r != d
  {
    match d
    case Up => Down
    case Right => Left
    case Down => Up
    case Left => Right
  }

  lemma DeltaInjective(d1: Direction, d2: Direction)
    ensures Delta(d1) == Delta(d2) <==> d1 == d2
  {
  }

  lemma OppositeInvolutive(d: Direction)
    ensures Opposite(Opposite(d)) == d
  {
  }
}
