/**
 * The food item: a mutable coordinate pair. Either coordinate may be absent
 * (None) at construction. The setters are the properties `set_x` and `set_y`;
 * `x` and `y` themselves are read-only.
 */
module SnackModel {
  import opened Wrappers

  class Snack {
    var x: Option<int>
    var y: Option<int>

    constructor (x: Option<int>, y: Option<int>)
      ensures X() == x && Y() == y
    {
      this.x := x;
      this.y := y;
    }

    /** The stored x coordinate (read-only under the name `x`). */
    function X(): (r: Option<int>)
      reads this
      ensures r == x
    {
      x
    }

    /** The stored y coordinate (read-only under the name `y`). */
    function Y(): (r: Option<int>)
      reads this
      ensures r == y
    {
      y
    }

    /** The coordinate pair, as the two getters give it. */
    function Coords(): (c: (Option<int>, Option<int>))
      reads this
      ensures c.0 == X() && c.1 == Y()
    {
      (x, y)
    }

    method SetX(value: int)
      modifies this
      ensures X() == Some(value) && Y() == old(Y())
    {
      x := Some(value);
    }

    method SetY(value: int)
      modifies this
      ensures Y() == Some(value) && X() == old(X())
    {
      y := Some(value);
    }
  }
}
