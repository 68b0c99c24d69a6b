/**
 * The snake: an ordered body of integer cells, head first, and a heading.
 * `move` and `add_to_tail` update the body and the heading in place, so the
 * snake is a class; the direction guard and the initial layout are functions.
 */
module SnakeModel {
  import opened Wrappers
  import opened Directions
  import opened RandomDraws

  type Cell = (int, int)

  /** The length the game starts the snake with. */
  const SnakeInitialLength: int := 4

  /** The cell one step from `c` in direction `d`. */
  function Step(c: Cell, d: Direction): Cell {
    (c.0 + Delta(d).0, c.1 + Delta(d).1)
  }

  /** The cell one step from `c` against direction `d`. */
  function StepBack(c: Cell, d: Direction): Cell {
    (c.0 - Delta(d).0, c.1 - Delta(d).1)
  }

  function Abs(x: int): nat {
    if x < 0 then -x else x
  }

  /** Two cells share a side. */
  predicate Adjacent(a: Cell, b: Cell) {
    Abs(a.0 - b.0) + Abs(a.1 - b.1) == 1
  }

  /** Consecutive body cells share a side. */
  predicate Connected(body: seq<Cell>) {
    forall i :: 0 < i < |body| ==> Adjacent(body[i - 1], body[i])
  }

  /** The head is one step from the next cell in the heading's direction. */
  predicate HeadLeads(body: seq<Cell>, heading: Direction) {
    |body| >= 2 ==> body[0] == Step(body[1], heading)
  }

  predicate Distinct(body: seq<Cell>) {
    forall i, j :: 0 <= i < j < |body| ==> body[i] != body[j]
  }

  /**
   * The reversal guard: no request or the current heading keeps the heading;
   * a request on the same axis (whose delta component negates the current
   * one) is ignored; any other request is adopted. There is no condition on
   * the length of the snake.
   */
  function CheckMoveDirection(current: Direction, request: Option<Direction>): (r: Direction)
    ensures r == current || request == Some(r)
    ensures request.None? ==> r == current
    ensures request == Some(current) ==> r == current
    ensures request == Some(Opposite(current)) ==> r == current
    ensures request.Some? && request.value != Opposite(current) ==> r == request.value
    ensures r != Opposite(current)
  {
    if request.None? || request.value == current then current
    else
      var (currentDx, currentDy) := Delta(current);
      var (dx, dy) := Delta(request.value);
      if currentDx == -dx || currentDy == -dy then current else request.value
  }

  /** The body after one move: a new head in front, the tail cell dropped. */
  function Moved(body: seq<Cell>, d: Direction): (r: seq<Cell>)
    requires |body| > 0
    ensures |r| == |body|
    ensures r[0] == Step(body[0], d)
    ensures forall i :: 0 < i < |r| ==> r[i] == body[i - 1]
  {
    [Step(body[0], d)] + body[..|body| - 1]
  }

  /** The body grown by one cell behind the tail, against the heading. */
  function Grown(body: seq<Cell>, heading: Direction): (r: seq<Cell>)
    requires |body| > 0
    ensures |r| == |body| + 1
    ensures r[..|body|] == body
    ensures r[|body|] == StepBack(body[|body| - 1], heading)
  {
    body + [StepBack(body[|body| - 1], heading)]
  }

  datatype SnakeError =
    | InitialLengthTooLarge  // the explicit ValueError of from_starting_length
    | EmptyRandomRange       // randint's ValueError when its range is empty

  /**
   * The body `from_starting_length` lays out: `length` cells going left from
   * the random start `(startX, startY)`. `startX` and `startY` are the two
   * draws of randint, over [length + 1, n // 2] and [n // 3, 2 * n // 3].
   */
  function StartingCells(numGridCells: int, length: int, startX: int, startY: int): (r: Result<seq<Cell>, SnakeError>)
    requires ValidDraw(length + 1, numGridCells / 2, startX)
    requires ValidDraw(numGridCells / 3, 2 * numGridCells / 3, startY)
    ensures length > numGridCells / 2 ==> r == Failure(InitialLengthTooLarge)
    ensures length == numGridCells / 2 ==> r == Failure(EmptyRandomRange)
    ensures r.Success? <==> length < numGridCells / 2 && numGridCells / 3 <= 2 * numGridCells / 3
    ensures r.Success? ==> |r.value| == (if length < 0 then 0 else length)
    ensures r.Success? ==> forall i :: 0 <= i < |r.value| ==> r.value[i] == (startX - i, startY)
  {
    var areaHalfWidth := numGridCells / 2;
    if length > areaHalfWidth then Failure(InitialLengthTooLarge)
    else
      var x := RandInt(length + 1, areaHalfWidth, startX);
      if x.None? then Failure(EmptyRandomRange)
      else
        var y := RandInt(numGridCells / 3, 2 * numGridCells / 3, startY);
        if y.None? then Failure(EmptyRandomRange)
        else Success(seq(if length < 0 then 0 else length, i => (x.value - i, y.value)))
  }

  /** The initial body has no repeated cell. */
  lemma StartingCellsDistinct(numGridCells: int, length: int, startX: int, startY: int)
    requires ValidDraw(length + 1, numGridCells / 2, startX)
    requires ValidDraw(numGridCells / 3, 2 * numGridCells / 3, startY)
    requires StartingCells(numGridCells, length, startX, startY).Success?
    ensures Distinct(StartingCells(numGridCells, length, startX, startY).value)
  {
    var body := StartingCells(numGridCells, length, startX, startY).value;
    forall i, j | 0 <= i < j < |body| ensures body[i] != body[j] {
      assert body[i].0 == startX - i && body[j].0 == startX - j;
    }
  }

  /** The initial body is a horizontal, connected line whose head leads to the right. */
  lemma StartingCellsShape(numGridCells: int, length: int, startX: int, startY: int)
    requires ValidDraw(length + 1, numGridCells / 2, startX)
    requires ValidDraw(numGridCells / 3, 2 * numGridCells / 3, startY)
    requires StartingCells(numGridCells, length, startX, startY).Success?
    ensures Connected(StartingCells(numGridCells, length, startX, startY).value)
    ensures HeadLeads(StartingCells(numGridCells, length, startX, startY).value, Right)
  {
    var body := StartingCells(numGridCells, length, startX, startY).value;
    forall i | 0 < i < |body| ensures Adjacent(body[i - 1], body[i]) {
      assert body[i - 1] == (startX - (i - 1), startY) && body[i] == (startX - i, startY);
    }
  }

  /** Every initial cell lies in columns [2, n // 2] and rows [n // 3, 2 * n // 3]. */
  lemma StartingCellsBounds(numGridCells: int, length: int, startX: int, startY: int)
    requires ValidDraw(length + 1, numGridCells / 2, startX)
    requires ValidDraw(numGridCells / 3, 2 * numGridCells / 3, startY)
    requires StartingCells(numGridCells, length, startX, startY).Success?
    ensures forall c :: c in StartingCells(numGridCells, length, startX, startY).value ==>
      2 <= c.0 <= numGridCells / 2 && numGridCells / 3 <= c.1 <= 2 * numGridCells / 3
  {
    var body := StartingCells(numGridCells, length, startX, startY).value;
    forall c | c in body
      ensures 2 <= c.0 <= numGridCells / 2 && numGridCells / 3 <= c.1 <= 2 * numGridCells / 3
    {
      var i :| 0 <= i < |body| && body[i] == c;
      assert c == (startX - i, startY);
    }
  }

  /** A move keeps the body connected and makes the head lead in the new heading. */
  lemma MovedKeepsShape(body: seq<Cell>, d: Direction)
    requires |body| > 0 && Connected(body)
    ensures Connected(Moved(body, d))
    ensures HeadLeads(Moved(body, d), d)
  {
    var r := Moved(body, d);
    forall i | 0 < i < |r| ensures Adjacent(r[i - 1], r[i]) {
      if i == 1 {
        assert r[0] == Step(body[0], d) && r[1] == body[0];
      } else {
        assert r[i - 1] == body[i - 2] && r[i] == body[i - 1];
      }
    }
  }

  /** Growing keeps the body connected and does not disturb the head. */
  lemma GrownKeepsShape(body: seq<Cell>, heading: Direction)
    requires |body| > 0 && Connected(body) && HeadLeads(body, heading)
    ensures Connected(Grown(body, heading))
    ensures HeadLeads(Grown(body, heading), heading)
  {
    var r := Grown(body, heading);
    forall i | 0 < i < |r| ensures Adjacent(r[i - 1], r[i]) {
      if i < |body| {
        assert r[i - 1] == body[i - 1] && r[i] == body[i];
      }
    }
    if |body| >= 2 {
      assert r[0] == body[0] && r[1] == body[1];
    }
  }

  /**
   * The reversal guard is what keeps the head off the second cell: while the
   * head leads in the heading, no request moves the new head onto the old neck.
   */
  lemma GuardAvoidsNeck(body: seq<Cell>, heading: Direction, request: Option<Direction>)
    requires |body| >= 2 && HeadLeads(body, heading)
    ensures Moved(body, CheckMoveDirection(heading, request))[0] != body[1]
  {
    var d := CheckMoveDirection(heading, request);
    if Step(body[0], d) == body[1] {
      DeltaInjective(d, Opposite(heading));
      assert false;
    }
  }

  class Snake {
    var cells: seq<Cell>
    var heading: Direction

    /** A snake over the given body, heading right. */
    constructor (cells: seq<Cell>)
      ensures this.cells == cells && heading == Right
    {
      this.cells := cells;
      heading := Right;
    }

    /** The number of body cells. */
    function Length(): (n: nat)
      reads this
      ensures n == |cells|
    {
      |cells|
    }

    /** The shape every reachable snake keeps. */
    predicate Valid()
      reads this
    {
      Connected(cells) && HeadLeads(cells, heading)
    }

    /**
     * Appends one cell behind the tail, against the heading. On an empty body
     * the source raises IndexError; then `ok` is false and nothing changes.
     */
    method AddToTail() returns (ok: bool)
      modifies this
      ensures ok <==> old(Length()) > 0
      ensures heading == old(heading)
      ensures ok ==> cells == Grown(old(cells), heading) && Length() == old(Length()) + 1
      ensures !ok ==> cells == old(cells)
      ensures old(Valid()) ==> Valid()
    {
      if |cells| == 0 {
        return false;
      }
      if Valid() {
        GrownKeepsShape(cells, heading);
      }
      var (dx, dy) := Delta(heading);
      var last := cells[|cells| - 1];
      cells := cells + [(last.0 - dx, last.1 - dy)];
      ok := true;
    }

    /**
     * Resolves the heading through the reversal guard, then prepends the new
     * head and drops the tail. The heading is updated before the head is read,
     * so on an empty body (IndexError, `ok` false) the new heading is kept.
     */
    method Move(request: Option<Direction>) returns (ok: bool)
      modifies this
      ensures heading == CheckMoveDirection(old(heading), request)
      ensures ok <==> old(Length()) > 0
      ensures ok ==> cells == Moved(old(cells), heading) && Length() == old(Length())
      ensures !ok ==> cells == old(cells)
      ensures old(Valid()) ==> Valid()
      ensures ok && old(Valid()) && old(Length()) >= 2 ==> cells[0] != old(cells)[1]
    {
      if Valid() && |cells| >= 2 {
        GuardAvoidsNeck(cells, heading, request);
      }
      heading := CheckMoveDirection(heading, request);
      if |cells| == 0 {
        return false;
      }
      if Connected(cells) {
        MovedKeepsShape(cells, heading);
      }
      var (dx, dy) := Delta(heading);
      var (headX, headY) := cells[0];
      cells := [(headX + dx, headY + dy)] + cells[..|cells| - 1];
      ok := true;
    }

    static method FromCoordinates(cells: seq<Cell>) returns (s: Snake)
      ensures fresh(s) && s.cells == cells && s.heading == Right
    {
      s := new Snake(cells);
    }

    /**
     * Validates the initial length, draws the start and lays out the body;
     * the snake heads right and is valid.
     */
    static method FromStartingLength(numGridCells: int, length: int := SnakeInitialLength, startX: int, startY: int)
      returns (r: Result<Snake, SnakeError>)
      requires ValidDraw(length + 1, numGridCells / 2, startX)
      requires ValidDraw(numGridCells / 3, 2 * numGridCells / 3, startY)
      ensures r.Failure? ==> StartingCells(numGridCells, length, startX, startY) == Failure(r.error)
      ensures r.Success? ==> StartingCells(numGridCells, length, startX, startY) == Success(r.value.cells)
      ensures r.Success? ==> fresh(r.value) && r.value.heading == Right && r.value.Valid()
    {
      var body := StartingCells(numGridCells, length, startX, startY);
      if body.Failure? {
        return Failure(body.error);
      }
      StartingCellsShape(numGridCells, length, startX, startY);
      var s := FromCoordinates(body.value);
      r := Success(s);
    }
  }
}
