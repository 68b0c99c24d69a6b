/**
 * The board: `num_cells × num_cells` cells laid out row by row, each with a
 * pixel rectangle separated from its neighbours by a one-pixel gap. The grid
 * is built once and never changed, so it is a value.
 */
module GridModel {
  import opened Wrappers
  import opened RandomDraws

  /** A pixel rectangle (left, top, width, height). */
  datatype Rect = Rect(left: int, top: int, width: int, height: int)

  datatype GridCell = GridCell(rect: Rect, x: int, y: int)

  datatype GridError = EmptyRandomRange  // randint's ValueError

  /** The number of rows (and columns) `range(num_cells)` yields. */
  function Count(numCells: int): nat {
    if numCells < 0 then 0 else numCells
  }

  /** The cell in column `i`, row `j`. */
  function MakeCell(i: int, j: int, cellSize: int): GridCell {
    GridCell(Rect(i * (cellSize + 1), j * (cellSize + 1), cellSize, cellSize), i, j)
  }

  /** The inner loop of the layout: every `j` for one `i`. */
  function Row(i: int, n: nat, cellSize: int): (r: seq<GridCell>)
    ensures |r| == n
    ensures forall j :: 0 <= j < n ==> r[j] == MakeCell(i, j, cellSize)
  {
    seq(n, j requires 0 <= j < n => MakeCell(i, j, cellSize))
  }

  /** The rows for the first `rows` values of the outer loop variable, in order. */
  function Layout(rows: nat, n: nat, cellSize: int): (r: seq<GridCell>)
    ensures |r| == rows * n
  {
    if rows == 0 then []
    else
      assert (rows - 1) * n + n == rows * n;
      Layout(rows - 1, n, cellSize) + Row(rows - 1, n, cellSize)
  }

  /** The outer loop is `i`: the cell for (i, j) sits at position `i * n + j`. */
  lemma {:induction false} LayoutAt(rows: nat, n: nat, cellSize: int, i: nat, j: nat)
    requires i < rows && j < n
    ensures i * n + j < |Layout(rows, n, cellSize)|
    ensures Layout(rows, n, cellSize)[i * n + j] == MakeCell(i, j, cellSize)
  {
    var prefix := Layout(rows - 1, n, cellSize);
    assert Layout(rows, n, cellSize) == prefix + Row(rows - 1, n, cellSize);
    if i == rows - 1 {
      assert i * n + j - |prefix| == j;
    } else {
      LayoutAt(rows - 1, n, cellSize, i, j);
      MulMonotone(i + 1, rows - 1, n);
    }
  }

  lemma MulMonotone(a: nat, b: nat, n: nat)
    requires a <= b
    ensures a * n <= b * n
  {
  }

  /** The position of a cell is determined by its coordinates. */
  lemma PositionOf(n: nat, k: nat) returns (i: nat, j: nat)
    requires k < n * n
    ensures i < n && j < n && k == i * n + j
  {
    i, j := k / n, k % n;
    if i >= n {
      MulMonotone(n, i, n);
      assert false;
    }
  }

  datatype Grid = Grid(numCells: int, cellSize: int, cells: seq<GridCell>) {

    /** The number of cells per side, as given to the constructor. */
    function NumCells(): (r: int)
      ensures r == numCells
    {
      numCells
    }

    /** Pixel height: each row takes the cell size plus a one-pixel gap. */
    function Height(): (h: int)
      ensures h == NumCells() * (cellSize + 1)
    {
      numCells * (cellSize + 1)
    }

    /** Pixel width, equal to the height: the board is square. */
    function Width(): (w: int)
      ensures w == NumCells() * (cellSize + 1) && w == Height()
    {
      numCells * (cellSize + 1)
    }

    function Shape(): (s: (int, int))
      ensures s == (NumCells(), NumCells())
    {
      (numCells, numCells)
    }
  }

  /** The constructor: stores both arguments and lays out the cells. */
  function NewGrid(numCells: int, cellSize: int): (g: Grid)
    ensures g.NumCells() == numCells && g.cellSize == cellSize
    ensures |g.cells| == Count(numCells) * Count(numCells)
  {
    Grid(numCells, cellSize, Layout(Count(numCells), Count(numCells), cellSize))
  }

  /**
   * Position `i * n + j` holds the cell with x = i, y = j and the rectangle
   * (i * (size + 1), j * (size + 1), size, size).
   */
  lemma CellAt(numCells: int, cellSize: int, i: int, j: int)
    requires 0 <= i < numCells && 0 <= j < numCells
    ensures i * numCells + j < |NewGrid(numCells, cellSize).cells|
    ensures NewGrid(numCells, cellSize).cells[i * numCells + j]
         == GridCell(Rect(i * (cellSize + 1), j * (cellSize + 1), cellSize, cellSize), i, j)
  {
    LayoutAt(numCells, numCells, cellSize, i, j);
  }

  /** Every cell has coordinates in [0, n), sits at position x * n + y and has its layout rectangle. */
  lemma CellCoordinates(numCells: int, cellSize: int, k: int)
    requires 0 <= k < |NewGrid(numCells, cellSize).cells|
    ensures var c := NewGrid(numCells, cellSize).cells[k];
      0 <= c.x < numCells && 0 <= c.y < numCells && k == c.x * numCells + c.y
      && c == MakeCell(c.x, c.y, cellSize)
  {
    var n := Count(numCells);
    var i, j := PositionOf(n, k);
    LayoutAt(n, n, cellSize, i, j);
  }

  /** Every coordinate pair of the board appears exactly once. */
  lemma CellsUnique(numCells: int, cellSize: int, k1: int, k2: int)
    requires 0 <= k1 < |NewGrid(numCells, cellSize).cells|
    requires 0 <= k2 < |NewGrid(numCells, cellSize).cells|
    ensures var cs := NewGrid(numCells, cellSize).cells;
      cs[k1].x == cs[k2].x && cs[k1].y == cs[k2].y <==> k1 == k2
  {
    CellCoordinates(numCells, cellSize, k1);
    CellCoordinates(numCells, cellSize, k2);
  }

  /** Every cell's rectangle lies inside the surface of size Width() × Height(). */
  lemma CellRectsInside(numCells: int, cellSize: int, k: int)
    requires cellSize >= 0
    requires 0 <= k < |NewGrid(numCells, cellSize).cells|
    ensures var g := NewGrid(numCells, cellSize);
      var r := g.cells[k].rect;
      0 <= r.left && r.left + r.width < g.Width() && 0 <= r.top && r.top + r.height < g.Height()
  {
    CellCoordinates(numCells, cellSize, k);
    var c := NewGrid(numCells, cellSize).cells[k];
    MulMonotone(0, c.x, cellSize + 1);
    MulMonotone(0, c.y, cellSize + 1);
    MulMonotone(c.x + 1, numCells, cellSize + 1);
    MulMonotone(c.y + 1, numCells, cellSize + 1);
    assert (c.x + 1) * (cellSize + 1) == c.x * (cellSize + 1) + cellSize + 1;
    assert (c.y + 1) * (cellSize + 1) == c.y * (cellSize + 1) + cellSize + 1;
  }

  /** `shape` multiplies out to the number of cells; height and width agree. */
  lemma ShapeMatchesCells(numCells: int, cellSize: int)
    ensures var g := NewGrid(numCells, cellSize);
      g.Shape() == (numCells, numCells) && g.Height() == g.Width() == numCells * (cellSize + 1)
      && (numCells >= 0 ==> g.Shape().0 * g.Shape().1 == |g.cells|)
  {
  }

  /**
   * A random cell: both coordinates drawn from [offset, n - offset - 1], where
   * the offset is 1 with padding. The range is empty (ValueError) when n < 1,
   * or n < 3 with padding.
   */
  function RandomCell(g: Grid, padding: bool := false, drawX: int, drawY: int): (r: Result<(int, int), GridError>)
    requires ValidDraw(if padding then 1 else 0, g.NumCells() - (if padding then 1 else 0) - 1, drawX)
    requires ValidDraw(if padding then 1 else 0, g.NumCells() - (if padding then 1 else 0) - 1, drawY)
    ensures r.Success? <==> (if padding then g.NumCells() >= 3 else g.NumCells() >= 1)
    ensures r.Success? && !padding ==> 0 <= r.value.0 <= g.NumCells() - 1 && 0 <= r.value.1 <= g.NumCells() - 1
    ensures r.Success? && padding ==> 1 <= r.value.0 <= g.NumCells() - 2 && 1 <= r.value.1 <= g.NumCells() - 2
    ensures r.Success? ==> r.value == (drawX, drawY)
  {
    var offset := if padding then 1 else 0;
    var x := RandInt(offset, g.NumCells() - offset - 1, drawX);
    var y := RandInt(offset, g.NumCells() - offset - 1, drawY);
    if x.None? || y.None? then Failure(EmptyRandomRange) else Success((x.value, y.value))
  }
}
