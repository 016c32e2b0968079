/** The board: a fixed grid of squares indexed `grid[x][y]`, x the column
    (0 <= x < width) and y the row (0 <= y < height), each square holding
    its ordered list of occupants. */
module Boards {
  import opened Units

  /** Ground accepts every unit; a wall accepts none. */
  datatype SquareKind = Ground | Wall

  datatype Square = Square(kind: SquareKind, occupants: seq<Unit>)

  datatype Board = Board(grid: seq<seq<Square>>)

  datatype Pos = Pos(x: int, y: int)

  datatype Direction = North | South | East | West

  function Width(b: Board): nat
  {
    |b.grid|
  }

  /** The height is the length of the first column, as the source reads it. */
  function Height(b: Board): nat
  {
    if |b.grid| == 0 then 0 else |b.grid[0]|
  }

  /** Every column has the height of the first one. */
  predicate Rectangular(b: Board)
  {
    forall x :: 0 <= x < |b.grid| ==> |b.grid[x]| == Height(b)
  }

  /** `Board.withinBorders(x, y)`: a point inside the borders names a
      column of the grid; on a rectangular board it is inside exactly when
      the coordinates index a square of the grid. */
  predicate WithinBorders(b: Board, x: int, y: int)
    ensures WithinBorders(b, x, y) ==> 0 <= x < |b.grid| && 0 <= y
    ensures Rectangular(b) ==> (WithinBorders(b, x, y) <==> 0 <= x < |b.grid| && 0 <= y < |b.grid[x]|)
  {
    0 <= x < Width(b) && 0 <= y < Height(b)
  }

  predicate InBounds(b: Board, p: Pos)
  {
    WithinBorders(b, p.x, p.y)
  }

  /** The answer depends on the board's dimensions only, never on what the
      squares are or hold. */
  lemma WithinBordersIgnoresContents(b1: Board, b2: Board, x: int, y: int)
    requires Width(b1) == Width(b2) && Height(b1) == Height(b2)
    ensures WithinBorders(b1, x, y) == WithinBorders(b2, x, y)
  {
  }

  /** `Board.squareAt(x, y)`: the square stored at `grid[x][y]`. */
  function SquareAt(b: Board, x: int, y: int): (s: Square)
    requires Rectangular(b) && WithinBorders(b, x, y)
    ensures s == b.grid[x][y]
  {
    b.grid[x][y]
  }

  /** Reading back a square after replacing its occupants gives the new
      occupants on the same kind of square; every other square reads as before. */
  lemma SquareAtSetOccupants(b: Board, p: Pos, occupants: seq<Unit>, x: int, y: int)
    requires Rectangular(b) && InBounds(b, p) && WithinBorders(b, x, y)
    ensures Rectangular(SetOccupants(b, p, occupants)) && WithinBorders(SetOccupants(b, p, occupants), x, y)
    ensures (x, y) == (p.x, p.y) ==>
              SquareAt(SetOccupants(b, p, occupants), x, y) == Square(SquareAt(b, x, y).kind, occupants)
    ensures (x, y) != (p.x, p.y) ==> SquareAt(SetOccupants(b, p, occupants), x, y) == SquareAt(b, x, y)
  {
  }

  /** A `width` by `height` grid with the same square everywhere, the
      shape of the bounds test fixture. */
  function UniformBoard(width: nat, height: nat, s: Square): (b: Board)
    ensures Rectangular(b) && Width(b) == width
    ensures width > 0 ==> Height(b) == height
  {
    Board(seq(width, _ => seq(height, _ => s)))
  }

  /** On a uniform board with a positive width, withinBorders is exactly
      the coordinate range, whatever the squares are. */
  lemma UniformBoardBorders(width: nat, height: nat, s: Square, x: int, y: int)
    requires width > 0
    ensures WithinBorders(UniformBoard(width, height, s), x, y) <==> 0 <= x < width && 0 <= y < height
  {
  }

  /** The bounds test: a 5x5 board of squares that reject every unit. */
  lemma WithinBordersCases()
    ensures var b := UniformBoard(5, 5, Square(Wall, []));
      && WithinBorders(b, 0, 1) && WithinBorders(b, 4, 4) && WithinBorders(b, 1, 0)
      && !WithinBorders(b, -1, 2) && !WithinBorders(b, 5, 3)
      && !WithinBorders(b, 2, -1) && !WithinBorders(b, 3, 5)
  {
  }

  /** The board test: on a 1x1 board, squareAt(0, 0) is the stored square. */
  lemma SquareAtSingleton(s: Square)
    ensures Rectangular(Board([[s]])) && WithinBorders(Board([[s]]), 0, 0)
    ensures SquareAt(Board([[s]]), 0, 0) == s
  {
  }

  function DeltaX(d: Direction): int
  {
    match d
    case East => 1
    case West => -1
    case _ => 0
  }

  function DeltaY(d: Direction): int
  {
    match d
    case South => 1
    case North => -1
    case _ => 0
  }

  /** The neighbouring square in direction `d`; the board's edges are
      linked to the opposite edges, so the neighbour is always inside. */
  function Neighbour(b: Board, p: Pos, d: Direction): (q: Pos)
    requires Width(b) > 0 && Height(b) > 0
    ensures InBounds(b, q)
    ensures InBounds(b, p) && InBounds(b, Pos(p.x + DeltaX(d), p.y + DeltaY(d)))
            ==> q == Pos(p.x + DeltaX(d), p.y + DeltaY(d))
  {
    var x, y := p.x + DeltaX(d), p.y + DeltaY(d);
    Wrap(x, Width(b));
    Wrap(y, Height(b));
    Pos(x % Width(b), y % Height(b))
  }

  /** Wrapping a coordinate lands inside the range and keeps one already there. */
  lemma Wrap(a: int, n: int)
    requires n > 0
    ensures 0 <= a % n < n
    ensures 0 <= a < n ==> a % n == a
  {
  }

  /** The board with the occupants of square `p` replaced. */
  function SetOccupants(b: Board, p: Pos, occupants: seq<Unit>): (r: Board)
    requires Rectangular(b) && InBounds(b, p)
    ensures Rectangular(r) && Width(r) == Width(b) && Height(r) == Height(b)
    ensures r.grid[p.x][p.y] == Square(b.grid[p.x][p.y].kind, occupants)
    ensures forall x, y :: 0 <= x < Width(b) && 0 <= y < Height(b) && (x != p.x || y != p.y)
              ==> r.grid[x][y] == b.grid[x][y]
  {
    Board(b.grid[p.x := b.grid[p.x][p.y := Square(b.grid[p.x][p.y].kind, occupants)]])
  }

  function ColumnPellets(column: seq<Square>): nat
  {
    if column == [] then 0
    else ColumnPellets(column[..|column| - 1]) + CountPellets(column[|column| - 1].occupants)
  }

  function GridPellets(grid: seq<seq<Square>>): nat
  {
    if grid == [] then 0
    else GridPellets(grid[..|grid| - 1]) + ColumnPellets(grid[|grid| - 1])
  }

  /** No square of the grid holds a pellet. */
  ghost predicate NoPellet(grid: seq<seq<Square>>)
  {
    forall x, y :: 0 <= x < |grid| && 0 <= y < |grid[x]| ==> !HasKind(grid[x][y].occupants, PelletKind)
  }

  /** `Level.remainingPellets()`: the pellets on all squares of the board;
      none are left exactly when no square holds a pellet. */
  function PelletCount(b: Board): (n: nat)
    ensures n == 0 <==> NoPellet(b.grid)
  {
    GridPelletsZero(b.grid);
    GridPellets(b.grid)
  }

  lemma {:induction false} ColumnPelletsZero(column: seq<Square>)
    ensures ColumnPellets(column) == 0 <==> forall y :: 0 <= y < |column| ==> !HasKind(column[y].occupants, PelletKind)
  {
    if column != [] {
      var n := |column| - 1;
      ColumnPelletsZero(column[..n]);
      CountPelletsPositive(column[n].occupants);
      assert forall y :: 0 <= y < n ==> column[..n][y] == column[y];
    }
  }

  lemma {:induction false} GridPelletsZero(grid: seq<seq<Square>>)
    ensures GridPellets(grid) == 0 <==> NoPellet(grid)
  {
    if grid != [] {
      var n := |grid| - 1;
      GridPelletsZero(grid[..n]);
      ColumnPelletsZero(grid[n]);
      assert forall x :: 0 <= x < n ==> grid[..n][x] == grid[x];
    }
  }

  lemma {:induction false} ColumnPelletsUpdate(column: seq<Square>, y: nat, s: Square)
    requires y < |column|
    ensures ColumnPellets(column[y := s]) + CountPellets(column[y].occupants)
            == ColumnPellets(column) + CountPellets(s.occupants)
  {
    var n := |column| - 1;
    if y < n {
      assert column[y := s][..n] == column[..n][y := s];
      ColumnPelletsUpdate(column[..n], y, s);
    } else {
      assert column[y := s][..n] == column[..n];
    }
  }

  lemma {:induction false} GridPelletsUpdate(grid: seq<seq<Square>>, x: nat, column: seq<Square>)
    requires x < |grid|
    ensures GridPellets(grid[x := column]) + ColumnPellets(grid[x])
            == GridPellets(grid) + ColumnPellets(column)
  {
    var n := |grid| - 1;
    if x < n {
      assert grid[x := column][..n] == grid[..n][x := column];
      GridPelletsUpdate(grid[..n], x, column);
    } else {
      assert grid[x := column][..n] == grid[..n];
    }
  }

  /** Replacing a square's occupants changes the board's pellet count by
      the difference of the two lists' pellet counts. */
  lemma SetOccupantsPellets(b: Board, p: Pos, occupants: seq<Unit>)
    requires Rectangular(b) && InBounds(b, p)
    ensures PelletCount(SetOccupants(b, p, occupants)) + CountPellets(b.grid[p.x][p.y].occupants)
            == PelletCount(b) + CountPellets(occupants)
  {
    var column := b.grid[p.x];
    var s := Square(column[p.y].kind, occupants);
    ColumnPelletsUpdate(column, p.y, s);
    GridPelletsUpdate(b.grid, p.x, column[p.y := s]);
  }
}
