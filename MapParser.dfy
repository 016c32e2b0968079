/** The map parser: checks a grid of text rows and turns it into a board,
    calling the square factory once per cell and the unit factory once per
    ghost or pellet, and collecting the player start squares. */
module MapParser {
  import opened Units
  import opened Boards
  import opened Wrappers

  datatype ConfigError =
    | NoRows
    | EmptyRows
    | UnequalWidths(row: nat)
    | InvalidChar(x: nat, y: nat, c: char)

  /** A call on the board or level factory, as the mocks record it. */
  datatype FactoryCall = CreateGround | CreateWall | CreateGhost | CreatePellet

  /** What the level factory's `createLevel` receives: the board, the
      squares of the ghosts (the NPCs) and the player start squares. */
  datatype Parsed = Parsed(board: Board, ghosts: seq<Pos>, starts: seq<Pos>, calls: seq<FactoryCall>)

  /** The point value of every pellet the level factory creates. */
  const PelletValue: int := 10

  /** Wall, ground, pellet, player start and ghost. */
  predicate IsSymbol(c: char)
  {
    c == '#' || c == ' ' || c == '.' || c == 'P' || c == 'G'
  }

  predicate SameWidths(rows: seq<string>)
  {
    forall i :: 0 <= i < |rows| ==> |rows[i]| == |rows[0]|
  }

  predicate WellFormed(rows: seq<string>)
  {
    && |rows| > 0 && |rows[0]| > 0
    && SameWidths(rows)
    && forall y, x :: 0 <= y < |rows| && 0 <= x < |rows[y]| ==> IsSymbol(rows[y][x])
  }

  // ---- format checks

  /** The first row at or after `i` whose width is not `width`. */
  function FirstUnequal(rows: seq<string>, width: nat, i: nat): (r: Option<nat>)
    requires i <= |rows|
    decreases |rows| - i
    ensures r.Some? ==> i <= r.value < |rows| && |rows[r.value]| != width
                        && forall j :: i <= j < r.value ==> |rows[j]| == width
    ensures r.None? ==> forall j :: i <= j < |rows| ==> |rows[j]| == width
  {
    if i == |rows| then None
    else if |rows[i]| != width then Some(i)
    else FirstUnequal(rows, width, i + 1)
  }

  /** The first invalid character of column `x` at or below row `y`. */
  function FirstBadInColumn(rows: seq<string>, x: nat, y: nat): (r: Option<nat>)
    requires SameWidths(rows) && |rows| > 0 && x < |rows[0]| && y <= |rows|
    decreases |rows| - y
    ensures r.Some? ==> y <= r.value < |rows| && !IsSymbol(rows[r.value][x])
                        && forall j :: y <= j < r.value ==> IsSymbol(rows[j][x])
    ensures r.None? ==> forall j :: y <= j < |rows| ==> IsSymbol(rows[j][x])
  {
    if y == |rows| then None
    else if !IsSymbol(rows[y][x]) then Some(y)
    else FirstBadInColumn(rows, x, y + 1)
  }

  /** The first invalid character, columns left to right and each column
      top to bottom, at or right of column `x`. */
  function FirstBadChar(rows: seq<string>, x: nat): (r: Option<Pos>)
    requires SameWidths(rows) && |rows| > 0 && x <= |rows[0]|
    decreases |rows[0]| - x
    ensures r.Some? ==> x <= r.value.x < |rows[0]| && 0 <= r.value.y < |rows|
                        && !IsSymbol(rows[r.value.y][r.value.x])
    ensures r.Some? ==> && (forall i, j :: x <= i < r.value.x && 0 <= j < |rows| ==> IsSymbol(rows[j][i]))
                        && (forall j :: 0 <= j < r.value.y ==> IsSymbol(rows[j][r.value.x]))
    ensures r.None? ==> forall i, j :: x <= i < |rows[0]| && 0 <= j < |rows| ==> IsSymbol(rows[j][i])
  {
    if x == |rows[0]| then None
    else match FirstBadInColumn(rows, x, 0)
      case Some(y) => Some(Pos(x, y))
      case None => FirstBadChar(rows, x + 1)
  }

  /** `MapParser.checkMapFormat` together with the character check: the
      configuration error of a malformed grid, or None for a good one. */
  function CheckMapFormat(rows: seq<string>): (r: Option<ConfigError>)
    ensures r.None? <==> WellFormed(rows)
    ensures r == Some(NoRows) <==> |rows| == 0
    ensures r == Some(EmptyRows) <==> |rows| > 0 && |rows[0]| == 0
    ensures r.Some? && r.value.UnequalWidths? ==>
              && |rows| > 0 && |rows[0]| > 0 && r.value.row < |rows|
              && |rows[r.value.row]| != |rows[0]|
              && forall j :: 0 <= j < r.value.row ==> |rows[j]| == |rows[0]|
    ensures r.Some? && r.value.InvalidChar? ==>
              && |rows| > 0 && |rows[0]| > 0 && SameWidths(rows)
              && r.value.y < |rows| && r.value.x < |rows[0]|
              && r.value.c == rows[r.value.y][r.value.x] && !IsSymbol(r.value.c)
              && (forall i, j :: 0 <= i < r.value.x && 0 <= j < |rows| ==> IsSymbol(rows[j][i]))
              && (forall j :: 0 <= j < r.value.y ==> IsSymbol(rows[j][r.value.x]))
  {
    if |rows| == 0 then Some(NoRows)
    else if |rows[0]| == 0 then Some(EmptyRows)
    else match FirstUnequal(rows, |rows[0]|, 1)
      case Some(i) => Some(UnequalWidths(i))
      case None =>
        match FirstBadChar(rows, 0)
        case Some(p) => Some(InvalidChar(p.x, p.y, rows[p.y][p.x]))
        case None => None
  }

  // ---- what one cell produces

  function CellSquare(c: char): Square
  {
    match c
    case '#' => Square(Wall, [])
    case 'G' => Square(Ground, [GhostUnit])
    case '.' => Square(Ground, [PelletUnit(PelletValue)])
    case _ => Square(Ground, [])
  }

  /** The factory calls for one cell: first its square, then its unit. */
  function CellCalls(c: char): seq<FactoryCall>
  {
    match c
    case '#' => [CreateWall]
    case 'G' => [CreateGround, CreateGhost]
    case '.' => [CreateGround, CreatePellet]
    case _ => [CreateGround]
  }

  /** Everything collected so far except the squares. */
  datatype Tally = Tally(ghosts: seq<Pos>, starts: seq<Pos>, calls: seq<FactoryCall>)

  function Visit(t: Tally, c: char, p: Pos): Tally
  {
    Tally(t.ghosts + (if c == 'G' then [p] else []),
          t.starts + (if c == 'P' then [p] else []),
          t.calls + CellCalls(c))
  }

  // ---- the per-cell pass, column by column, as prefix functions

  /** The first `y` squares of column `x`. */
  function Column(rows: seq<string>, x: nat, y: nat): seq<Square>
    requires y <= |rows| && forall j :: 0 <= j < y ==> x < |rows[j]|
  {
    if y == 0 then [] else Column(rows, x, y - 1) + [CellSquare(rows[y - 1][x])]
  }

  /** The first `x` columns. */
  function Columns(rows: seq<string>, x: nat): seq<seq<Square>>
    requires |rows| > 0 && SameWidths(rows) && x <= |rows[0]|
  {
    if x == 0 then [] else Columns(rows, x - 1) + [Column(rows, x - 1, |rows|)]
  }

  /** The tally `t` extended by the first `y` cells of column `x`. */
  function ScanColumn(rows: seq<string>, x: nat, y: nat, t: Tally): Tally
    requires y <= |rows| && forall j :: 0 <= j < y ==> x < |rows[j]|
  {
    if y == 0 then t else Visit(ScanColumn(rows, x, y - 1, t), rows[y - 1][x], Pos(x, y - 1))
  }

  /** The tally of the first `x` columns. */
  function ScanColumns(rows: seq<string>, x: nat): Tally
    requires |rows| > 0 && SameWidths(rows) && x <= |rows[0]|
  {
    if x == 0 then Tally([], [], [])
    else ScanColumn(rows, x - 1, |rows|, ScanColumns(rows, x - 1))
  }

  /** The result the parser hands to `createLevel` for a well-formed grid. */
  function Expected(rows: seq<string>): Parsed
    requires WellFormed(rows)
  {
    var t := ScanColumns(rows, |rows[0]|);
    Parsed(Board(Columns(rows, |rows[0]|)), t.ghosts, t.starts, t.calls)
  }

  /** `MapParser.parseMap`: a configuration error for a malformed grid, with
      no factory call made; otherwise one pass over the cells, column by
      column, that builds the board and records the factory calls. */
  method ParseMap(rows: seq<string>) returns (r: Result<Parsed, ConfigError>)
    ensures r.Err? <==> !WellFormed(rows)
    ensures r.Err? ==> Some(r.error) == CheckMapFormat(rows)
    ensures r.Ok? ==> WellFormed(rows) && r.value == Expected(rows)
  {
    var check := CheckMapFormat(rows);
    if check.Some? {
      return Err(check.value);
    }
    var width, height := |rows[0]|, |rows|;
    var columns: seq<seq<Square>> := [];
    var t := Tally([], [], []);
    var x := 0;
    while x < width
      invariant 0 <= x <= width
      invariant columns == Columns(rows, x)
      invariant t == ScanColumns(rows, x)
    {
      var column: seq<Square> := [];
      var t0 := t;
      var y := 0;
      while y < height
        invariant 0 <= y <= height
        invariant column == Column(rows, x, y)
        invariant t == ScanColumn(rows, x, y, t0)
      {
        var c := rows[y][x];
        column := column + [CellSquare(c)];
        t := Visit(t, c, Pos(x, y));
        y := y + 1;
      }
      columns := columns + [column];
      x := x + 1;
    }
    return Ok(Parsed(Board(columns), t.ghosts, t.starts, t.calls));
  }

  // ---- what the parsed board is

  lemma {:induction false} ColumnAt(rows: seq<string>, x: nat, y: nat)
    requires y <= |rows| && forall j :: 0 <= j < y ==> x < |rows[j]|
    ensures |Column(rows, x, y)| == y
    ensures forall j :: 0 <= j < y ==> Column(rows, x, y)[j] == CellSquare(rows[j][x])
  {
    if y > 0 {
      ColumnAt(rows, x, y - 1);
    }
  }

  lemma {:induction false} ColumnsAt(rows: seq<string>, x: nat)
    requires |rows| > 0 && SameWidths(rows) && x <= |rows[0]|
    ensures |Columns(rows, x)| == x
    ensures forall i :: 0 <= i < x ==> Columns(rows, x)[i] == Column(rows, i, |rows|)
  {
    if x > 0 {
      ColumnsAt(rows, x - 1);
    }
  }

  /** The parsed board has one column per character of a row and one row
      per text row, and the square at (x, y) is the one for character x of
      row y. */
  lemma ParsedBoard(rows: seq<string>)
    requires WellFormed(rows)
    ensures var b := Expected(rows).board;
      && Rectangular(b) && Width(b) == |rows[0]| && Height(b) == |rows|
      && forall x, y :: 0 <= x < Width(b) && 0 <= y < Height(b) ==> b.grid[x][y] == CellSquare(rows[y][x])
  {
    var w, h := |rows[0]|, |rows|;
    ColumnsAt(rows, w);
    forall x | 0 <= x < w
      ensures |Columns(rows, w)[x]| == h
      ensures forall y :: 0 <= y < h ==> Columns(rows, w)[x][y] == CellSquare(rows[y][x])
    {
      ColumnAt(rows, x, h);
    }
  }

  lemma {:induction false} ScanColumnExtends(rows: seq<string>, x: nat, y: nat, t: Tally, p: Pos)
    requires y <= |rows| && forall j :: 0 <= j < y ==> x < |rows[j]|
    ensures var s := ScanColumn(rows, x, y, t);
      && (p in s.starts <==> p in t.starts || (p.x == x && 0 <= p.y < y && rows[p.y][x] == 'P'))
      && (p in s.ghosts <==> p in t.ghosts || (p.x == x && 0 <= p.y < y && rows[p.y][x] == 'G'))
  {
    if y > 0 {
      ScanColumnExtends(rows, x, y - 1, t, p);
    }
  }

  lemma {:induction false} ScanColumnsMembers(rows: seq<string>, x: nat, p: Pos)
    requires |rows| > 0 && SameWidths(rows) && x <= |rows[0]|
    ensures var s := ScanColumns(rows, x);
      && (p in s.starts <==> 0 <= p.x < x && 0 <= p.y < |rows| && rows[p.y][p.x] == 'P')
      && (p in s.ghosts <==> 0 <= p.x < x && 0 <= p.y < |rows| && rows[p.y][p.x] == 'G')
  {
    if x > 0 {
      ScanColumnsMembers(rows, x - 1, p);
      ScanColumnExtends(rows, x - 1, |rows|, ScanColumns(rows, x - 1), p);
    }
  }

  /** The start squares are exactly the squares of the `P` characters, and
      the ghosts stand exactly on the squares of the `G` characters. */
  lemma StartsAndGhosts(rows: seq<string>, p: Pos)
    requires WellFormed(rows)
    ensures p in Expected(rows).starts <==> 0 <= p.x < |rows[0]| && 0 <= p.y < |rows| && rows[p.y][p.x] == 'P'
    ensures p in Expected(rows).ghosts <==> 0 <= p.x < |rows[0]| && 0 <= p.y < |rows| && rows[p.y][p.x] == 'G'
  {
    ParsedBoard(rows);
    ScanColumnsMembers(rows, |rows[0]|, p);
  }

  // ---- the parser test cases

  const SmallGrid: seq<string> := ["P #", "G ."]

  lemma SmallGridWellFormed()
    ensures WellFormed(SmallGrid)
  {
    var rows := SmallGrid;
    assert rows[0] == "P #" && rows[1] == "G .";
    assert forall y, x :: 0 <= y < 2 && 0 <= x < 3 ==> IsSymbol(rows[y][x]);
  }

  const SmallGridCalls: seq<FactoryCall> :=
    [CreateGround, CreateGround, CreateGhost, CreateGround, CreateGround, CreateWall, CreateGround, CreatePellet]

  /** A column of the two-row grid is its top cell, then its bottom cell. */
  lemma SmallGridColumn(x: nat, t: Tally)
    requires x < 3
    ensures ScanColumn(SmallGrid, x, 2, t) == Visit(Visit(t, SmallGrid[0][x], Pos(x, 0)), SmallGrid[1][x], Pos(x, 1))
  {
    assert ScanColumn(SmallGrid, x, 1, t) == Visit(t, SmallGrid[0][x], Pos(x, 0));
  }

  lemma SmallGridScan()
    ensures WellFormed(SmallGrid)
    ensures ScanColumns(SmallGrid, 3) == Tally([Pos(0, 1)], [Pos(0, 0)], SmallGridCalls)
  {
    SmallGridWellFormed();
    var rows := SmallGrid;
    assert rows[0][0] == 'P' && rows[0][1] == ' ' && rows[0][2] == '#';
    assert rows[1][0] == 'G' && rows[1][1] == ' ' && rows[1][2] == '.';
    var t0 := Tally([], [], []);
    SmallGridColumn(0, t0);
    var t1 := Tally([Pos(0, 1)], [Pos(0, 0)], [CreateGround, CreateGround, CreateGhost]);
    assert ScanColumns(rows, 1) == t1;
    SmallGridColumn(1, t1);
    var t2 := t1.(calls := t1.calls + [CreateGround, CreateGround]);
    assert ScanColumns(rows, 2) == t2;
    SmallGridColumn(2, t2);
    assert ScanColumns(rows, 3) == t2.(calls := t2.calls + [CreateWall, CreateGround, CreatePellet]);
  }

  lemma SmallGridCallCounts()
    ensures multiset(SmallGridCalls)[CreateGround] == 5
    ensures multiset(SmallGridCalls)[CreateWall] == 1
    ensures multiset(SmallGridCalls)[CreateGhost] == 1
    ensures multiset(SmallGridCalls)[CreatePellet] == 1
  {
  }

  /** `["P #", "G ."]`: 5 grounds, 1 wall, 1 ghost, 1 pellet, one start. */
  lemma SmallGridCounts()
    ensures WellFormed(SmallGrid)
    ensures multiset(Expected(SmallGrid).calls)[CreateGround] == 5
    ensures multiset(Expected(SmallGrid).calls)[CreateWall] == 1
    ensures multiset(Expected(SmallGrid).calls)[CreateGhost] == 1
    ensures multiset(Expected(SmallGrid).calls)[CreatePellet] == 1
    ensures |Expected(SmallGrid).starts| == 1
  {
    SmallGridScan();
    assert Expected(SmallGrid).calls == SmallGridCalls;
    SmallGridCallCounts();
  }

  lemma InvalidCharFails()
    ensures CheckMapFormat(["C ", "  "]) == Some(InvalidChar(0, 0, 'C'))
  {
    var rows := ["C ", "  "];
    assert !IsSymbol(rows[0][0]);
    assert FirstBadInColumn(rows, 0, 0) == Some(0);
  }

  lemma UnequalWidthsFail()
    ensures CheckMapFormat(["  ", "   "]) == Some(UnequalWidths(1))
  {
  }

  lemma EmptyRowFails()
    ensures CheckMapFormat([""]) == Some(EmptyRows)
  {
  }

  lemma NoRowsFail()
    ensures CheckMapFormat([]) == Some(NoRows)
  {
  }
}
