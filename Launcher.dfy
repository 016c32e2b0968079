/** The multi-level launcher: three copies of one small hand-written level
    in a ten-slot level array. */
module Launcher {
  import opened Wrappers
  import opened Units
  import opened Boards
  import opened Collisions
  import opened MapParser
  import opened Levels
  import opened Games

  /** The rows `makeLevel` hands to the map parser. */
  const LauncherGrid: seq<string> := ["#####", "#GP.#", "#####"]

  const WallSquare := Square(Wall, [])
  const WallColumn: seq<Square> := [WallSquare, WallSquare, WallSquare]

  /** The parsed launcher level, column by column: a ring of walls around
      a ghost, the start square and a pellet. */
  const LauncherBoard := Board([
    WallColumn,
    [WallSquare, Square(Ground, [GhostUnit]), WallSquare],
    [WallSquare, Square(Ground, []), WallSquare],
    [WallSquare, Square(Ground, [PelletUnit(PelletValue)]), WallSquare],
    WallColumn])

  lemma LauncherGridWellFormed()
    ensures WellFormed(LauncherGrid)
  {
    var rows := LauncherGrid;
    assert rows[0] == "#####" && rows[1] == "#GP.#" && rows[2] == "#####";
    assert forall y, x :: 0 <= y < 3 && 0 <= x < 5 ==> IsSymbol(rows[y][x]);
  }

  /** The parser turns the launcher rows into the launcher board. */
  lemma LauncherParse()
    ensures WellFormed(LauncherGrid)
    ensures Expected(LauncherGrid).board == LauncherBoard
  {
    LauncherGridWellFormed();
    ParsedBoard(LauncherGrid);
    LauncherCells(Expected(LauncherGrid).board);
  }

  /** A 5x3 grid holding the square of each launcher character is the launcher board. */
  lemma LauncherCells(b: Board)
    requires Rectangular(b) && Width(b) == 5 && Height(b) == 3
    requires forall x, y :: 0 <= x < 5 && 0 <= y < 3 ==> b.grid[x][y] == CellSquare(LauncherGrid[y][x])
    ensures b == LauncherBoard
  {
    var rows := LauncherGrid;
    assert rows[0] == "#####" && rows[1] == "#GP.#" && rows[2] == "#####";
    forall x | 0 <= x < 5
      ensures b.grid[x] == LauncherBoard.grid[x]
    {
      assert |b.grid[x]| == 3;
      assert b.grid[x][0] == CellSquare(rows[0][x]) == WallSquare;
      assert b.grid[x][1] == CellSquare(rows[1][x]);
      assert b.grid[x][2] == CellSquare(rows[2][x]) == WallSquare;
    }
  }

  /** The only start square is the `P` in the middle, and the only ghost
      stands just west of it. */
  lemma LauncherStarts(p: Pos)
    ensures WellFormed(LauncherGrid)
    ensures p in Expected(LauncherGrid).starts <==> p == Pos(2, 1)
    ensures p in Expected(LauncherGrid).ghosts <==> p == Pos(1, 1)
  {
    LauncherGridWellFormed();
    var rows := LauncherGrid;
    assert rows[0] == "#####" && rows[1] == "#GP.#" && rows[2] == "#####";
    StartsAndGhosts(rows, p);
  }

  lemma ThreeSquarePellets(a: Square, b: Square, c: Square)
    ensures ColumnPellets([a, b, c])
            == CountPellets(a.occupants) + CountPellets(b.occupants) + CountPellets(c.occupants)
  {
    assert [a, b, c][..2] == [a, b];
    assert [a, b][..1] == [a];
    assert [a][..0] == [];
    assert ColumnPellets([a]) == CountPellets(a.occupants);
    assert ColumnPellets([a, b]) == ColumnPellets([a]) + CountPellets(b.occupants);
  }

  lemma OneUnitPellets(u: Unit)
    ensures CountPellets([u]) == if u.PelletUnit? then 1 else 0
  {
    assert [u][..0] == [];
  }

  /** The launcher board holds exactly one pellet. */
  lemma LauncherPellets()
    ensures PelletCount(LauncherBoard) == 1
  {
    var g := LauncherBoard.grid;
    OneUnitPellets(GhostUnit);
    OneUnitPellets(PelletUnit(PelletValue));
    ThreeSquarePellets(WallSquare, WallSquare, WallSquare);
    ThreeSquarePellets(WallSquare, Square(Ground, [GhostUnit]), WallSquare);
    ThreeSquarePellets(WallSquare, Square(Ground, []), WallSquare);
    ThreeSquarePellets(WallSquare, Square(Ground, [PelletUnit(PelletValue)]), WallSquare);
    assert g[..1][..0] == [] && g[..2][..1] == g[..1];
    assert g[..3][..2] == g[..2] && g[..4][..3] == g[..3];
    assert GridPellets(g[..1]) == 0;
    assert GridPellets(g[..2]) == 0;
    assert GridPellets(g[..3]) == 0;
    assert GridPellets(g[..4]) == 1;
  }

  /** Moving east from the start square eats the pellet, which empties
      the board. */
  lemma LauncherEast(m: CollisionMap, alive: bool, score: int)
    ensures GoodBoard(LauncherBoard)
    ensures var r := MoveOn(m, LauncherBoard, PlayerView(alive, score, Pos(2, 1)), East);
      && r.1 == PlayerView(alive, score + PelletValue, Pos(3, 1))
      && PelletCount(r.0) == 0
  {
    var b := LauncherBoard;
    assert GoodBoard(b);
    assert Neighbour(b, Pos(2, 1), East) == Pos(3, 1);
    var occupants := b.grid[3][1].occupants;
    assert occupants == [PelletUnit(PelletValue)];
    assert occupants[..0] == [];
    assert !HasKind(occupants, GhostKind);
    assert PelletPoints(occupants) == PelletValue;
    OneUnitPellets(PelletUnit(PelletValue));
    LauncherPellets();
    MoveOnFacts(m, b, PlayerView(alive, score, Pos(2, 1)), East);
  }

  /** Moving west from the start square walks into the ghost. */
  lemma LauncherWest(m: CollisionMap, alive: bool, score: int)
    ensures GoodBoard(LauncherBoard)
    ensures var r := MoveOn(m, LauncherBoard, PlayerView(alive, score, Pos(2, 1)), West);
      && !r.1.alive && r.1.square == Pos(1, 1) && r.1.score == score
      && PelletCount(r.0) == 1
  {
    var b := LauncherBoard;
    assert GoodBoard(b);
    assert Neighbour(b, Pos(2, 1), West) == Pos(1, 1);
    var occupants := b.grid[1][1].occupants;
    assert occupants == [GhostUnit];
    assert occupants[..0] == [];
    assert HasKind(occupants, GhostKind) by {
      assert KindOf(occupants[0]) == GhostKind;
    }
    assert PelletPoints(occupants) == 0;
    OneUnitPellets(GhostUnit);
    LauncherPellets();
    MoveOnFacts(m, b, PlayerView(alive, score, Pos(2, 1)), West);
  }

  /** Moving north from the start square hits the wall: nothing changes. */
  lemma LauncherNorth(m: CollisionMap, alive: bool, score: int)
    ensures GoodBoard(LauncherBoard)
    ensures MoveOn(m, LauncherBoard, PlayerView(alive, score, Pos(2, 1)), North)
            == (LauncherBoard, PlayerView(alive, score, Pos(2, 1)))
  {
    var b := LauncherBoard;
    assert GoodBoard(b);
    assert Neighbour(b, Pos(2, 1), North) == Pos(2, 0);
    MoveOnFacts(m, b, PlayerView(alive, score, Pos(2, 1)), North);
  }

  /** A level built by `makeLevel`. */
  ghost predicate LauncherLevel(l: Level?)
    reads l
  {
    l != null && l.board == LauncherBoard && l.collisions == PlayerCollisions
  }

  /** The start squares of a launcher level: (2, 1) alone. They are
      fixed when the level is made, so play never changes them. */
  ghost predicate LauncherStart(l: Level?)
  {
    && l != null && |l.startSquares| > 0 && l.startSquares[0] == Pos(2, 1)
    && forall p :: p in l.startSquares <==> p == Pos(2, 1)
  }

  /** A level built by `makeLevel` that no game has used yet. */
  ghost predicate FreshLevel(l: Level)
    reads l
  {
    LauncherLevel(l) && LauncherStart(l) && l.Valid() && l.Unused()
  }

  class MultiLevelLauncher {
    var multiGame: Game?

    constructor ()
      ensures multiGame == null
    {
      multiGame := null;
    }

    /** `makeLevel()`: parses the launcher rows into a fresh level with the
        player-collision rules. */
    method MakeLevel() returns (l: Level)
      ensures fresh(l) && l.Valid() && l.Unused()
      ensures l.board == LauncherBoard && l.collisions == PlayerCollisions
      ensures forall p :: p in l.startSquares <==> p == Pos(2, 1)
    {
      var grid: seq<string> := [];
      grid := grid + ["#####"];
      grid := grid + ["#GP.#"];
      grid := grid + ["#####"];
      assert grid == LauncherGrid;
      LauncherParse();
      var r := ParseMap(grid);
      assert r.Ok?;
      var parsed := r.value;
      ParsedBoard(grid);
      forall p | p in parsed.starts
        ensures InBounds(parsed.board, p)
      {
        LauncherStarts(p);
      }
      forall p
        ensures p in parsed.starts <==> p == Pos(2, 1)
      {
        LauncherStarts(p);
      }
      l := new Level(parsed.board, parsed.starts, PlayerCollisions);
    }

    /** `makeGame()`: three fresh launcher levels in slots 0 to 2 of a
        ten-slot array, the rest empty, and a new player on level 0. */
    method MakeGame() returns (g: Game)
      modifies this
      ensures fresh(g) && fresh(g.levels) && fresh(g.player) && multiGame == g
      ensures g.Valid() && g.variant == Multi && g.count == 0 && !g.inProgress
      ensures g.levels.Length == 10 && fresh(g.Reachable)
      ensures forall i :: 0 <= i < 3 ==> LauncherLevel(g.levels[i]) && LauncherStart(g.levels[i])
      ensures forall i :: 3 <= i < 10 ==> g.levels[i] == null
      ensures g.player.alive && g.player.score == 0 && g.player.square == Some(Pos(2, 1))
    {
      g := BuildGame();
      multiGame := g;
    }

    /** The game `makeGame` stores: the multi-level game over the filled
        array, with a new player. */
    method BuildGame() returns (g: Game)
      ensures fresh(g) && fresh(g.levels) && fresh(g.player)
      ensures g.Valid() && g.variant == Multi && g.count == 0 && !g.inProgress
      ensures g.levels.Length == 10 && fresh(g.Reachable)
      ensures forall i :: 0 <= i < 3 ==> LauncherLevel(g.levels[i]) && LauncherStart(g.levels[i])
      ensures forall i :: 3 <= i < 10 ==> g.levels[i] == null
      ensures g.player.alive && g.player.score == 0 && g.player.square == Some(Pos(2, 1))
    {
      var level := MakeLevels();
      var l0, l1, l2 := level[0], level[1], level[2];
      var p := new Player();
      g := new Game.MultiLevel(p, level);
      assert g.levels[0] == l0 && g.levels[1] == l1 && g.levels[2] == l2;
      assert LauncherLevel(l0) && LauncherLevel(l1) && LauncherLevel(l2);
      assert LauncherStart(l0) && LauncherStart(l1) && LauncherStart(l2);
    }

    /** The loop of `makeGame`: slots 0 to 2 of a new ten-slot array each
        get a distinct level of their own. */
    method MakeLevels() returns (level: array<Level?>)
      ensures fresh(level) && level.Length == 10
      ensures forall j :: 0 <= j < 3 ==> level[j] != null && fresh(level[j]) && FreshLevel(level[j])
      ensures level[0] != level[1] && level[0] != level[2] && level[1] != level[2]
      ensures forall j :: 3 <= j < 10 ==> level[j] == null
    {
      level := new Level?[10](_ => null);
      for i := 0 to 3
        invariant forall j :: 0 <= j < i ==> level[j] != null && fresh(level[j]) && FreshLevel(level[j])
        invariant forall j, k :: 0 <= j < k < i ==> level[j] != level[k]
        invariant forall j :: i <= j < 10 ==> level[j] == null
      {
        var l := MakeLevel();
        assert Pos(2, 1) in l.startSquares;
        assert l.startSquares[0] in l.startSquares;
        level[i] := l;
      }
    }

    /** `getGame()`: the game the last `makeGame` built, if any. */
    function GetGame(): (g: Game?)
      reads this
      ensures g == multiGame
    {
      multiGame
    }
  }
}
