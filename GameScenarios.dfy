/** The start, stop, win and lose sequences the game tests run, on the
    single-level game and on the multi-level game. Both are built from the
    launcher level: the player starts at (2, 1), a ghost waits to the west
    and the only pellet lies to the east. */
module GameScenarios {
  import opened Wrappers
  import opened Boards
  import opened Collisions
  import opened Levels
  import opened Games
  import opened Launcher
  import opened MapParser

  /** A new game of either variant, not yet started. */
  method NewGame(v: Variant) returns (g: Game)
    ensures fresh(g) && fresh(g.player) && fresh(g.Reachable)
    ensures g.Valid() && g.variant == v && g.count == 0 && !g.inProgress
    ensures forall i :: 0 <= i <= g.FinalIndex() ==> LauncherLevel(g.levels[i]) && LauncherStart(g.levels[i])
    ensures g.player.alive && g.player.score == 0 && g.player.square == Some(Pos(2, 1))
  {
    var launcher := new MultiLevelLauncher();
    if v == Multi {
      var made := launcher.MakeGame();
      g := launcher.GetGame();
      assert g == made;
    } else {
      var l := launcher.MakeLevel();
      var p := new Player();
      assert Pos(2, 1) in l.startSquares;
      assert l.startSquares[0] in l.startSquares;
      assert LauncherStart(l);
      g := new Game.SinglePlayer(p, l);
    }
  }

  /** A new game that has been started. */
  method StartedGame(v: Variant) returns (g: Game)
    ensures fresh(g) && fresh(g.player) && fresh(g.Reachable)
    ensures g.Valid() && g.variant == v && g.count == 0 && g.inProgress
    ensures forall i :: 0 <= i <= g.FinalIndex() ==> LauncherLevel(g.levels[i]) && LauncherStart(g.levels[i])
    ensures g.player.alive && g.player.score == 0 && g.player.square == Some(Pos(2, 1))
  {
    g := NewGame(v);
    LauncherPellets();
    g.Start();
  }

  /** A started game whose player has eaten the only pellet. */
  method WonGame(v: Variant) returns (g: Game)
    ensures fresh(g) && fresh(g.player) && fresh(g.Reachable)
    ensures g.Valid() && g.variant == v && !g.inProgress
    ensures g.count == if v == Multi then 1 else 0
    ensures v == Multi ==> forall i :: 1 <= i <= 2 ==> LauncherLevel(g.levels[i]) && LauncherStart(g.levels[i])
    ensures v == Single ==> PelletCount(g.levels[g.count].board) == 0
    ensures g.player.alive && g.player.score == PelletValue
    ensures g.player.square == Some(if v == Multi then Pos(2, 1) else Pos(3, 1))
  {
    g := StartedGame(v);
    WinLevel(g);
  }

  /** On a running launcher level, the move east eats the level's only
      pellet and wins it: the game stops, its player gains the pellet's
      points, and the multi-level game moves on to the next level and its
      start square. The levels not played on keep their boards. */
  method WinLevel(g: Game)
    requires g.Valid() && g.inProgress
    requires LauncherLevel(g.levels[g.count]) && LauncherStart(g.levels[g.count])
    requires g.count < g.FinalIndex() ==> LauncherStart(g.levels[g.count + 1])
    requires g.player.square == Some(Pos(2, 1))
    modifies g`inProgress, g`count, g.Reachable, g.player
    ensures g.Valid() && !g.inProgress
    ensures g.count == if old(g.count) < g.FinalIndex() then old(g.count) + 1 else old(g.count)
    ensures g.player.alive == old(g.player.alive) && g.player.score == old(g.player.score) + PelletValue
    ensures PelletCount(g.levels[old(g.count)].board) == 0
    ensures g.player.square == Some(if g.count != old(g.count) then Pos(2, 1) else Pos(3, 1))
    ensures forall l :: l in g.Reachable && l != g.levels[old(g.count)] ==> l.board == old(l.board)
  {
    var level := g.GetLevel();
    LauncherEast(level.collisions, g.player.alive, g.player.score);
    var player := g.GetPlayers()[0];
    g.Move(player, East);
  }

  /** A started game whose player has walked into the ghost. */
  method LostGame(v: Variant) returns (g: Game)
    ensures fresh(g) && fresh(g.player) && fresh(g.Reachable)
    ensures g.Valid() && g.variant == v && g.count == 0 && !g.inProgress
    ensures !g.player.alive
  {
    g := StartedGame(v);
    LauncherWest(g.GetLevel().collisions, true, 0);
    var player := g.GetPlayers()[0];
    g.Move(player, West);
  }

  /** `initial`: a new game is not in progress. */
  method Initial(v: Variant) returns (inProgress: bool)
    ensures !inProgress
  {
    var g := NewGame(v);
    inProgress := g.IsInProgress();
  }

  /** `stop` and `readyStop`: stopping a game that is ready to start
      leaves it stopped. */
  method ReadyStop(v: Variant) returns (inProgress: bool)
    ensures !inProgress
  {
    var g := NewGame(v);
    g.Stop();
    inProgress := g.IsInProgress();
  }

  /** `readyStart`: starting a game that is ready puts it in progress. */
  method ReadyStart(v: Variant) returns (inProgress: bool)
    ensures inProgress
  {
    var g := StartedGame(v);
    inProgress := g.IsInProgress();
  }

  /** `startStop` and `playingStop`. */
  method StartStop(v: Variant) returns (inProgress: bool)
    ensures !inProgress
  {
    var g := StartedGame(v);
    g.Stop();
    inProgress := g.IsInProgress();
  }

  /** `startStart` and `playingStart`: a second start changes nothing. */
  method StartStart(v: Variant) returns (inProgress: bool)
    ensures inProgress
  {
    var g := StartedGame(v);
    g.Start();
    inProgress := g.IsInProgress();
  }

  /** `playingWin`: eating the last pellet stops the game, with the player
      alive. */
  method PlayingWin(v: Variant) returns (inProgress: bool, alive: bool)
    ensures !inProgress && alive
  {
    var g := WonGame(v);
    inProgress, alive := g.IsInProgress(), g.GetPlayers()[0].alive;
  }

  /** `startWinStop`. */
  method StartWinStop(v: Variant) returns (alive: bool, inProgress: bool)
    ensures alive && !inProgress
  {
    var g := WonGame(v);
    alive := g.GetPlayers()[0].alive;
    g.Stop();
    inProgress := g.IsInProgress();
  }

  /** `startWinStart`: after a win the single-level game cannot be started
      again, since its board has no pellet left, while the multi-level game
      starts on its next level. */
  method StartWinStart(v: Variant) returns (alive: bool, inProgress: bool)
    ensures alive
    ensures inProgress <==> v == Multi
  {
    var g := WonGame(v);
    alive := g.GetPlayers()[0].alive;
    LauncherPellets();
    g.Start();
    inProgress := g.IsInProgress();
  }

  /** On the multi-level game, winning the first level and then the
      second, each by the same move east, leaves the game stopped on the
      third level, with the player on its start square and both pellets'
      points in the score. */
  method SecondLevelWin() returns (g: Game)
    ensures g.Valid() && g.variant == Multi && !g.inProgress && g.count == 2
    ensures g.player.alive && g.player.score == 2 * PelletValue
    ensures g.player.square == Some(Pos(2, 1))
  {
    g := WonGame(Multi);
    LauncherPellets();
    g.Start();
    WinLevel(g);
  }

  /** `startLose` and `playingLose`: walking into the ghost kills the
      player and stops the game. */
  method StartLose(v: Variant) returns (inProgress: bool, alive: bool)
    ensures !inProgress && !alive
  {
    var g := LostGame(v);
    inProgress, alive := g.IsInProgress(), g.GetPlayers()[0].alive;
  }

  /** `endedStart`: a lost game cannot be started again. */
  method EndedStart(v: Variant) returns (inProgress: bool)
    ensures !inProgress
  {
    var g := LostGame(v);
    g.Start();
    inProgress := g.IsInProgress();
  }

  /** `endedStop`. */
  method EndedStop(v: Variant) returns (inProgress: bool)
    ensures !inProgress
  {
    var g := LostGame(v);
    g.Stop();
    inProgress := g.IsInProgress();
  }
}
