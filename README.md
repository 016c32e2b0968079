# JPacman, group 25: multi-level game, ghost registry and framework contracts

This project models the verifiable core of the group-25 extension of JPacman, a
Pac-Man clone for teaching, in Dafny.

The extension adds three things:

- a **multi-level game**: an array of levels, an index `count` that a win moves on
  while `count < 2`, and one player who is registered again on each new level;
- the **multi-level launcher**, which puts three copies of a small hand-written
  level (`#####`, `#GP.#`, `#####`) into a ten-slot level array;
- a **ghost factory** that keeps the Blinkies it creates in a linked list.

The framework these build on is not part of the sources. Its behaviour is modelled
from what the group's unit tests require of it:

- the two collision maps;
- the map parser's format checks and its factory calls;
- the board's bounds predicate and square lookup;
- a level's move, start, stop and end-state report;
- the game's start, stop, win and lose state machine;
- the occupant search `Util.contains`.

Files, one module each:

| file | contents |
|---|---|
| `Wrappers.dfy` | `Option` and `Result` |
| `Units.dfy` | the occupant kinds (player, ghost, pellet) and counts over occupant lists |
| `Boards.dfy` | the board: a grid indexed `grid[x][y]`, `withinBorders`, `squareAt`, neighbours, pellet count |
| `Util.dfy` | `contains` as a loop, proved against an existential |
| `Collisions.dfy` | `collide` for both collision maps, as the calls it makes on the units; what arriving on a square does to the player |
| `MapParser.dfy` | the format check, the per-cell parse loop and the parser test cases |
| `Levels.dfy` | the `Player` and `Level` classes: register, start, stop, move |
| `Games.dfy` | the `Game` class, one class for the single-level and the multi-level game |
| `Launcher.dfy` | `MultiLevelLauncher`: `makeLevel`, `makeGame`, `getGame`, plus facts about the launcher level |
| `GhostFactory.dfy` | `CustomGhostFactory`: `createBlinky` as written and as intended, `popBlinky` |
| `GameScenarios.dfy` | the start/stop/win/lose test sequences, for both game variants |

Conventions:

- A collision's Mockito-verified calls (`setAlive`, `addPoints`, `leaveSquare`)
  form an effect log of `Call` values. "Exactly once" and "never" become
  multiset counts.
- The level observers (`levelWon`, `levelLost`) are a list of events returned
  by `Level.Move`. `Game.Move` handles them in the framework's order: loss
  first, then win.
- Java `assert`s in the constructors are `requires` clauses.

## Model

| member | source | states |
|---|---|---|
| Games.Game.MultiLevel | src/main/java/nl/tudelft/jpacman/group25/game/MultiLevelGame.java:20-27 | the game starts at index 0 on the given array, not in progress, with the player registered on level 0's first start square; the game invariant holds |
| Games.Game.GetLevel | src/main/java/nl/tudelft/jpacman/group25/game/MultiLevelGame.java:30-32 | the level at index `count`; the game invariant keeps `count` at most 2 (0 for the single-level game), so that slot is always filled, and the slots it has not reached yet hold unused levels |
| Games.Game.GetPlayers | src/main/java/nl/tudelft/jpacman/group25/game/MultiLevelGame.java:35-37 | a one-element list holding the constructor's player |
| Games.Game.LevelWon | src/main/java/nl/tudelft/jpacman/group25/game/MultiLevelGame.java:40-46 | the game and the won level stop first; then the multi-level game moves `count` up by exactly one while `count < 2`, appends the same player to the new level's players and puts them on its first start square; at the last level, or in the single-level game, nothing else changes; no board changes, no other level's in-progress flag changes, and no level other than the new one gains a player or moves its start index |
| Games.Game.SinglePlayer | src/test/java/nl/tudelft/jpacman/game/MultiAndSingleGameTest.java:28-34 | the single-level game over one level: index 0, not in progress, player registered on the level |
| Games.Game.Start | src/test/java/nl/tudelft/jpacman/game/MultiAndSingleGameTest.java:109-134 | afterwards, in progress exactly when it already was, or the player is alive and a pellet is left |
| Games.Game.Stop | src/test/java/nl/tudelft/jpacman/game/MultiAndSingleGameTest.java:50-65 | afterwards not in progress, in every state |
| Games.Game.LevelLost | src/test/java/nl/tudelft/jpacman/game/MultiAndSingleGameTest.java:164-171 | a lost level stops the game |
| Games.Game.Move | src/test/java/nl/tudelft/jpacman/game/MultiAndSingleGameTest.java:151-171 | a stopped game ignores moves; a running game moves the player as `MoveOn` says, stays in progress (and so does its level) exactly when the player lives and a pellet is left, and on a win advances the multi-level game to the next level, whose players gain the player, standing on its first start square; no other level's board, in-progress flag, players or start index changes |
| Games.Game.Play | src/test/java/nl/tudelft/jpacman/game/MultiAndSingleGameTest.java:151-171 | the running level moves the game's player as `MoveOn` says; the report is loss if the player died and win if no pellet is left; no level's flag, players or start index and no other level's board changes |
| Games.Game.Notify | src/main/java/nl/tudelft/jpacman/group25/game/MultiLevelGame.java:40-46 | the level's end report handled in the framework's order, loss then win: afterwards the game runs exactly when nothing was reported, `count` moves on exactly on a win with a level left, and the frame facts of `LevelWon` hold |
| Games.Game.Turn | src/test/java/nl/tudelft/jpacman/game/MultiAndSingleGameTest.java:151-171 | the running case of `move`: the level's move as `MoveOn` says, then the report handled, with the frame facts of `move` |
| Games.Game.IsInProgress | src/test/java/nl/tudelft/jpacman/game/MultiAndSingleGameTest.java:40-44 | the active level's in-progress flag; when it is true the player is alive and a pellet is left on that level |
| Levels.Level.constructor | src/test/java/nl/tudelft/jpacman/level/MapParserTest.java:100-106 | `createLevel(board, ghosts, startSquares)`: a level on the given board, start squares and collision map, with no player registered, the start index at 0 and not in progress |
| Levels.Level.Stop | src/test/java/nl/tudelft/jpacman/game/MultiAndSingleGameTest.java:50-65 | afterwards the level is not in progress; its board, players and start index are untouched |
| Levels.MoveOn | src/test/java/nl/tudelft/jpacman/game/MultiAndSingleGameTest.java:151-171 | a move keeps the board well formed with its dimensions and leaves the player inside it (its full effect is `MoveOnFacts`) |
| Levels.MakeCalls | src/test/java/nl/tudelft/jpacman/level/PlayerCollisionsTest.java:81-99 | the calls of one collision made on the player in order leave its alive flag and score as `ApplyCalls` says, and report the other unit as leaving exactly when a `leaveSquare` was among them |
| Levels.Level.RegisterPlayer | src/main/java/nl/tudelft/jpacman/group25/game/MultiLevelGame.java:26 | a player already registered changes nothing; a new player is appended and placed on the current start square, and the start index moves on cyclically |
| Levels.Level.Start | src/test/java/nl/tudelft/jpacman/game/MultiAndSingleGameTest.java:109-113 | the level is in progress; starting a stopped level reports its end state at once |
| Levels.Level.Move | src/test/java/nl/tudelft/jpacman/game/MultiAndSingleGameTest.java:151-171 | a stopped level changes nothing; a running level changes board and player exactly as `MoveOn` describes, one collision call at a time, then reports loss if no player lives and win if no pellet is left |
| Levels.MoveOnFacts | src/test/java/nl/tudelft/jpacman/game/MultiAndSingleGameTest.java:151-171 | a wall blocks the move; otherwise the player stands on the destination, dies exactly when a ghost is there, gains every pellet's points there, those pellets leave the board and the board's pellet count drops by their number, so it drops exactly when a pellet was there |
| Levels.EndEvents | src/test/java/nl/tudelft/jpacman/game/GameTest.java:145-164 | the level's end report: a loss exactly when no player is alive, a win exactly when no pellet is left, nothing exactly when the game can go on, and a loss before a win when both happen |
| Levels.Level.AnyPlayerAlive | src/test/java/nl/tudelft/jpacman/game/GameTest.java:95-102 | false on a level nobody joined; on a one-player level, the player's alive flag |
| Levels.Level.RemainingPellets | src/test/java/nl/tudelft/jpacman/game/MultiAndSingleGameTest.java:151-158 | zero exactly when no square of the level's board holds a pellet |
| Levels.ArriveOn | src/test/java/nl/tudelft/jpacman/level/PlayerCollisionsTest.java:81-99 | the arrival loop: the player's alive flag and score and the units left on the square are those `Arrive` gives for the square's occupants in order |
| Launcher.MultiLevelLauncher.constructor | src/main/java/nl/tudelft/jpacman/group25/MultiLevelLauncher.java:13 | a new launcher holds no game yet, so `getGame` gives null until `makeGame` is called |
| Launcher.MultiLevelLauncher.MakeLevel | src/main/java/nl/tudelft/jpacman/group25/MultiLevelLauncher.java:43-50 | a fresh, unused level whose board is the parsed launcher board and whose only start square is (2, 1), with the player-collision rules |
| Launcher.MultiLevelLauncher.MakeLevels | src/main/java/nl/tudelft/jpacman/group25/MultiLevelLauncher.java:22-25 | a fresh ten-slot array whose slots 0, 1 and 2 hold three distinct new launcher levels and whose slots 3 to 9 are empty |
| Launcher.MultiLevelLauncher.MakeGame | src/main/java/nl/tudelft/jpacman/group25/MultiLevelLauncher.java:21-29 | a new multi-level game over that array with a new live player on (2, 1), not in progress, stored as the launcher's game; each of slots 0 to 2 holds a launcher level whose only start square is (2, 1), so every level the game advances to puts the player back on (2, 1) |
| Launcher.MultiLevelLauncher.BuildGame | src/main/java/nl/tudelft/jpacman/group25/MultiLevelLauncher.java:22-28 | the game `makeGame` stores, built without touching the launcher: the same facts about levels, slots and player |
| Launcher.MultiLevelLauncher.GetGame | src/main/java/nl/tudelft/jpacman/group25/MultiLevelLauncher.java:31-34 | the game the last `makeGame` stored, the same object |
| Launcher.LauncherGridWellFormed | src/main/java/nl/tudelft/jpacman/group25/MultiLevelLauncher.java:45-48 | the launcher rows are non-empty, all of length 5 and made of map symbols only |
| Launcher.LauncherParse | src/main/java/nl/tudelft/jpacman/group25/MultiLevelLauncher.java:45-49 | parsing the launcher rows yields a ring of walls around a ghost square, an empty start square and a pellet square |
| Launcher.LauncherStarts | src/main/java/nl/tudelft/jpacman/group25/MultiLevelLauncher.java:47 | the only start square is (2, 1) and the only ghost stands at (1, 1), directly west of it |
| Launcher.LauncherPellets | src/main/java/nl/tudelft/jpacman/group25/MultiLevelLauncher.java:47 | the launcher board holds exactly one pellet |
| Launcher.LauncherEast | src/test/java/nl/tudelft/jpacman/game/MultiAndSingleGameTest.java:151-158 | moving east from the start eats the pellet: the player moves to (3, 1), keeps their alive flag, gains 10 points, and the board is left with no pellet |
| Launcher.LauncherWest | src/test/java/nl/tudelft/jpacman/game/MultiAndSingleGameTest.java:164-171 | moving west from the start walks into the ghost: the player dies at (1, 1), gains nothing, and the pellet stays |
| Launcher.LauncherNorth | src/main/java/nl/tudelft/jpacman/group25/MultiLevelLauncher.java:46 | moving north from the start hits the wall, and neither board nor player changes |
| GhostFactory.CustomGhostFactory.constructor | src/main/java/nl/tudelft/jpacman/group25/npc/ghost/CustomGhostFactory.java:22-25 | a new factory has an empty registry |
| GhostFactory.CustomGhostFactory.CreateBlinky | src/main/java/nl/tudelft/jpacman/group25/npc/ghost/CustomGhostFactory.java:31-35 | a new ghost goes to the front and the old entries stay behind it in order; the ghost returned is the last (oldest) entry, so it is the new ghost only when the registry was empty |
| GhostFactory.CustomGhostFactory.PopBlinky | src/main/java/nl/tudelft/jpacman/group25/npc/ghost/CustomGhostFactory.java:42-44 | removes and returns the front entry, the newest ghost; an empty registry gives the error value and stays empty |
| GhostFactory.SecondBlinkyIsFirst | src/main/java/nl/tudelft/jpacman/group25/npc/ghost/CustomGhostFactory.java:33-34 | on a new factory the second `createBlinky` returns the first ghost again, and a pop then yields a ghost no call returned |
| GhostFactory.CustomGhostFactory.CreateBlinkyIntended | src/main/java/nl/tudelft/jpacman/group25/npc/ghost/CustomGhostFactory.java:27-35 | returns the new ghost, which goes to the front of the registry |
| GhostFactory.IntendedCreateThenPop | src/main/java/nl/tudelft/jpacman/group25/npc/ghost/CustomGhostFactory.java:37-44 | with the intended create, a pop right after returns the ghost just created and restores the registry |
| Util.Contains | src/test/java/nl/tudelft/jpacman/Util.java:24-32 | true exactly when some occupant of the square is of the given kind, false on an empty square; the square is only read |
| Collisions.Collide | src/test/java/nl/tudelft/jpacman/level/PlayerCollisionsTest.java:67-132 | for either map: the player is set dead exactly when a player and a ghost meet, never set alive; the pellet leaves exactly when a player and a pellet meet; points are added exactly then, and exactly the pellet's value |
| Collisions.DefaultTableIsDispatch | src/test/java/nl/tudelft/jpacman/level/PlayerCollisionsTest.java:59-65 | the symmetric rule table of `DefaultPlayerInteractionMap` makes the same calls as the double dispatch of `PlayerCollisions` |
| Collisions.MapsAgree | src/test/java/nl/tudelft/jpacman/level/PlayerCollisionsTest.java:59-65 | `PlayerCollisions` and `DefaultPlayerInteractionMap` make the same calls for every pair of units |
| Collisions.PlayerOnPlayer | src/test/java/nl/tudelft/jpacman/level/PlayerCollisionsTest.java:70-76 | two players meeting make no call |
| Collisions.PlayerOnGhost | src/test/java/nl/tudelft/jpacman/level/PlayerCollisionsTest.java:81-87 | the only call is setting the player's alive flag to false, once |
| Collisions.PlayerOnPellet | src/test/java/nl/tudelft/jpacman/level/PlayerCollisionsTest.java:93-99 | exactly one `addPoints` of the pellet's value and one `leaveSquare`; the alive flag is not touched |
| Collisions.GhostOnPlayer | src/test/java/nl/tudelft/jpacman/level/PlayerCollisionsTest.java:104-110 | the same single call as a player moving onto a ghost |
| Collisions.GhostOnGhost | src/test/java/nl/tudelft/jpacman/level/PlayerCollisionsTest.java:115-121 | no call |
| Collisions.GhostOnPellet | src/test/java/nl/tudelft/jpacman/level/PlayerCollisionsTest.java:126-132 | no call: the pellet stays and no points are added |
| Collisions.CollideSymmetric | src/test/java/nl/tudelft/jpacman/level/PlayerCollisionsTest.java:81-110 | the calls do not depend on which of the two units moved |
| Collisions.ArriveFacts | src/test/java/nl/tudelft/jpacman/level/PlayerCollisionsTest.java:81-99 | colliding with every occupant of a square in turn kills the player exactly when a ghost is among them, adds the points of all pellets and removes exactly the pellets |
| MapParser.CheckMapFormat | src/test/java/nl/tudelft/jpacman/level/MapParserTest.java:118-157 | no error exactly when the grid is well formed; no rows, an empty first row, the first row of another width and the first bad character are each reported as their own error |
| MapParser.ParseMap | src/test/java/nl/tudelft/jpacman/level/MapParserTest.java:66-116 | a malformed grid gives the format error with no factory call; a well-formed grid passes over every cell column by column and gives the board, ghosts, start squares and factory calls that `Expected` describes |
| MapParser.ParsedBoard | src/test/java/nl/tudelft/jpacman/level/MapParserTest.java:70-74 | the parsed board has one column per character and one row per line, and each square is the one for its character |
| MapParser.StartsAndGhosts | src/test/java/nl/tudelft/jpacman/level/MapParserTest.java:100-106 | the start squares are exactly the `P` cells and the ghosts stand exactly on the `G` cells |
| MapParser.SmallGridCounts | src/test/java/nl/tudelft/jpacman/level/MapParserTest.java:52-116 | `["P #", "G ."]` makes 5 grounds, 1 wall, 1 ghost, 1 pellet and a start list of size 1 |
| MapParser.InvalidCharFails | src/test/java/nl/tudelft/jpacman/level/MapParserTest.java:122-127 | `["C ", "  "]` fails with a bad-character error at (0, 0) |
| MapParser.UnequalWidthsFail | src/test/java/nl/tudelft/jpacman/level/MapParserTest.java:133-138 | `["  ", "   "]` fails with an unequal-width error at row 1 |
| MapParser.EmptyRowFails | src/test/java/nl/tudelft/jpacman/level/MapParserTest.java:144-148 | `[""]` fails with the empty-row error |
| MapParser.NoRowsFail | src/test/java/nl/tudelft/jpacman/level/MapParserTest.java:154-157 | no rows fails with the no-rows error |
| Boards.WithinBordersCases | src/test/java/nl/tudelft/jpacman/board/WithinBordersTest.java:67-78 | the eight test vectors on a 5x5 board: (0,1), (4,4) and (1,0) inside, (-1,2), (5,3), (2,-1) and (3,5) outside |
| Boards.UniformBoardBorders | src/test/java/nl/tudelft/jpacman/board/WithinBordersTest.java:41-61 | on a board of a positive width built from one square everywhere, `withinBorders(x, y)` holds exactly for 0 <= x < width and 0 <= y < height |
| Boards.WithinBordersIgnoresContents | src/test/java/nl/tudelft/jpacman/board/WithinBordersTest.java:46-56 | the answer depends only on the board's dimensions, not on the squares or their occupants |
| Boards.WithinBorders | src/test/java/nl/tudelft/jpacman/board/WithinBordersTest.java:84-87 | a point inside the borders names a column of the grid and has a non-negative row; on a rectangular board, inside exactly when the coordinates index a square of the grid |
| Boards.SquareAt | src/test/java/nl/tudelft/jpacman/board/BoardTest.java:48-49 | defined exactly inside the borders of a rectangular board, where it is the square stored at `grid[x][y]` |
| Boards.SquareAtSetOccupants | src/test/java/nl/tudelft/jpacman/board/BoardTest.java:48-49 | after the occupants of one square are replaced, `squareAt` reads the new occupants on a square of the same kind there, and the old square everywhere else |
| Boards.SquareAtSingleton | src/test/java/nl/tudelft/jpacman/board/BoardTest.java:32-50 | on a board built from a 1x1 grid, `squareAt(0, 0)` is the square stored at `grid[0][0]` |
| Boards.PelletCount | src/test/java/nl/tudelft/jpacman/game/MultiAndSingleGameTest.java:151-158 | the pellets on all squares; zero exactly when no square holds a pellet (a move's effect on it is `SetOccupantsPellets` and `MoveOnFacts`) |
| Boards.SetOccupantsPellets | src/test/java/nl/tudelft/jpacman/game/MultiAndSingleGameTest.java:151-158 | replacing one square's occupants changes the pellet count by exactly the difference of the two lists' pellet counts |
| Boards.Neighbour | src/test/java/nl/tudelft/jpacman/board/DirectionTest.java:19-31 | the square one step in a direction is always on the board, and when the plain step stays inside it is that step: north and south keep the column, east keeps the row |
| GameScenarios.Initial | src/test/java/nl/tudelft/jpacman/game/MultiAndSingleGameTest.java:40-44 | a new game of either kind is not in progress |
| GameScenarios.ReadyStop | src/test/java/nl/tudelft/jpacman/game/MultiAndSingleGameTest.java:119-123 | stopping a new game leaves it stopped |
| GameScenarios.ReadyStart | src/test/java/nl/tudelft/jpacman/game/MultiAndSingleGameTest.java:109-113 | starting a new game puts it in progress |
| GameScenarios.StartStop | src/test/java/nl/tudelft/jpacman/game/MultiAndSingleGameTest.java:60-65 | start, then stop, leaves it stopped |
| GameScenarios.StartStart | src/test/java/nl/tudelft/jpacman/game/MultiAndSingleGameTest.java:71-76 | a second start keeps it in progress |
| GameScenarios.PlayingWin | src/test/java/nl/tudelft/jpacman/game/MultiAndSingleGameTest.java:151-158 | start, then east: stopped, player alive |
| GameScenarios.StartWinStop | src/test/java/nl/tudelft/jpacman/game/MultiAndSingleGameTest.java:82-90 | start, east, stop: player alive, stopped |
| GameScenarios.StartWinStart | src/test/java/nl/tudelft/jpacman/game/GameTest.java:82-90 | start, east, start: the single-level game stays stopped, the multi-level game runs again on its next level; the player is alive either way |
| GameScenarios.WinLevel | src/test/java/nl/tudelft/jpacman/game/MultiAndSingleGameTest.java:151-158 | on a running launcher level, east eats the only pellet: stopped, player's alive flag kept, 10 points gained, and the multi-level game moves on to the next level with the player on (2, 1) |
| GameScenarios.SecondLevelWin | src/main/java/nl/tudelft/jpacman/group25/game/MultiLevelGame.java:40-46 | two wins in a row by moving east take the multi-level game to its third level, stopped, the player alive on (2, 1) with both pellets' points |
| GameScenarios.StartLose | src/test/java/nl/tudelft/jpacman/game/MultiAndSingleGameTest.java:164-171 | start, then west: stopped, player dead |
| GameScenarios.EndedStart | src/test/java/nl/tudelft/jpacman/game/MultiAndSingleGameTest.java:177-184 | a lost game cannot be started again |
| GameScenarios.EndedStop | src/test/java/nl/tudelft/jpacman/game/MultiAndSingleGameTest.java:190-197 | stopping a lost game leaves it stopped |

The multi-level half of `GameScenarios.StartWinStart` is the case in
src/test/java/nl/tudelft/jpacman/game/MultiGameTest.java:31-39.

No test moves a pellet onto a player. `Collisions.Collide` and
`Collisions.CollideSymmetric` give that pair the same calls as a player moving
onto the pellet, because both collision maps treat a pair the same in either
order (the rule table is read in both directions).

## Left out

- Sprites, the Swing user interface, the launcher's `main`, `PlayerFactory` and `ImmutableList`: a created player, ghost or list is a fresh object, or a sequence.
- NPC ticks and ghost AI: ghosts never move; they are occupants of their start squares.
- The smoke and scenario tests: they wait on timers.
- `SimpleMap` and `SimpleGhostMap`: they load their maps from resources.
- `SimpleMapWithGhost`, the single-level fixture that `MultiAndSingleGameTest` and `GameTest` build their games from, is not part of this model. The single-level game in `GameScenarios` is built from the launcher level instead. It gives the outcomes those tests expect: east wins, west loses.
- Framework classes the sources only call (`Game`, `SinglePlayerGame`, `Level`, `Board`, `MapParser`, both collision maps) are modelled from what the tests require of them, and from the framework's documented behaviour where the tests say nothing. In particular:
  - `start` runs only if a player is alive and a pellet is left;
  - a level reports loss before win;
  - a move onto a wall does nothing.
- The map parser's factory *objects* (`BoardFactory`, `LevelFactory`) are part of the effect log only. Ghosts are placed on their squares as occupants and listed by position. All format checks, including the bad-character check, happen before any factory call.
- A player's current movement direction: it only selects the sprite, and a move takes its direction as an argument.
- Players are not listed among their square's occupants; a player's position is its `square` field. So the occupant order "the last occupant is the visible one" is not modelled.
- `Boards.Neighbour`: a step off the edge wraps around to the opposite side. The launcher board's ring of walls never lets the player reach an edge, so the tests do not depend on this.
  - Directions follow the usual grid (east and west change the column, north and south the row), not the `WEST.getDeltaY() == 1` the direction test expects.
- Games.Game.MultiLevel: requires slots 0 to 2 to be filled with distinct, unused levels that each have a start square. The Java constructor only asserts non-null arguments; it would fail later, when advancing into an empty slot.
- Games.Game.Move: requires the moved player to be the game's own player, the only one these games have.
- Games.Game.Start, Games.Game.Stop and the two level callbacks: the game keeps its own in-progress flag, equal to the active level's flag. The framework's lock-protected `start`/`stop` becomes plain sequential code.
- GhostFactory.CustomGhostFactory.PopBlinky: `LinkedList.pop` on an empty list throws. Here it returns `None` and leaves the registry empty.
- Integer widths: scores and counts are unbounded integers. No test comes near overflow.

## Findings

| source | as written | input that shows it | evidently intended | confidence | as-written member | corrected member |
|---|---|---|---|---|---|---|
| src/main/java/nl/tudelft/jpacman/group25/npc/ghost/CustomGhostFactory.java:31-35 | `createBlinky` pushes the new ghost to the front of the list and returns `getLast()`, the oldest ghost | two calls on a new factory: the second returns the first ghost, and `popBlinky` then returns a ghost neither call returned | return the ghost just created, as the doc comment "A new Blinky" says and as `popBlinky` ("the Blinky that was created last") assumes | not executed | GhostFactory.SecondBlinkyIsFirst | GhostFactory.CustomGhostFactory.CreateBlinkyIntended |
