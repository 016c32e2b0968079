/** The game: the state machine over start, stop and move that wraps the
    active level. The single-level game and the multi-level game share it;
    they differ in their level array and in what a win does. */
module Games {
  import opened Wrappers
  import opened Units
  import opened Boards
  import opened Levels

  datatype Variant = Single | Multi

  class Game {
    const variant: Variant
    /** The level slots; the multi-level game may be given more slots than
        it can reach. */
    const levels: array<Level?>
    const player: Player
    /** The levels the game can reach. */
    ghost const Reachable: set<Level>
    /** The index of the active level. */
    var count: nat
    var inProgress: bool

    /** The highest index `count` can take: the multi-level game advances
        only while `count < 2`. */
    function FinalIndex(): nat
    {
      if variant == Multi then 2 else 0
    }

    /** The game's shape, which holds between any two calls, even while a
        finished level is reporting its end state. */
    ghost predicate Consistent()
      reads this, levels, Reachable, player
    {
      && FinalIndex() < levels.Length
      && count <= FinalIndex()
      && (forall i :: 0 <= i <= FinalIndex() ==> levels[i] != null && levels[i] in Reachable)
      && (forall i, j :: 0 <= i < j <= FinalIndex() ==> levels[i] != levels[j])
      && (forall l :: l in Reachable ==> l.Valid())
      && levels[count].players == [player]
      && player.square.Some? && InBounds(levels[count].board, player.square.value)
      && inProgress == levels[count].inProgress
      && (forall i :: count < i <= FinalIndex() ==> levels[i].Unused() && |levels[i].startSquares| > 0)
    }

    /** A running game has a live player and a pellet left to eat. */
    ghost predicate Valid()
      reads this, levels, Reachable, player
    {
      Consistent() && (inProgress ==> player.alive && PelletCount(levels[count].board) > 0)
    }

    /** The single-level game over one level: registers the player on it. */
    constructor SinglePlayer(p: Player, l: Level)
      requires l.Valid() && l.Unused() && |l.startSquares| > 0
      modifies l, p
      ensures Valid() && fresh(levels)
      ensures variant == Single && player == p && levels[0] == l && Reachable == {l}
      ensures count == 0 && !inProgress
      ensures l.board == old(l.board) && p.alive == old(p.alive) && p.score == old(p.score)
      ensures p.square == Some(l.startSquares[0])
    {
      variant := Single;
      levels := new Level?[1](_ => l);
      player := p;
      Reachable := {l};
      count := 0;
      inProgress := false;
      new;
      l.RegisterPlayer(p);
    }

    /** `new MultiLevelGame(p, l)`: the game starts on slot 0 and registers
        the player there. */
    constructor MultiLevel(p: Player, ls: array<Level?>)
      requires ls.Length > 2
      requires forall i :: 0 <= i <= 2 ==> ls[i] != null && ls[i].Valid() && ls[i].Unused() && |ls[i].startSquares| > 0
      requires ls[0] != ls[1] && ls[0] != ls[2] && ls[1] != ls[2]
      modifies ls[0], p
      ensures Valid()
      ensures variant == Multi && player == p && levels == ls && Reachable == {ls[0], ls[1], ls[2]}
      ensures count == 0 && !inProgress
      ensures ls[0].board == old(ls[0].board) && p.alive == old(p.alive) && p.score == old(p.score)
      ensures p.square == Some(ls[0].startSquares[0])
    {
      variant := Multi;
      levels := ls;
      player := p;
      Reachable := {ls[0], ls[1], ls[2]};
      count := 0;
      inProgress := false;
      new;
      ls[0].RegisterPlayer(p);
    }

    /** `getLevel()`: the slot `count` selects, which is never empty. */
    function GetLevel(): (l: Level)
      requires Consistent()
      reads this, levels, Reachable, player
      ensures l == levels[count] && l in Reachable
    {
      levels[count]
    }

    /** `getPlayers()`: the constructor's player, alone. */
    function GetPlayers(): (ps: seq<Player>)
      reads this
      ensures ps == [player]
    {
      [player]
    }

    /** `isInProgress()`: whether the active level is running; a running
        game has a live player and a pellet left on its level. */
    function IsInProgress(): (r: bool)
      reads this, levels, Reachable, player
      ensures Consistent() ==> (r <==> levels[count].inProgress)
      ensures Valid() && r ==> player.alive && PelletCount(levels[count].board) > 0
    {
      inProgress
    }

    /** `start()`: starts the active level unless the game runs already,
        or its player is dead, or no pellet is left. */
    method Start()
      requires Valid()
      modifies this`inProgress, (levels[count] as Level)`inProgress
      ensures Valid()
      ensures inProgress == (old(inProgress) || (player.alive && PelletCount(levels[count].board) > 0))
    {
      if inProgress {
        return;
      }
      var level := levels[count];
      assert level.players[0] == player;
      if level.AnyPlayerAlive() && level.RemainingPellets() > 0 {
        inProgress := true;
        var events := level.Start();
      }
    }

    /** `stop()`: always leaves the game not in progress. */
    method Stop()
      requires Consistent()
      modifies this`inProgress, (levels[count] as Level)`inProgress
      ensures Valid() && !inProgress
    {
      if !inProgress {
        return;
      }
      inProgress := false;
      levels[count].Stop();
    }

    /** The observer callback for a lost level. */
    method LevelLost()
      requires Consistent()
      modifies this`inProgress, (levels[count] as Level)`inProgress
      ensures Valid() && !inProgress
    {
      Stop();
    }

    /** The observer callback for a won level: the game stops first; then
        the multi-level game, while `count < 2`, moves to the next slot and
        registers the same player there. */
    method LevelWon()
      requires Consistent()
      modifies this`inProgress, this`count, Reachable, player`square
      ensures Valid() && !inProgress
      ensures count == if variant == Multi && old(count) < 2 then old(count) + 1 else old(count)
      ensures count == old(count) ==> player.square == old(player.square)
      ensures count != old(count) ==> player.square == Some(levels[count].startSquares[0])
      ensures !levels[old(count)].inProgress
      ensures count != old(count) ==> var next := levels[count]; next.players == old(next.players) + [player]
      ensures forall l :: l in Reachable ==> l.board == old(l.board)
      ensures forall l :: l in Reachable && l != levels[old(count)] ==> l.inProgress == old(l.inProgress)
      ensures forall l :: l in Reachable && (count == old(count) || l != levels[count]) ==>
                l.players == old(l.players) && l.startSquareIndex == old(l.startSquareIndex)
    {
      Stop();
      if variant == Multi && count < 2 {
        assert levels[count + 1].Unused();
        count := count + 1;
        levels[count].RegisterPlayer(player);
      }
    }

    /** `move(player, direction)`: ignored unless the game is in progress;
        otherwise the active level moves the player and the game reacts to
        the level's report, a loss before a win. */
    method Move(p: Player, d: Direction)
      requires Valid() && p == player
      modifies this`inProgress, this`count, Reachable, player
      ensures Valid()
      ensures !old(inProgress) ==> && count == old(count) && !inProgress
                                   && unchanged(player)
                                   && forall l :: l in Reachable ==> l.board == old(l.board)
      ensures old(inProgress) ==>
        var level := levels[old(count)];
        var r := MoveOn(level.collisions, old(level.board),
                        PlayerView(old(player.alive), old(player.score), old(player.square).value), d);
        var won := PelletCount(r.0) == 0;
        && level.board == r.0
        && player.alive == r.1.alive && player.score == r.1.score
        && inProgress == (r.1.alive && !won)
        && count == (if won && old(count) < FinalIndex() then old(count) + 1 else old(count))
        && player.square == (if count == old(count) then Some(r.1.square) else Some(levels[count].startSquares[0]))
        && level.inProgress == (r.1.alive && !won)
        && forall l :: l in Reachable && l != level ==> l.board == old(l.board)
      ensures forall l :: l in Reachable ==>
                && (l != levels[old(count)] ==> l.inProgress == old(l.inProgress))
                && (if count != old(count) && l == levels[count] then l.players == old(l.players) + [player]
                    else l.players == old(l.players) && l.startSquareIndex == old(l.startSquareIndex))
    {
      if inProgress {
        Turn(d);
      }
    }

    /** One move of a running game: the level's move, then its report. */
    method Turn(d: Direction)
      requires Valid() && inProgress
      modifies this`inProgress, this`count, Reachable, player
      ensures Valid()
      ensures var level := levels[old(count)];
        var r := MoveOn(level.collisions, old(level.board),
                        PlayerView(old(player.alive), old(player.score), old(player.square).value), d);
        var won := PelletCount(r.0) == 0;
        && level.board == r.0
        && player.alive == r.1.alive && player.score == r.1.score
        && inProgress == (r.1.alive && !won)
        && count == (if won && old(count) < FinalIndex() then old(count) + 1 else old(count))
        && player.square == (if count == old(count) then Some(r.1.square) else Some(levels[count].startSquares[0]))
        && level.inProgress == (r.1.alive && !won)
        && forall l :: l in Reachable && l != level ==> l.board == old(l.board)
      ensures forall l :: l in Reachable ==>
                && (l != levels[old(count)] ==> l.inProgress == old(l.inProgress))
                && (if count != old(count) && l == levels[count] then l.players == old(l.players) + [player]
                    else l.players == old(l.players) && l.startSquareIndex == old(l.startSquareIndex))
    {
      var events := Play(d);
      Notify(events);
    }

    /** The running level moves the game's player; the level's report is
        what the move left: the player's alive flag and the pellets left. */
    method Play(d: Direction) returns (events: seq<LevelEvent>)
      requires Valid() && inProgress
      modifies Reachable, player
      ensures Consistent() && inProgress
      ensures events == EndEvents(player.alive, PelletCount(levels[count].board))
      ensures var level := levels[count];
        var r := MoveOn(level.collisions, old(level.board),
                        PlayerView(old(player.alive), old(player.score), old(player.square).value), d);
        && level.board == r.0
        && player.alive == r.1.alive && player.score == r.1.score && player.square == Some(r.1.square)
      ensures forall l :: l in Reachable && l != levels[count] ==> l.board == old(l.board)
      ensures forall l :: l in Reachable ==>
                l.inProgress == old(l.inProgress) && l.players == old(l.players)
                && l.startSquareIndex == old(l.startSquareIndex)
    {
      var level := levels[count];
      ghost var r := MoveOn(level.collisions, level.board, PlayerView(player.alive, player.score, player.square.value), d);
      events := level.Move(player, d);
      assert level.players[0] == player;
      assert level.board == r.0 && player.alive == r.1.alive && player.score == r.1.score;
      assert level.AnyPlayerAlive() == player.alive;
    }

    /** The level telling its observer how it ended, as `move` leaves it:
        the loss callback if the player is dead, then the win callback if
        no pellet is left. */
    method Notify(events: seq<LevelEvent>)
      requires Consistent() && inProgress
      requires events == EndEvents(player.alive, PelletCount(levels[count].board))
      modifies this`inProgress, this`count, Reachable, player`square
      ensures Valid()
      ensures var won := old(PelletCount(levels[count].board)) == 0;
        && inProgress == (player.alive && !won)
        && count == (if won && old(count) < FinalIndex() then old(count) + 1 else old(count))
        && player.square == (if count == old(count) then old(player.square) else Some(levels[count].startSquares[0]))
        && levels[old(count)].inProgress == inProgress
      ensures count != old(count) ==> var next := levels[count]; next.players == old(next.players) + [player]
      ensures forall l :: l in Reachable ==> l.board == old(l.board)
      ensures forall l :: l in Reachable && l != levels[old(count)] ==> l.inProgress == old(l.inProgress)
      ensures forall l :: l in Reachable && (count == old(count) || l != levels[count]) ==>
                l.players == old(l.players) && l.startSquareIndex == old(l.startSquareIndex)
    {
      if Lost in events {
        LevelLost();
      }
      if Won in events {
        LevelWon();
      }
    }
  }
}
