/** A level: a board, its player start squares, the collision map, the
    registered players and the in-progress flag, plus the player object
    that moves over it. */
module Levels {
  import opened Wrappers
  import opened Units
  import opened Boards
  import opened Collisions

  /** The player. One object is shared by every level of a game. */
  class Player {
    var alive: bool
    var score: int
    /** Back-reference to the square the player stands on. */
    var square: Option<Pos>

    constructor ()
      ensures alive && score == 0 && square == None
    {
      alive, score, square := true, 0, None;
    }
  }

  /** The two notifications a level sends its observers. */
  datatype LevelEvent = Won | Lost

  /** After each move (and each start) the level reports a loss when no
      registered player is alive, then a win when no pellet remains. */
  function EndEvents(anyPlayerAlive: bool, remainingPellets: nat): (r: seq<LevelEvent>)
    ensures Lost in r <==> !anyPlayerAlive
    ensures Won in r <==> remainingPellets == 0
    ensures r == [] <==> anyPlayerAlive && remainingPellets > 0
    ensures |r| <= 2 && (|r| == 2 ==> r == [Lost, Won])
  {
    (if anyPlayerAlive then [] else [Lost]) + (if remainingPellets == 0 then [Won] else [])
  }

  predicate GoodBoard(b: Board)
  {
    Rectangular(b) && Width(b) > 0 && Height(b) > 0
  }

  /** The player's state as seen by a move. */
  datatype PlayerView = PlayerView(alive: bool, score: int, square: Pos)

  /** One move of the player on a board: a wall keeps the player where it
      is; on ground the player enters and collides, in order, with every
      unit that was on the square when it arrived. */
  function MoveOn(m: CollisionMap, b: Board, pl: PlayerView, d: Direction): (r: (Board, PlayerView))
    requires GoodBoard(b) && InBounds(b, pl.square)
    ensures GoodBoard(r.0) && Width(r.0) == Width(b) && Height(r.0) == Height(b)
    ensures InBounds(r.0, r.1.square)
  {
    var dest := Neighbour(b, pl.square, d);
    var target := b.grid[dest.x][dest.y];
    if target.kind == Wall then (b, pl)
    else
      var res := Arrive(m, Resolution(pl.alive, pl.score, []), target.occupants);
      (SetOccupants(b, dest, res.remaining), PlayerView(res.alive, res.score, dest))
  }

  /** What a move does: into a wall nothing changes; onto ground the player
      stands on the destination, dies exactly when a ghost is there, gains
      the points of every pellet there, and those pellets leave the
      board, while every other unit stays. */
  lemma MoveOnFacts(m: CollisionMap, b: Board, pl: PlayerView, d: Direction)
    requires GoodBoard(b) && InBounds(b, pl.square)
    ensures var dest := Neighbour(b, pl.square, d);
      var occupants := b.grid[dest.x][dest.y].occupants;
      var r := MoveOn(m, b, pl, d);
      if b.grid[dest.x][dest.y].kind == Wall then r == (b, pl)
      else
        && r.1.square == dest
        && r.1.alive == (pl.alive && !HasKind(occupants, GhostKind))
        && r.1.score == pl.score + PelletPoints(occupants)
        && r.0.grid[dest.x][dest.y].occupants == NonPellets(occupants)
        && !HasKind(r.0.grid[dest.x][dest.y].occupants, PelletKind)
        && PelletCount(r.0) + CountPellets(occupants) == PelletCount(b)
        && (PelletCount(r.0) < PelletCount(b) <==> HasKind(occupants, PelletKind))
  {
    var dest := Neighbour(b, pl.square, d);
    var occupants := b.grid[dest.x][dest.y].occupants;
    if b.grid[dest.x][dest.y].kind == Ground {
      var r0 := Resolution(pl.alive, pl.score, []);
      ArriveFacts(m, r0, occupants);
      assert Arrive(m, r0, occupants).remaining == NonPellets(occupants);
      NonPelletsHasNoPellet(occupants);
      SetOccupantsPellets(b, dest, NonPellets(occupants));
      CountPelletsPositive(occupants);
    }
  }

  /** Makes the calls of one collision on the player, in their order, and
      reports whether the other unit left the square. */
  method MakeCalls(p: Player, calls: seq<Call>, ghost r: Resolution, other: Unit) returns (leaves: bool)
    requires p.alive == r.alive && p.score == r.score
    modifies p`alive, p`score
    ensures var g := ApplyCalls(r, other, calls, false);
      && p.alive == g.alive && p.score == g.score
      && g.remaining == (if leaves then r.remaining else r.remaining + [other])
  {
    leaves := false;
    var j := 0;
    while j < |calls|
      invariant 0 <= j <= |calls|
      invariant ApplyCalls(Resolution(p.alive, p.score, r.remaining), other, calls[j..], leaves)
                == ApplyCalls(r, other, calls, false)
    {
      match calls[j] {
        case SetAlive(b) => p.alive := b;
        case AddPoints(n) => p.score := p.score + n;
        case LeaveSquare => leaves := true;
      }
      j := j + 1;
    }
  }

  /** The player arrives on a square and collides, in the square's order,
      with every unit there; the units that do not leave are returned. */
  method ArriveOn(m: CollisionMap, p: Player, occupants: seq<Unit>) returns (remaining: seq<Unit>)
    modifies p`alive, p`score
    ensures Resolution(p.alive, p.score, remaining) == Arrive(m, Resolution(old(p.alive), old(p.score), []), occupants)
  {
    ghost var start := Resolution(p.alive, p.score, []);
    remaining := [];
    var i := 0;
    while i < |occupants|
      invariant 0 <= i <= |occupants|
      invariant Resolution(p.alive, p.score, remaining) == Arrive(m, start, occupants[..i])
    {
      var other := occupants[i];
      var calls := Collide(m, PlayerUnit, other);
      var leaves := MakeCalls(p, calls, Resolution(p.alive, p.score, remaining), other);
      if !leaves {
        remaining := remaining + [other];
      }
      assert occupants[..i + 1][..i] == occupants[..i];
      i := i + 1;
    }
    assert occupants[..|occupants|] == occupants;
  }

  class Level {
    var board: Board
    const startSquares: seq<Pos>
    const collisions: CollisionMap
    var startSquareIndex: nat
    var players: seq<Player>
    var inProgress: bool

    ghost predicate Valid()
      reads this
    {
      && GoodBoard(board)
      && (forall i :: 0 <= i < |startSquares| ==> InBounds(board, startSquares[i]))
      && (if |startSquares| == 0 then startSquareIndex == 0 else startSquareIndex < |startSquares|)
    }

    /** As the level factory hands it out: nobody registered, never started. */
    ghost predicate Unused()
      reads this
    {
      players == [] && startSquareIndex == 0 && !inProgress
    }

    /** `LevelFactory.createLevel(board, ghosts, startSquares)`. */
    constructor (board: Board, startSquares: seq<Pos>, collisions: CollisionMap)
      requires GoodBoard(board)
      requires forall i :: 0 <= i < |startSquares| ==> InBounds(board, startSquares[i])
      ensures Valid() && Unused()
      ensures this.board == board && this.startSquares == startSquares && this.collisions == collisions
    {
      this.board := board;
      this.startSquares := startSquares;
      this.collisions := collisions;
      startSquareIndex, players, inProgress := 0, [], false;
    }

    /** `isAnyPlayerAlive()`: false on a level nobody has joined, and on a
        one-player level the player's own alive flag. */
    function AnyPlayerAlive(): (r: bool)
      reads this, players
      ensures players == [] ==> !r
      ensures |players| == 1 ==> (r <==> players[0].alive)
    {
      exists i :: 0 <= i < |players| && players[i].alive
    }

    /** `remainingPellets()`: zero exactly when no square of the board
        holds a pellet. */
    function RemainingPellets(): (n: nat)
      reads this
      ensures n == 0 <==> NoPellet(board.grid)
    {
      PelletCount(board)
    }

    /** Puts a player not yet registered on the next start square, cycling
      through the start squares; a registered player is left alone. */
    method RegisterPlayer(p: Player)
      requires Valid() && |startSquares| > 0
      modifies this`players, this`startSquareIndex, p`square
      ensures Valid()
      ensures p in old(players) ==> players == old(players) && startSquareIndex == old(startSquareIndex)
                                    && p.square == old(p.square)
      ensures p !in old(players) ==> && players == old(players) + [p]
                                     && p.square == Some(startSquares[old(startSquareIndex)])
                                     && startSquareIndex == (old(startSquareIndex) + 1) % |startSquares|
    {
      if p in players {
        return;
      }
      players := players + [p];
      p.square := Some(startSquares[startSquareIndex]);
      startSquareIndex := (startSquareIndex + 1) % |startSquares|;
    }

    /** Starting a stopped level reports its end state at once. */
    method Start() returns (events: seq<LevelEvent>)
      requires Valid()
      modifies this`inProgress
      ensures inProgress
      ensures events == if old(inProgress) then [] else EndEvents(AnyPlayerAlive(), RemainingPellets())
    {
      if inProgress {
        return [];
      }
      inProgress := true;
      events := EndEvents(AnyPlayerAlive(), RemainingPellets());
    }

    /** `Level.stop()`: the level is no longer in progress; nothing else changes. */
    method Stop()
      modifies this`inProgress
      ensures !inProgress
    {
      if !inProgress {
        return;
      }
      inProgress := false;
    }

    /** `Level.move(player, direction)`: ignored unless the level is in
      progress; otherwise the move of MoveOn, carried out call by call,
      followed by the end-state report. */
    method Move(p: Player, d: Direction) returns (events: seq<LevelEvent>)
      requires Valid() && p in players && p.square.Some? && InBounds(board, p.square.value)
      modifies this`board, p
      ensures Valid()
      ensures !old(inProgress) ==> board == old(board) && unchanged(p) && events == []
      ensures old(inProgress) ==>
        var r := MoveOn(collisions, old(board), PlayerView(old(p.alive), old(p.score), old(p.square.value)), d);
        && board == r.0
        && p.alive == r.1.alive && p.score == r.1.score && p.square == Some(r.1.square)
        && events == EndEvents(AnyPlayerAlive(), RemainingPellets())
    {
      if !inProgress {
        return [];
      }
      var dest := Neighbour(board, p.square.value, d);
      var target := board.grid[dest.x][dest.y];
      if target.kind == Ground {
        p.square := Some(dest);
        var remaining := ArriveOn(collisions, p, target.occupants);
        board := SetOccupants(board, dest, remaining);
      }
      events := EndEvents(AnyPlayerAlive(), RemainingPellets());
    }
  }
}
