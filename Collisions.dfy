/** What happens when two units meet on a square. A collision is rendered
    as the calls it makes on the two units (`setAlive` and `addPoints` on
    the player, `leaveSquare` on the pellet), in the order it makes them. */
module Collisions {
  import opened Units
  import opened Wrappers

  datatype Call = SetAlive(alive: bool) | AddPoints(points: int) | LeaveSquare

  /** The two collision maps of the framework. */
  datatype CollisionMap = PlayerCollisions | DefaultPlayerInteractionMap

  /** `CollisionMap.collide(mover, collidedOn)`: a player and a ghost kill
      the player, a player and a pellet make the pellet leave and credit its
      value to the player, whichever of the two moved; nothing else happens. */
  function Collide(m: CollisionMap, mover: Unit, collidedOn: Unit): (r: seq<Call>)
    ensures SetAlive(false) in r <==>
              (mover.PlayerUnit? && collidedOn.GhostUnit?) || (mover.GhostUnit? && collidedOn.PlayerUnit?)
    ensures SetAlive(true) !in r
    ensures LeaveSquare in r <==>
              (mover.PlayerUnit? && collidedOn.PelletUnit?) || (mover.PelletUnit? && collidedOn.PlayerUnit?)
    ensures forall v :: AddPoints(v) in r <==>
              (mover == PlayerUnit && collidedOn == PelletUnit(v)) || (mover == PelletUnit(v) && collidedOn == PlayerUnit)
  {
    match m
    case PlayerCollisions => DispatchCollide(mover, collidedOn)
    case DefaultPlayerInteractionMap =>
      DefaultTableIsDispatch(mover, collidedOn);
      TableCollide(DefaultRules, mover, collidedOn)
  }

  // ---- PlayerCollisions: double dispatch on the mover, then on the other unit

  function PlayerVersusGhost(): seq<Call>
  {
    [SetAlive(false)]
  }

  function PlayerVersusPellet(value: int): seq<Call>
  {
    [LeaveSquare, AddPoints(value)]
  }

  function DispatchCollide(mover: Unit, collidedOn: Unit): seq<Call>
  {
    match (mover, collidedOn)
    case (PlayerUnit, GhostUnit) => PlayerVersusGhost()
    case (PlayerUnit, PelletUnit(v)) => PlayerVersusPellet(v)
    case (GhostUnit, PlayerUnit) => PlayerVersusGhost()
    case (PelletUnit(v), PlayerUnit) => PlayerVersusPellet(v)
    case _ => []
  }

  // ---- DefaultPlayerInteractionMap: a table of symmetric rules over kinds

  datatype Interaction = KillPlayer | EatPellet

  datatype Rule = Rule(first: Kind, second: Kind, interaction: Interaction)

  const DefaultRules: seq<Rule> := [Rule(PlayerKind, GhostKind, KillPlayer), Rule(PlayerKind, PelletKind, EatPellet)]

  /** The first rule for the pair of kinds, in either order; the flag says
      whether the pair matched the rule reversed. */
  function FindRule(rules: seq<Rule>, a: Kind, b: Kind): (r: Option<(Interaction, bool)>)
    ensures r.Some? ==> exists i :: 0 <= i < |rules| && rules[i].interaction == r.value.0
                          && (if r.value.1 then (rules[i].first, rules[i].second) == (b, a)
                              else (rules[i].first, rules[i].second) == (a, b))
    ensures r.None? ==> forall i :: 0 <= i < |rules| ==>
              (rules[i].first, rules[i].second) != (a, b) && (rules[i].first, rules[i].second) != (b, a)
  {
    if rules == [] then None
    else if (rules[0].first, rules[0].second) == (a, b) then Some((rules[0].interaction, false))
    else if (rules[0].first, rules[0].second) == (b, a) then Some((rules[0].interaction, true))
    else
      var r := FindRule(rules[1..], a, b);
      assert r.Some? ==> exists i :: 1 <= i < |rules| && rules[i].interaction == r.value.0
                          && (if r.value.1 then (rules[i].first, rules[i].second) == (b, a)
                              else (rules[i].first, rules[i].second) == (a, b)) by {
        if r.Some? {
          var i :| 0 <= i < |rules[1..]| && rules[1..][i].interaction == r.value.0
                   && (if r.value.1 then (rules[1..][i].first, rules[1..][i].second) == (b, a)
                       else (rules[1..][i].first, rules[1..][i].second) == (a, b));
          assert rules[i + 1] == rules[1..][i];
        }
      }
      r
  }

  /** Runs the interaction with the units put in the rule's order. */
  function Perform(interaction: Interaction, first: Unit, second: Unit): seq<Call>
  {
    match interaction
    case KillPlayer => PlayerVersusGhost()
    case EatPellet => if second.PelletUnit? then PlayerVersusPellet(second.value) else []
  }

  function TableCollide(rules: seq<Rule>, mover: Unit, collidedOn: Unit): seq<Call>
  {
    match FindRule(rules, KindOf(mover), KindOf(collidedOn))
    case None => []
    case Some((interaction, reversed)) =>
      if reversed then Perform(interaction, collidedOn, mover) else Perform(interaction, mover, collidedOn)
  }

  // ---- the collision table, as the parameterised test states it for both maps

  lemma PlayerOnPlayer(m: CollisionMap)
    ensures Collide(m, PlayerUnit, PlayerUnit) == []
  {
  }

  lemma PlayerOnGhost(m: CollisionMap)
    ensures multiset(Collide(m, PlayerUnit, GhostUnit)) == multiset{SetAlive(false)}
  {
  }

  /** The player gains the pellet's value once and the pellet leaves its
      square once; the player's alive flag is not touched. */
  lemma PlayerOnPellet(m: CollisionMap, value: int)
    ensures multiset(Collide(m, PlayerUnit, PelletUnit(value))) == multiset{LeaveSquare, AddPoints(value)}
  {
  }

  lemma GhostOnPlayer(m: CollisionMap)
    ensures multiset(Collide(m, GhostUnit, PlayerUnit)) == multiset{SetAlive(false)}
  {
  }

  lemma GhostOnGhost(m: CollisionMap)
    ensures Collide(m, GhostUnit, GhostUnit) == []
  {
  }

  lemma GhostOnPellet(m: CollisionMap, value: int)
    ensures Collide(m, GhostUnit, PelletUnit(value)) == []
  {
  }

  /** Both collision maps make the same calls for every pair of units. */
  lemma MapsAgree(mover: Unit, collidedOn: Unit)
    ensures Collide(PlayerCollisions, mover, collidedOn) == Collide(DefaultPlayerInteractionMap, mover, collidedOn)
  {
    DefaultTableIsDispatch(mover, collidedOn);
  }

  /** The rule table, read symmetrically, makes the calls the double dispatch makes. */
  lemma DefaultTableIsDispatch(mover: Unit, collidedOn: Unit)
    ensures TableCollide(DefaultRules, mover, collidedOn) == DispatchCollide(mover, collidedOn)
  {
    var a, b := KindOf(mover), KindOf(collidedOn);
    var r := FindRule(DefaultRules, a, b);
    if a == PlayerKind && b == GhostKind {
      assert r == Some((KillPlayer, false));
    } else if a == GhostKind && b == PlayerKind {
      assert r == Some((KillPlayer, true));
    } else if a == PlayerKind && b == PelletKind {
      assert r == Some((EatPellet, false));
    } else if a == PelletKind && b == PlayerKind {
      assert r == Some((EatPellet, true));
    } else {
      assert r == None;
    }
  }

  /** The outcome does not depend on which of the two units moved. */
  lemma CollideSymmetric(m: CollisionMap, a: Unit, b: Unit)
    ensures Collide(m, a, b) == Collide(m, b, a)
  {
    MapsAgree(a, b);
    MapsAgree(b, a);
  }

  // ---- a player arriving on a square collides with every unit already there

  /** The player's alive flag and score, and the other units still on the
      square, while the arrival is being resolved. */
  datatype Resolution = Resolution(alive: bool, score: int, remaining: seq<Unit>)

  /** Performs one collision's calls: `other` stays on the square unless
      it was told to leave it. */
  function ApplyCalls(r: Resolution, other: Unit, calls: seq<Call>, leaves: bool): Resolution
    decreases |calls|
  {
    if calls == [] then
      if leaves then r else r.(remaining := r.remaining + [other])
    else match calls[0]
      case SetAlive(b) => ApplyCalls(r.(alive := b), other, calls[1..], leaves)
      case AddPoints(n) => ApplyCalls(r.(score := r.score + n), other, calls[1..], leaves)
      case LeaveSquare => ApplyCalls(r, other, calls[1..], true)
  }

  /** The player (mover) collides with the occupant `other`. */
  function Step(m: CollisionMap, r: Resolution, other: Unit): Resolution
  {
    ApplyCalls(r, other, Collide(m, PlayerUnit, other), false)
  }

  /** The collisions with each unit that was on the square on arrival, in
      the square's order. */
  function Arrive(m: CollisionMap, r: Resolution, occupants: seq<Unit>): Resolution
  {
    if occupants == [] then r
    else Step(m, Arrive(m, r, occupants[..|occupants| - 1]), occupants[|occupants| - 1])
  }

  lemma StepFacts(m: CollisionMap, r: Resolution, other: Unit)
    ensures Step(m, r, other).alive == (r.alive && !other.GhostUnit?)
    ensures Step(m, r, other).score == r.score + (match other case PelletUnit(v) => v case _ => 0)
    ensures Step(m, r, other).remaining == r.remaining + (if other.PelletUnit? then [] else [other])
  {
    match other
    case PlayerUnit =>
    case GhostUnit =>
      assert Collide(m, PlayerUnit, other) == [SetAlive(false)] by { MapsAgree(PlayerUnit, other); }
    case PelletUnit(v) =>
      var calls := [LeaveSquare, AddPoints(v)];
      assert Collide(m, PlayerUnit, other) == calls by { MapsAgree(PlayerUnit, other); }
      assert calls[1..] == [AddPoints(v)] && calls[1..][1..] == [];
      assert ApplyCalls(r, other, calls, false) == ApplyCalls(r, other, [AddPoints(v)], true);
      assert ApplyCalls(r, other, [AddPoints(v)], true) == ApplyCalls(r.(score := r.score + v), other, [], true);
  }

  /** Arriving on a square kills the player exactly when a ghost is there,
      adds the points of every pellet there, and removes exactly the
      pellets; the other occupants stay in their order. */
  lemma {:induction false} ArriveFacts(m: CollisionMap, r: Resolution, occupants: seq<Unit>)
    ensures Arrive(m, r, occupants).alive == (r.alive && !HasKind(occupants, GhostKind))
    ensures Arrive(m, r, occupants).score == r.score + PelletPoints(occupants)
    ensures Arrive(m, r, occupants).remaining == r.remaining + NonPellets(occupants)
  {
    if occupants != [] {
      var init := occupants[..|occupants| - 1];
      var last := occupants[|occupants| - 1];
      ArriveFacts(m, r, init);
      StepFacts(m, Arrive(m, r, init), last);
      assert occupants == init + [last];
      HasKindAppend(init, [last], GhostKind);
      assert HasKind([last], GhostKind) <==> last.GhostUnit?;
    }
  }
}
