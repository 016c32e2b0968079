/** The kinds of unit that can stand on a square: the player, a ghost and a
    pellet (which carries its point value). */
module Units {
  datatype Kind = PlayerKind | GhostKind | PelletKind

  /** A unit as a square's occupant list holds it. Identity of the player
      object is modelled in the Levels module, and the ghost objects of the
      ghost factory in the GhostFactory module; here only the kind matters. */
  datatype Unit = PlayerUnit | GhostUnit | PelletUnit(value: int)

  function KindOf(u: Unit): Kind
  {
    match u
    case PlayerUnit => PlayerKind
    case GhostUnit => GhostKind
    case PelletUnit(_) => PelletKind
  }

  /** Some occupant is an instance of kind `k` (Java's `Class.isInstance`). */
  predicate HasKind(occupants: seq<Unit>, k: Kind)
  {
    exists i :: 0 <= i < |occupants| && KindOf(occupants[i]) == k
  }

  /** Number of pellets in an occupant list. */
  function CountPellets(occupants: seq<Unit>): nat
  {
    if occupants == [] then 0
    else CountPellets(occupants[..|occupants| - 1])
         + (if occupants[|occupants| - 1].PelletUnit? then 1 else 0)
  }

  /** Sum of the point values of the pellets in an occupant list. */
  function PelletPoints(occupants: seq<Unit>): int
  {
    if occupants == [] then 0
    else PelletPoints(occupants[..|occupants| - 1])
         + (match occupants[|occupants| - 1] case PelletUnit(v) => v case _ => 0)
  }

  /** The occupants that are not pellets, in their original order. */
  function NonPellets(occupants: seq<Unit>): seq<Unit>
  {
    if occupants == [] then []
    else NonPellets(occupants[..|occupants| - 1])
         + (if occupants[|occupants| - 1].PelletUnit? then [] else [occupants[|occupants| - 1]])
  }

  lemma {:induction false} NonPelletsHasNoPellet(occupants: seq<Unit>)
    ensures CountPellets(NonPellets(occupants)) == 0
    ensures !HasKind(NonPellets(occupants), PelletKind)
  {
    if occupants != [] {
      var init := occupants[..|occupants| - 1];
      var last := occupants[|occupants| - 1];
      NonPelletsHasNoPellet(init);
      var tail := if last.PelletUnit? then [] else [last];
      assert NonPellets(occupants) == NonPellets(init) + tail;
      CountPelletsAppend(NonPellets(init), tail);
      assert !HasKind(tail, PelletKind);
      HasKindAppend(NonPellets(init), tail, PelletKind);
    }
  }

  lemma {:induction false} CountPelletsAppend(a: seq<Unit>, b: seq<Unit>)
    ensures CountPellets(a + b) == CountPellets(a) + CountPellets(b)
  {
    if b != [] {
      assert (a + b)[..|a + b| - 1] == a + b[..|b| - 1];
      CountPelletsAppend(a, b[..|b| - 1]);
    } else {
      assert a + b == a;
    }
  }

  lemma HasKindAppend(a: seq<Unit>, b: seq<Unit>, k: Kind)
    ensures HasKind(a + b, k) <==> HasKind(a, k) || HasKind(b, k)
  {
    if HasKind(a + b, k) {
      var i :| 0 <= i < |a + b| && KindOf((a + b)[i]) == k;
      if i >= |a| { assert KindOf(b[i - |a|]) == k; }
    }
    if HasKind(b, k) {
      var i :| 0 <= i < |b| && KindOf(b[i]) == k;
      assert (a + b)[|a| + i] == b[i];
    }
    if HasKind(a, k) {
      var i :| 0 <= i < |a| && KindOf(a[i]) == k;
      assert (a + b)[i] == a[i];
    }
  }

  /** A list holds a pellet exactly when its pellet count is positive. */
  lemma {:induction false} CountPelletsPositive(occupants: seq<Unit>)
    ensures CountPellets(occupants) > 0 <==> HasKind(occupants, PelletKind)
  {
    if occupants != [] {
      var init := occupants[..|occupants| - 1];
      var last := occupants[|occupants| - 1];
      CountPelletsPositive(init);
      assert occupants == init + [last];
      HasKindAppend(init, [last], PelletKind);
      assert HasKind([last], PelletKind) <==> last.PelletUnit?;
    }
  }
}
