/** The occupant search shared by the test classes. */
module Util {
  import opened Units
  import opened Boards

  /** `Util.contains(square, c)`: a linear search over the square's
      occupants that stops at the first instance of kind `k`. */
  method Contains(square: Square, k: Kind) returns (found: bool)
    ensures found <==> HasKind(square.occupants, k)
    ensures square.occupants == [] ==> !found
  {
    var occupants := square.occupants;
    var i := 0;
    while i < |occupants|
      invariant 0 <= i <= |occupants|
      invariant forall j :: 0 <= j < i ==> KindOf(occupants[j]) != k
    {
      if KindOf(occupants[i]) == k {
        return true;
      }
      i := i + 1;
    }
    return false;
  }
}
