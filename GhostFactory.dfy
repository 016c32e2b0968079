/** The ghost factory that remembers the Blinkies it made, newest first. */
module GhostFactory {
  import opened Wrappers

  /** A ghost object as the factory hands it out; its sprite and behaviour
      are not part of this model. On a board the same ghost appears only by
      kind, as a `Units.GhostUnit` occupant of its square. */
  class Ghost {
    constructor ()
    {
    }
  }

  class CustomGhostFactory {
    /** The Blinkies made so far, the newest at the front. */
    var blinkies: seq<Ghost>

    constructor ()
      ensures blinkies == []
    {
      blinkies := [];
    }

    /** `createBlinky()` as written: the new ghost goes to the front of the
        list, but the ghost handed back is the one at the back, which is the
        oldest; only the first call returns the ghost it created. */
    method CreateBlinky() returns (r: Ghost)
      modifies this
      ensures |blinkies| == |old(blinkies)| + 1 && blinkies[1..] == old(blinkies)
      ensures fresh(blinkies[0])
      ensures r == blinkies[|blinkies| - 1]
      ensures old(blinkies) != [] ==> r == old(blinkies)[|old(blinkies)| - 1] && !fresh(r)
      ensures old(blinkies) == [] ==> r == blinkies[0]
    {
      var g := new Ghost();
      blinkies := [g] + blinkies;
      r := blinkies[|blinkies| - 1];
    }

    /** `createBlinky()` as its documentation describes it: the new ghost
        goes to the front of the list and is the one handed back. */
    method CreateBlinkyIntended() returns (r: Ghost)
      modifies this
      ensures fresh(r) && blinkies == [r] + old(blinkies)
    {
      r := new Ghost();
      blinkies := [r] + blinkies;
    }

    /** `popBlinky()`: removes and returns the newest Blinky; the Java list
        throws on an empty list, rendered here as `None`. */
    method PopBlinky() returns (r: Option<Ghost>)
      modifies this
      ensures old(blinkies) == [] ==> r == None && blinkies == []
      ensures old(blinkies) != [] ==> r == Some(old(blinkies)[0]) && blinkies == old(blinkies)[1..]
    {
      if blinkies == [] {
        return None;
      }
      r := Some(blinkies[0]);
      blinkies := blinkies[1..];
    }
  }

  /** With the intended `createBlinky`, popping returns the ghost just made,
      however many were made before it, and leaves the registry as it was. */
  method IntendedCreateThenPop(f: CustomGhostFactory) returns (same: bool)
    modifies f
    ensures same && f.blinkies == old(f.blinkies)
  {
    var g := f.CreateBlinkyIntended();
    var popped := f.PopBlinky();
    same := popped == Some(g);
  }

  /** With `createBlinky` as written, the second call on a new factory
      returns the first ghost again, and popping then yields a ghost that
      no call returned. */
  method SecondBlinkyIsFirst() returns (sameGhost: bool, poppedUnseen: bool)
    ensures sameGhost && poppedUnseen
  {
    var f := new CustomGhostFactory();
    var first := f.CreateBlinky();
    var second := f.CreateBlinky();
    var popped := f.PopBlinky();
    sameGhost := first == second;
    poppedUnseen := popped.Some? && popped.value != first;
  }
}
