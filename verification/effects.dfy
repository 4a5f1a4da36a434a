/**
 * The animation and menu components that the game engine triggers.
 * Their per-frame movement (interpolation, hit detection) is not modelled;
 * what the engine relies on is that run() starts the animation, which the
 * components record in `isEnabled`.  A ghost counter records how many times
 * run() was called, so that callers can state which animations they started.
 */
module Effects {

  /** A laser animation (P1LaserMovement or P2LaserMovement). */
  class LaserMovement {
    var isEnabled: bool
    ghost var runs: nat

    constructor ()
      ensures !isEnabled && runs == 0
    {
      isEnabled := false;
      runs := 0;
    }

    /** Starts the laser animation. */
    method Run()
      modifies this
      ensures isEnabled
      ensures runs == old(runs) + 1
    {
      isEnabled := true;
      runs := runs + 1;
    }
  }

  /** A grenade animation (P1GrenadeMovement or P2GrenadeMovement);
      `isEnabled` is true while a grenade is in flight. */
  class GrenadeMovement {
    var isEnabled: bool
    ghost var runs: nat

    constructor ()
      ensures !isEnabled && runs == 0
    {
      isEnabled := false;
      runs := 0;
    }

    /** Starts throwing the grenade. */
    method Run()
      modifies this
      ensures isEnabled
      ensures runs == old(runs) + 1
    {
      isEnabled := true;
      runs := runs + 1;
    }
  }

  /** The pop-up menu; only its end-game screen is modelled. */
  class MenuPopUp {
    var endGameShown: bool

    constructor ()
      ensures !endGameShown
    {
      endGameShown := false;
    }

    /** Opens the end-game screen. */
    method EndGame()
      modifies this
      ensures endGameShown
    {
      endGameShown := true;
    }
  }
}
