/**
 * PlayerUtility: a player's ammunition, grenade and shield counters and the
 * local game engine's guarded updates of them (Shoot, Grenade, Shield).
 */
module Utility {

  /** Magazine size that Shoot reloads to when the last round is spent. */
  const MagazineSize: int := 6

  /** The fields of one PlayerUtility component, as a value. */
  datatype UtilityState = UtilityState(
    ammoCount: int,
    grenadeCount: int,
    shieldCount: int,
    shieldHealth: int,
    shieldOn: bool,
    shieldWait: bool,
    onTimer: int)

  /** The three guards under which Shield raises the shield. */
  predicate ShieldReady(u: UtilityState)
  {
    !u.shieldOn && u.shieldCount > 0 && !u.shieldWait
  }

  /** Shoot: spend one round; a count that drops below zero reloads the magazine. */
  function AfterShoot(u: UtilityState): (r: UtilityState)
    ensures u.ammoCount > 0 ==> r.ammoCount == u.ammoCount - 1
    ensures u.ammoCount <= 0 ==> r.ammoCount == MagazineSize
    ensures r.ammoCount >= 0
    ensures r == u.(ammoCount := r.ammoCount)
  {
    var ammo := u.ammoCount - 1;
    u.(ammoCount := if ammo < 0 then MagazineSize else ammo)
  }

  /** Grenade: use one grenade if any is left. */
  function AfterGrenade(u: UtilityState): (r: UtilityState)
    ensures u.grenadeCount > 0 ==> r.grenadeCount == u.grenadeCount - 1
    ensures u.grenadeCount <= 0 ==> r == u
    ensures u.grenadeCount >= 0 ==> r.grenadeCount >= 0
    ensures r == u.(grenadeCount := r.grenadeCount)
  {
    if u.grenadeCount > 0 then u.(grenadeCount := u.grenadeCount - 1) else u
  }

  /** Shield: raise the shield and use one charge, when all three guards hold. */
  function AfterShield(u: UtilityState): (r: UtilityState)
    ensures ShieldReady(u) ==> r.shieldOn && r.shieldCount == u.shieldCount - 1
    ensures !ShieldReady(u) ==> r == u
    ensures u.shieldCount >= 0 ==> r.shieldCount >= 0
    ensures r == u.(shieldOn := r.shieldOn, shieldCount := r.shieldCount)
  {
    if !u.shieldOn && u.shieldCount > 0 && !u.shieldWait then
      u.(shieldOn := true, shieldCount := u.shieldCount - 1)
    else
      u
  }

  /** Two Shield calls in a row use at most one charge: the second sees the shield up. */
  lemma ShieldTwiceUsesAtMostOneCharge(u: UtilityState)
    ensures AfterShield(AfterShield(u)) == AfterShield(u)
    ensures u.shieldCount - 1 <= AfterShield(AfterShield(u)).shieldCount <= u.shieldCount
  {
  }

  /** The state after `n` consecutive shots. */
  function Shots(u: UtilityState, n: nat): (r: UtilityState)
    ensures r == u.(ammoCount := r.ammoCount)
    ensures n > 0 ==> r.ammoCount >= 0
    ensures 0 <= u.ammoCount <= MagazineSize ==> 0 <= r.ammoCount <= MagazineSize
    decreases n
  {
    if n == 0 then u else Shots(AfterShoot(u), n - 1)
  }

  /** Shots can be split: n + m shots are n shots followed by m shots. */
  lemma {:induction false} ShotsSplit(u: UtilityState, n: nat, m: nat)
    ensures Shots(u, n + m) == Shots(Shots(u, n), m)
    decreases n
  {
    if n > 0 {
      ShotsSplit(AfterShoot(u), n - 1, m);
    }
  }

  /** While rounds are left, each shot takes away exactly one. */
  lemma {:induction false} ShotsCountDown(u: UtilityState, n: nat)
    requires n <= u.ammoCount
    ensures Shots(u, n) == u.(ammoCount := u.ammoCount - n)
    decreases n
  {
    if n > 0 {
      ShotsCountDown(AfterShoot(u), n - 1);
    }
  }

  /** The shot after the last round reloads the magazine to MagazineSize. */
  lemma ShotsReload(u: UtilityState)
    requires u.ammoCount >= 0
    ensures Shots(u, u.ammoCount + 1) == u.(ammoCount := MagazineSize)
  {
    ShotsSplit(u, u.ammoCount, 1);
    ShotsCountDown(u, u.ammoCount);
  }

  /** A count within the magazine returns to itself after MagazineSize + 1 shots. */
  lemma MagazineCycle(u: UtilityState)
    requires 0 <= u.ammoCount <= MagazineSize
    ensures Shots(u, MagazineSize + 1) == u
  {
    var a := u.ammoCount;
    ShotsSplit(u, a + 1, MagazineSize - a);
    ShotsReload(u);
    ShotsCountDown(u.(ammoCount := MagazineSize), MagazineSize - a);
  }

  /** The PlayerUtility component: its counters are updated in place. */
  class PlayerUtility {
    var ammoCount: int
    var grenadeCount: int
    var shieldCount: int
    var shieldHealth: int
    var shieldOn: bool
    var shieldWait: bool
    var onTimer: int

    /** The component's fields as a value. */
    function State(): (u: UtilityState)
      reads this
    {
      UtilityState(ammoCount, grenadeCount, shieldCount, shieldHealth, shieldOn, shieldWait, onTimer)
    }

    constructor (u: UtilityState)
      ensures State() == u
    {
      ammoCount, grenadeCount, shieldCount := u.ammoCount, u.grenadeCount, u.shieldCount;
      shieldHealth, shieldOn, shieldWait := u.shieldHealth, u.shieldOn, u.shieldWait;
      onTimer := u.onTimer;
    }

    method Shoot()
      modifies this
      ensures State() == AfterShoot(old(State()))
    {
      ammoCount := ammoCount - 1;
      if ammoCount < 0 {
        ammoCount := MagazineSize;
      }
    }

    method Grenade()
      modifies this
      ensures State() == AfterGrenade(old(State()))
    {
      if grenadeCount > 0 {
        grenadeCount := grenadeCount - 1;
      }
    }

    method Shield()
      modifies this
      ensures State() == AfterShield(old(State()))
    {
      if shieldOn == false && shieldCount > 0 && shieldWait == false {
        shieldOn := true;
        shieldCount := shieldCount - 1;
      }
    }
  }
}
