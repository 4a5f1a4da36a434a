/**
 * PlayerHealth: the local game engine's damage and respawn rules.  A shot
 * does ShotDamage and a grenade GrenadeDamage; a raised shield takes the
 * damage first, and a grenade's damage beyond what is left of the shield
 * spills over to health.  A player whose health reaches zero respawns with
 * RespawnHealth and one more death.
 */
module Health {
  import opened Utility
  import opened Effects

  const ShotDamage: int := 10
  const GrenadeDamage: int := 20
  const RespawnHealth: int := 100

  /** The two fields of a PlayerHealth component. */
  datatype Vitals = Vitals(health: int, deathCount: int)

  /** What a hit acts on: the victim's vitals and the victim's shield health. */
  datatype Target = Target(vitals: Vitals, shieldHealth: int)

  /** The respawn check that follows every change of health: afterwards the
      player is alive, either untouched or back at RespawnHealth with at most
      one more death. */
  function Respawned(v: Vitals): (r: Vitals)
    ensures r.health > 0
    ensures r.health == v.health || r.health == RespawnHealth
    ensures v.deathCount <= r.deathCount <= v.deathCount + 1
    ensures r.deathCount == v.deathCount ==> r == v
    ensures v.health > 0 ==> r == v
  {
    if v.health <= 0 then Vitals(RespawnHealth, v.deathCount + 1) else v
  }

  /** A second respawn check right after the first changes nothing. */
  lemma RespawnedIdempotent(v: Vitals)
    ensures Respawned(Respawned(v)) == Respawned(v)
  {
  }

  /** Damage to a player without a shield: health drops only while positive,
      and the respawn check runs either way. */
  function Unshielded(v: Vitals, damage: int): (r: Vitals)
    requires damage >= 0
    ensures v.health > damage ==> r == v.(health := v.health - damage)
    ensures v.health <= damage ==> r == Vitals(RespawnHealth, v.deathCount + 1)
  {
    Respawned(if v.health > 0 then v.(health := v.health - damage) else v)
  }

  /** A shot on the target; `shieldOn` is the victim's shield flag as cached
      at the last frame. */
  function ShotHit(shieldOn: bool, t: Target): (r: Target)
    ensures shieldOn ==> r.vitals == t.vitals && r.shieldHealth == t.shieldHealth - ShotDamage
    ensures !shieldOn ==> r.shieldHealth == t.shieldHealth
    ensures !shieldOn && t.vitals.health > ShotDamage
            ==> r.vitals == Vitals(t.vitals.health - ShotDamage, t.vitals.deathCount)
    ensures !shieldOn && t.vitals.health <= ShotDamage
            ==> r.vitals == Vitals(RespawnHealth, t.vitals.deathCount + 1)
  {
    if shieldOn then
      t.(shieldHealth := t.shieldHealth - ShotDamage)
    else
      t.(vitals := Unshielded(t.vitals, ShotDamage))
  }

  /** A grenade exploding on the target. */
  function GrenadeHit(shieldOn: bool, t: Target): (r: Target)
    ensures shieldOn && t.shieldHealth >= GrenadeDamage
            ==> r.vitals == t.vitals && r.shieldHealth == t.shieldHealth - GrenadeDamage
    ensures shieldOn && t.shieldHealth < GrenadeDamage ==> r.shieldHealth == 0
    ensures shieldOn && t.shieldHealth < GrenadeDamage
            && t.vitals.health > GrenadeDamage - t.shieldHealth
            ==> r.vitals == Vitals(t.vitals.health - (GrenadeDamage - t.shieldHealth), t.vitals.deathCount)
    ensures shieldOn && t.shieldHealth < GrenadeDamage
            && t.vitals.health <= GrenadeDamage - t.shieldHealth
            ==> r.vitals == Vitals(RespawnHealth, t.vitals.deathCount + 1)
    ensures !shieldOn ==> r.shieldHealth == t.shieldHealth
    ensures !shieldOn && t.vitals.health > GrenadeDamage
            ==> r.vitals == Vitals(t.vitals.health - GrenadeDamage, t.vitals.deathCount)
    ensures !shieldOn && t.vitals.health <= GrenadeDamage
            ==> r.vitals == Vitals(RespawnHealth, t.vitals.deathCount + 1)
  {
    if shieldOn then
      if t.shieldHealth >= GrenadeDamage then
        t.(shieldHealth := t.shieldHealth - GrenadeDamage)
      else
        var excessDamage := GrenadeDamage - t.shieldHealth;
        Target(Respawned(t.vitals.(health := t.vitals.health - excessDamage)), 0)
    else
      t.(vitals := Unshielded(t.vitals, GrenadeDamage))
  }

  /** A grenade that breaks the shield without killing deals exactly
      GrenadeDamage in all: what the shield lost plus what health lost. */
  lemma GrenadeDamageConserved(t: Target)
    requires t.shieldHealth < GrenadeDamage
    requires GrenadeHit(true, t).vitals.deathCount == t.vitals.deathCount
    ensures (t.shieldHealth - GrenadeHit(true, t).shieldHealth)
            + (t.vitals.health - GrenadeHit(true, t).vitals.health) == GrenadeDamage
  {
  }

  /** The shield absorbs first: a shielded player's health only changes once
      the shield is used up. */
  lemma ShieldAbsorbsFirst(t: Target)
    ensures ShotHit(true, t).vitals == t.vitals
    ensures GrenadeHit(true, t).vitals != t.vitals ==> GrenadeHit(true, t).shieldHealth == 0
  {
  }

  /** A shot or a grenade explosion, with the victim's cached shield flag. */
  datatype Hit = Shot(shielded: bool) | Blast(shielded: bool)

  function ApplyHit(t: Target, h: Hit): (r: Target)
  {
    match h
    case Shot(s) => ShotHit(s, t)
    case Blast(s) => GrenadeHit(s, t)
  }

  /** One hit of either kind leaves a living player alive, with health at
      most RespawnHealth, and has added at most one death. */
  lemma HitKeepsPlayerAlive(t: Target, h: Hit)
    requires 0 < t.vitals.health <= RespawnHealth
    ensures 0 < ApplyHit(t, h).vitals.health <= RespawnHealth
    ensures t.vitals.deathCount <= ApplyHit(t, h).vitals.deathCount <= t.vitals.deathCount + 1
  {
  }

  /** An unshielded hit always leaves positive health, whatever the health
      was before, and at most one more death. */
  lemma UnshieldedHitLeavesPositiveHealth(t: Target, h: Hit)
    requires !h.shielded
    ensures ApplyHit(t, h).vitals.health > 0
    ensures t.vitals.deathCount <= ApplyHit(t, h).vitals.deathCount <= t.vitals.deathCount + 1
  {
  }

  /** The target after a sequence of hits, in order. */
  function ApplyHits(t: Target, hs: seq<Hit>): (r: Target)
    decreases |hs|
  {
    if hs == [] then t else ApplyHits(ApplyHit(t, hs[0]), hs[1..])
  }

  /** Over any sequence of hits, health stays within (0, RespawnHealth] and
      the death count grows by at most one per hit. */
  lemma {:induction false} HitsKeepPlayerAlive(t: Target, hs: seq<Hit>)
    requires 0 < t.vitals.health <= RespawnHealth
    ensures 0 < ApplyHits(t, hs).vitals.health <= RespawnHealth
    ensures t.vitals.deathCount <= ApplyHits(t, hs).vitals.deathCount <= t.vitals.deathCount + |hs|
    decreases |hs|
  {
    if hs != [] {
      HitKeepsPlayerAlive(t, hs[0]);
      HitsKeepPlayerAlive(ApplyHit(t, hs[0]), hs[1..]);
    }
  }

  /** A grenade leaves the thrower's hand only if the thrower has one and no
      grenade is already in flight towards the victim. */
  predicate ThrowAllowed(thrower: UtilityState, inFlight: bool)
  {
    thrower.grenadeCount > 0 && !inFlight
  }

  /** The PlayerHealth component of the player being hit.  It reaches the
      utility components and the animations of both players. */
  class PlayerHealth {
    var health: int
    var deathCount: int
    const player1Utility: PlayerUtility
    const player2Utility: PlayerUtility
    const player1Grenade: GrenadeMovement
    const player2Grenade: GrenadeMovement
    const player1Laser: LaserMovement
    const player2Laser: LaserMovement

    /** Each player has components of its own. */
    predicate Valid()
      reads this
    {
      player1Utility != player2Utility && player1Grenade != player2Grenade && player1Laser != player2Laser
    }

    function Status(): (v: Vitals)
      reads this
    {
      Vitals(health, deathCount)
    }

    constructor (v: Vitals,
                 p1Utility: PlayerUtility, p2Utility: PlayerUtility,
                 p1Grenade: GrenadeMovement, p2Grenade: GrenadeMovement,
                 p1Laser: LaserMovement, p2Laser: LaserMovement)
      requires p1Utility != p2Utility && p1Grenade != p2Grenade && p1Laser != p2Laser
      ensures Valid() && Status() == v
      ensures player1Utility == p1Utility && player2Utility == p2Utility
      ensures player1Grenade == p1Grenade && player2Grenade == p2Grenade
      ensures player1Laser == p1Laser && player2Laser == p2Laser
    {
      health, deathCount := v.health, v.deathCount;
      player1Utility, player2Utility := p1Utility, p2Utility;
      player1Grenade, player2Grenade := p1Grenade, p2Grenade;
      player1Laser, player2Laser := p1Laser, p2Laser;
    }

    /** Player 2 shoots Player 1: Player 2 spends a round, the laser towards
        Player 1 starts, then the shot lands on Player 1. */
    method ShootP1(p1ShieldOn: bool)
      requires Valid()
      modifies this, player1Utility, player2Utility, player1Laser
      ensures player2Utility.State() == AfterShoot(old(player2Utility.State()))
      ensures player1Laser.isEnabled && player1Laser.runs == old(player1Laser.runs) + 1
      ensures Target(Status(), player1Utility.shieldHealth)
              == ShotHit(p1ShieldOn, Target(old(Status()), old(player1Utility.shieldHealth)))
      ensures player1Utility.State() == old(player1Utility.State()).(shieldHealth := player1Utility.shieldHealth)
    {
      player2Utility.Shoot();
      player1Laser.Run();
      if p1ShieldOn {
        player1Utility.shieldHealth := player1Utility.shieldHealth - ShotDamage;
      } else {
        if health > 0 {
          health := health - ShotDamage;
        }
        if health <= 0 {
          health := RespawnHealth;
          deathCount := deathCount + 1;
        }
      }
    }

    /** Player 1 shoots Player 2: ShootP1 with the roles swapped. */
    method ShootP2(p2ShieldOn: bool)
      requires Valid()
      modifies this, player1Utility, player2Utility, player2Laser
      ensures player1Utility.State() == AfterShoot(old(player1Utility.State()))
      ensures player2Laser.isEnabled && player2Laser.runs == old(player2Laser.runs) + 1
      ensures Target(Status(), player2Utility.shieldHealth)
              == ShotHit(p2ShieldOn, Target(old(Status()), old(player2Utility.shieldHealth)))
      ensures player2Utility.State() == old(player2Utility.State()).(shieldHealth := player2Utility.shieldHealth)
    {
      player1Utility.Shoot();
      player2Laser.Run();
      if p2ShieldOn {
        player2Utility.shieldHealth := player2Utility.shieldHealth - ShotDamage;
      } else {
        if health > 0 {
          health := health - ShotDamage;
        }
        if health <= 0 {
          health := RespawnHealth;
          deathCount := deathCount + 1;
        }
      }
    }

    /** Player 2 throws a grenade at Player 1, if allowed. */
    method ThrowGrenadeP1()
      modifies player2Utility, player1Grenade
      ensures ThrowAllowed(old(player2Utility.State()), old(player1Grenade.isEnabled))
              ==> player2Utility.State() == AfterGrenade(old(player2Utility.State()))
                  && player1Grenade.isEnabled && player1Grenade.runs == old(player1Grenade.runs) + 1
      ensures !ThrowAllowed(old(player2Utility.State()), old(player1Grenade.isEnabled))
              ==> unchanged(player2Utility, player1Grenade)
    {
      if player2Utility.grenadeCount > 0 && !player1Grenade.isEnabled {
        player2Utility.Grenade();
        player1Grenade.Run();
      }
    }

    /** Player 2's grenade explodes on Player 1. */
    method HitGrenadeP1(p1ShieldOn: bool)
      modifies this, player1Utility
      ensures Target(Status(), player1Utility.shieldHealth)
              == GrenadeHit(p1ShieldOn, Target(old(Status()), old(player1Utility.shieldHealth)))
      ensures player1Utility.State() == old(player1Utility.State()).(shieldHealth := player1Utility.shieldHealth)
    {
      var excessDamage := 0;
      if p1ShieldOn {
        if player1Utility.shieldHealth >= GrenadeDamage {
          player1Utility.shieldHealth := player1Utility.shieldHealth - GrenadeDamage;
        } else if player1Utility.shieldHealth < GrenadeDamage {
          excessDamage := GrenadeDamage - player1Utility.shieldHealth;
          player1Utility.shieldHealth := player1Utility.shieldHealth - player1Utility.shieldHealth;
          health := health - excessDamage;
          if health <= 0 {
            health := RespawnHealth;
            deathCount := deathCount + 1;
          }
        }
      } else {
        if health > 0 {
          health := health - GrenadeDamage;
        }
        if health <= 0 {
          health := RespawnHealth;
          deathCount := deathCount + 1;
        }
      }
    }

    /** Player 1 throws a grenade at Player 2, if allowed. */
    method ThrowGrenadeP2()
      modifies player1Utility, player2Grenade
      ensures ThrowAllowed(old(player1Utility.State()), old(player2Grenade.isEnabled))
              ==> player1Utility.State() == AfterGrenade(old(player1Utility.State()))
                  && player2Grenade.isEnabled && player2Grenade.runs == old(player2Grenade.runs) + 1
      ensures !ThrowAllowed(old(player1Utility.State()), old(player2Grenade.isEnabled))
              ==> unchanged(player1Utility, player2Grenade)
    {
      if player1Utility.grenadeCount > 0 && !player2Grenade.isEnabled {
        player1Utility.Grenade();
        player2Grenade.Run();
      }
    }

    /** Player 1's grenade explodes on Player 2. */
    method HitGrenadeP2(p2ShieldOn: bool)
      modifies this, player2Utility
      ensures Target(Status(), player2Utility.shieldHealth)
              == GrenadeHit(p2ShieldOn, Target(old(Status()), old(player2Utility.shieldHealth)))
      ensures player2Utility.State() == old(player2Utility.State()).(shieldHealth := player2Utility.shieldHealth)
    {
      var excessDamage := 0;
      if p2ShieldOn {
        if player2Utility.shieldHealth >= GrenadeDamage {
          player2Utility.shieldHealth := player2Utility.shieldHealth - GrenadeDamage;
        } else if player2Utility.shieldHealth < GrenadeDamage {
          excessDamage := GrenadeDamage - player2Utility.shieldHealth;
          player2Utility.shieldHealth := player2Utility.shieldHealth - player2Utility.shieldHealth;
          health := health - excessDamage;
          if health <= 0 {
            health := RespawnHealth;
            deathCount := deathCount + 1;
          }
        }
      } else {
        if health > 0 {
          health := health - GrenadeDamage;
        }
        if health <= 0 {
          health := RespawnHealth;
          deathCount := deathCount + 1;
        }
      }
    }
  }
}
