/**
 * mqttController: applies a parsed two-player game-state message.  The
 * message's counters are copied into both players' components, then a
 * decision table over MainPlayer, each player's action and its util_empty
 * flag starts laser and grenade animations, raises shields and ends the game.
 */
module Controller {
  import opened Utility
  import opened Health
  import opened Effects

  /** Seconds a raised shield lasts; the utility's onTimer counts up towards it. */
  const ShieldDuration: int := 10

  /** One player's part of the message (and of the controller's local copy). */
  datatype PlayerReport = PlayerReport(
    hp: int,
    action: string,
    utilEmpty: bool,
    bullets: int,
    grenades: int,
    shieldTime: int,
    shieldHealth: int,
    numDeaths: int,
    numShield: int)

  /** A parsed message: one report per player. */
  datatype Message = Message(p1: PlayerReport, p2: PlayerReport)

  /** The four animations the controller can start, named after their components. */
  datatype Animation = P1Laser | P2Laser | P1Grenade | P2Grenade

  /** The player asks for `action` and still has the utility for it. */
  predicate Performs(p: PlayerReport, action: string)
  {
    p.action == action && !p.utilEmpty
  }

  /** The lasers runShoot starts.  On Player 1's device (MainPlayer 1) a
      player's shot runs the other side's laser; on Player 2's device each
      player's shot runs its own side's laser. */
  function ShootAnimations(mainPlayer: int, p1: PlayerReport, p2: PlayerReport): (r: set<Animation>)
    ensures r <= {P1Laser, P2Laser}
    ensures mainPlayer == 1 ==> (P2Laser in r <==> Performs(p1, "shoot")) && (P1Laser in r <==> Performs(p2, "shoot"))
    ensures mainPlayer == 2 ==> (P1Laser in r <==> Performs(p1, "shoot")) && (P2Laser in r <==> Performs(p2, "shoot"))
    ensures mainPlayer != 1 && mainPlayer != 2 ==> r == {}
  {
    var fromMain1 :=
      if mainPlayer == 1 then
        (if p1.action == "shoot" && !p1.utilEmpty then {P2Laser} else {})
        + (if p2.action == "shoot" && !p2.utilEmpty then {P1Laser} else {})
      else {};
    var fromMain2 :=
      if mainPlayer == 2 then
        (if p1.action == "shoot" && !p1.utilEmpty then {P1Laser} else {})
        + (if p2.action == "shoot" && !p2.utilEmpty then {P2Laser} else {})
      else {};
    fromMain1 + fromMain2
  }

  /** The grenades runGrenade starts, routed like the lasers. */
  function GrenadeAnimations(mainPlayer: int, p1: PlayerReport, p2: PlayerReport): (r: set<Animation>)
    ensures r <= {P1Grenade, P2Grenade}
    ensures mainPlayer == 1 ==> (P2Grenade in r <==> Performs(p1, "grenade")) && (P1Grenade in r <==> Performs(p2, "grenade"))
    ensures mainPlayer == 2 ==> (P1Grenade in r <==> Performs(p1, "grenade")) && (P2Grenade in r <==> Performs(p2, "grenade"))
    ensures mainPlayer != 1 && mainPlayer != 2 ==> r == {}
  {
    if mainPlayer == 1 then
      (if p1.action == "grenade" && !p1.utilEmpty then {P2Grenade} else {})
      + (if p2.action == "grenade" && !p2.utilEmpty then {P1Grenade} else {})
    else if mainPlayer == 2 then
      (if p1.action == "grenade" && !p1.utilEmpty then {P1Grenade} else {})
      + (if p2.action == "grenade" && !p2.utilEmpty then {P2Grenade} else {})
    else
      {}
  }

  /** Whether runShield raises a player's shield: the rule is the same on both
      devices, and it looks at the player's shieldWait but not at the shield count. */
  function ShieldRaised(mainPlayer: int, p: PlayerReport, shieldWait: bool): (r: bool)
    ensures r <==> (mainPlayer == 1 || mainPlayer == 2) && p.action == "shield" && !shieldWait && !p.utilEmpty
  {
    if mainPlayer == 1 then
      p.action == "shield" && shieldWait == false && !p.utilEmpty
    else if mainPlayer == 2 then
      p.action == "shield" && shieldWait == false && !p.utilEmpty
    else
      false
  }

  /** Whether runLogout ends the game. */
  function EndGameRequested(p1: PlayerReport, p2: PlayerReport): (r: bool)
  {
    p1.action == "logout" || p2.action == "logout"
  }

  /** Either player logging out ends the game, whatever the other player does;
      the answer does not depend on which player is which or on the utility
      flags, and no other action ends the game. */
  lemma LogoutEndsGame(p1: PlayerReport, p2: PlayerReport, empty1: bool, empty2: bool)
    ensures p1.action == "logout" ==> EndGameRequested(p1, p2)
    ensures p2.action == "logout" ==> EndGameRequested(p1, p2)
    ensures EndGameRequested(p1, p2) == EndGameRequested(p2, p1)
    ensures EndGameRequested(p1, p2) == EndGameRequested(p1.(utilEmpty := empty1), p2.(utilEmpty := empty2))
    ensures p1.action != "logout" && p2.action != "logout" ==> !EndGameRequested(p1, p2)
  {
  }

  /** A player's utility component after updateGameState copied a report into it. */
  function Synced(u: UtilityState, p: PlayerReport): (r: UtilityState)
    ensures r.ammoCount == p.bullets && r.grenadeCount == p.grenades
    ensures r.shieldCount == p.numShield && r.shieldHealth == p.shieldHealth
    ensures r.onTimer == ShieldDuration - p.shieldTime
    ensures r.shieldOn == u.shieldOn && r.shieldWait == u.shieldWait
  {
    u.(ammoCount := p.bullets, grenadeCount := p.grenades, onTimer := ShieldDuration - p.shieldTime,
       shieldHealth := p.shieldHealth, shieldCount := p.numShield)
  }

  /** The message overrides every counter: syncing twice is syncing once,
      and the old counters do not matter. */
  lemma SyncedOverrides(u: UtilityState, v: UtilityState, p: PlayerReport)
    requires u.shieldOn == v.shieldOn && u.shieldWait == v.shieldWait
    ensures Synced(Synced(u, p), p) == Synced(u, p)
    ensures Synced(u, p) == Synced(v, p)
  {
  }

  /** Player 2's device shows the same animations as Player 1's device would
      for the message with the two players swapped. */
  lemma DevicesSeeSwappedViews(p1: PlayerReport, p2: PlayerReport)
    ensures ShootAnimations(2, p1, p2) == ShootAnimations(1, p2, p1)
    ensures GrenadeAnimations(2, p1, p2) == GrenadeAnimations(1, p2, p1)
  {
  }

  /** With MainPlayer neither 1 nor 2 no shot, grenade or shield takes effect. */
  lemma UnknownDeviceDoesNothing(mainPlayer: int, p1: PlayerReport, p2: PlayerReport, wait1: bool, wait2: bool)
    requires mainPlayer != 1 && mainPlayer != 2
    ensures ShootAnimations(mainPlayer, p1, p2) == {} && GrenadeAnimations(mainPlayer, p1, p2) == {}
    ensures !ShieldRaised(mainPlayer, p1, wait1) && !ShieldRaised(mainPlayer, p2, wait2)
  {
  }

  /** A player whose utility is empty starts nothing: the animations and
      shields are those of the message in which that player is idle. */
  lemma EmptyUtilityStartsNothing(mainPlayer: int, p1: PlayerReport, p2: PlayerReport, wait1: bool)
    requires p1.utilEmpty
    ensures ShootAnimations(mainPlayer, p1, p2) == ShootAnimations(mainPlayer, p1.(action := ""), p2)
    ensures GrenadeAnimations(mainPlayer, p1, p2) == GrenadeAnimations(mainPlayer, p1.(action := ""), p2)
    ensures !ShieldRaised(mainPlayer, p1, wait1)
  {
  }

  /** A laser component went through at most one run(), exactly when `start`. */
  twostate predicate LaserStarted(l: LaserMovement, start: bool)
    reads l
  {
    l.isEnabled == (old(l.isEnabled) || start) && l.runs == old(l.runs) + (if start then 1 else 0)
  }

  /** A grenade component went through at most one run(), exactly when `start`. */
  twostate predicate GrenadeStarted(g: GrenadeMovement, start: bool)
    reads g
  {
    g.isEnabled == (old(g.isEnabled) || start) && g.runs == old(g.runs) + (if start then 1 else 0)
  }

  /** The controller, with the components of both players it drives. */
  class MqttController {
    var mainPlayer: int
    var player: Message
    var p1Local: PlayerReport
    var p2Local: PlayerReport
    const p1Health: PlayerHealth
    const p1Utility: PlayerUtility
    const p1Grenade: GrenadeMovement
    const p1Shoot: LaserMovement
    const p2Health: PlayerHealth
    const p2Utility: PlayerUtility
    const p2Grenade: GrenadeMovement
    const p2Shoot: LaserMovement
    const menu: MenuPopUp

    /** Each player has components of its own. */
    predicate Valid()
      reads this
    {
      p1Health != p2Health && p1Utility != p2Utility && p1Grenade != p2Grenade && p1Shoot != p2Shoot
    }

    constructor (mainPlayer: int, initial: Message,
                 p1Health: PlayerHealth, p1Utility: PlayerUtility, p1Grenade: GrenadeMovement, p1Shoot: LaserMovement,
                 p2Health: PlayerHealth, p2Utility: PlayerUtility, p2Grenade: GrenadeMovement, p2Shoot: LaserMovement,
                 menu: MenuPopUp)
      requires p1Health != p2Health && p1Utility != p2Utility && p1Grenade != p2Grenade && p1Shoot != p2Shoot
      ensures Valid() && this.mainPlayer == mainPlayer
      ensures player == initial && p1Local == initial.p1 && p2Local == initial.p2
      ensures this.p1Health == p1Health && this.p1Utility == p1Utility
      ensures this.p1Grenade == p1Grenade && this.p1Shoot == p1Shoot
      ensures this.p2Health == p2Health && this.p2Utility == p2Utility
      ensures this.p2Grenade == p2Grenade && this.p2Shoot == p2Shoot
      ensures this.menu == menu
    {
      this.mainPlayer := mainPlayer;
      player, p1Local, p2Local := initial, initial.p1, initial.p2;
      this.p1Health, this.p1Utility, this.p1Grenade, this.p1Shoot := p1Health, p1Utility, p1Grenade, p1Shoot;
      this.p2Health, this.p2Utility, this.p2Grenade, this.p2Shoot := p2Health, p2Utility, p2Grenade, p2Shoot;
      this.menu := menu;
    }

    /** Stores Player 1's part of the message in the local fields. */
    method UpdateP1Local()
      modifies this`p1Local
      ensures p1Local == player.p1
    {
      p1Local := player.p1;
    }

    /** Stores Player 2's part of the message in the local fields. */
    method UpdateP2Local()
      modifies this`p2Local
      ensures p2Local == player.p2
    {
      p2Local := player.p2;
    }

    /** Copies the local fields into both players' health and utility components. */
    method UpdateGameState()
      requires Valid()
      modifies p1Health, p1Utility, p2Health, p2Utility
      ensures p1Health.Status() == Vitals(p1Local.hp, p1Local.numDeaths)
      ensures p1Utility.State() == Synced(old(p1Utility.State()), p1Local)
      ensures p2Health.Status() == Vitals(p2Local.hp, p2Local.numDeaths)
      ensures p2Utility.State() == Synced(old(p2Utility.State()), p2Local)
    {
      p1Health.health := p1Local.hp;
      p1Utility.ammoCount := p1Local.bullets;
      p1Utility.grenadeCount := p1Local.grenades;
      p1Utility.onTimer := ShieldDuration - p1Local.shieldTime;
      p1Utility.shieldHealth := p1Local.shieldHealth;
      p1Health.deathCount := p1Local.numDeaths;
      p1Utility.shieldCount := p1Local.numShield;

      p2Health.health := p2Local.hp;
      p2Utility.ammoCount := p2Local.bullets;
      p2Utility.grenadeCount := p2Local.grenades;
      p2Utility.onTimer := ShieldDuration - p2Local.shieldTime;
      p2Utility.shieldHealth := p2Local.shieldHealth;
      p2Health.deathCount := p2Local.numDeaths;
      p2Utility.shieldCount := p2Local.numShield;
    }

    /** Starts the lasers of the shots in the local fields. */
    method RunShoot()
      requires Valid()
      modifies p1Shoot, p2Shoot
      ensures LaserStarted(p1Shoot, P1Laser in ShootAnimations(mainPlayer, p1Local, p2Local))
      ensures LaserStarted(p2Shoot, P2Laser in ShootAnimations(mainPlayer, p1Local, p2Local))
    {
      if mainPlayer == 1 {
        if p1Local.action == "shoot" {
          if !p1Local.utilEmpty {
            p2Shoot.Run();
          }
        }
        if p2Local.action == "shoot" {
          if !p2Local.utilEmpty {
            p1Shoot.Run();
          }
        }
      }
      if mainPlayer == 2 {
        if p1Local.action == "shoot" {
          if !p1Local.utilEmpty {
            p1Shoot.Run();
          }
        }
        if p2Local.action == "shoot" {
          if !p2Local.utilEmpty {
            p2Shoot.Run();
          }
        }
      }
    }

    /** Raises the shields asked for in the local fields. */
    method RunShield()
      requires Valid()
      modifies p1Utility, p2Utility
      ensures p1Utility.State()
              == old(p1Utility.State()).(shieldOn := old(p1Utility.shieldOn) || ShieldRaised(mainPlayer, p1Local, old(p1Utility.shieldWait)))
      ensures p2Utility.State()
              == old(p2Utility.State()).(shieldOn := old(p2Utility.shieldOn) || ShieldRaised(mainPlayer, p2Local, old(p2Utility.shieldWait)))
    {
      if mainPlayer == 1 {
        if p1Local.action == "shield" {
          if p1Utility.shieldWait == false && !p1Local.utilEmpty {
            p1Utility.shieldOn := true;
          }
        }
        if p2Local.action == "shield" {
          if p2Utility.shieldWait == false && !p2Local.utilEmpty {
            p2Utility.shieldOn := true;
          }
        }
      } else if mainPlayer == 2 {
        if p1Local.action == "shield" {
          if p1Utility.shieldWait == false && !p1Local.utilEmpty {
            p1Utility.shieldOn := true;
          }
        }
        if p2Local.action == "shield" {
          if p2Utility.shieldWait == false && !p2Local.utilEmpty {
            p2Utility.shieldOn := true;
          }
        }
      }
    }

    /** Throws the grenades of the local fields. */
    method RunGrenade()
      requires Valid()
      modifies p1Grenade, p2Grenade
      ensures GrenadeStarted(p1Grenade, P1Grenade in GrenadeAnimations(mainPlayer, p1Local, p2Local))
      ensures GrenadeStarted(p2Grenade, P2Grenade in GrenadeAnimations(mainPlayer, p1Local, p2Local))
    {
      if mainPlayer == 1 {
        if p1Local.action == "grenade" {
          if !p1Local.utilEmpty {
            p2Grenade.Run();
          }
        }
        if p2Local.action == "grenade" {
          if !p2Local.utilEmpty {
            p1Grenade.Run();
          }
        }
      } else if mainPlayer == 2 {
        if p1Local.action == "grenade" {
          if !p1Local.utilEmpty {
            p1Grenade.Run();
          }
        }
        if p2Local.action == "grenade" {
          if !p2Local.utilEmpty {
            p2Grenade.Run();
          }
        }
      }
    }

    /** Shows the end-game screen if either player logged out. */
    method RunLogout()
      modifies menu
      ensures menu.endGameShown == (old(menu.endGameShown) || EndGameRequested(p1Local, p2Local))
    {
      if p1Local.action == "logout" || p2Local.action == "logout" {
        menu.EndGame();
      }
    }

    /** Handles one parsed message: local fields and game state first, then
        shots, shields, grenades and logout, in that order. */
    method OnMessageArrived(msg: Message)
      requires Valid()
      modifies this`player, this`p1Local, this`p2Local
      modifies p1Health, p1Utility, p1Grenade, p1Shoot
      modifies p2Health, p2Utility, p2Grenade, p2Shoot, menu
      ensures player == msg && p1Local == msg.p1 && p2Local == msg.p2
      ensures p1Health.Status() == Vitals(msg.p1.hp, msg.p1.numDeaths)
      ensures p2Health.Status() == Vitals(msg.p2.hp, msg.p2.numDeaths)
      ensures p1Utility.State()
              == Synced(old(p1Utility.State()), msg.p1)
                   .(shieldOn := old(p1Utility.shieldOn) || ShieldRaised(mainPlayer, msg.p1, old(p1Utility.shieldWait)))
      ensures p2Utility.State()
              == Synced(old(p2Utility.State()), msg.p2)
                   .(shieldOn := old(p2Utility.shieldOn) || ShieldRaised(mainPlayer, msg.p2, old(p2Utility.shieldWait)))
      ensures LaserStarted(p1Shoot, P1Laser in ShootAnimations(mainPlayer, msg.p1, msg.p2))
      ensures LaserStarted(p2Shoot, P2Laser in ShootAnimations(mainPlayer, msg.p1, msg.p2))
      ensures GrenadeStarted(p1Grenade, P1Grenade in GrenadeAnimations(mainPlayer, msg.p1, msg.p2))
      ensures GrenadeStarted(p2Grenade, P2Grenade in GrenadeAnimations(mainPlayer, msg.p1, msg.p2))
      ensures menu.endGameShown == (old(menu.endGameShown) || EndGameRequested(msg.p1, msg.p2))
    {
      player := msg;
      UpdateP1Local();
      UpdateP2Local();
      UpdateGameState();
      RunShoot();
      RunShield();
      RunGrenade();
      RunLogout();
    }
  }
}
