# Laser-tag local game engine, in Dafny

This project models the game logic of the CG4002 augmented-reality laser-tag
visualiser:

- **PlayerUtility** holds a player's ammunition, grenade and shield counters.
  `Shoot` spends a round and reloads to 6 when the count would drop below
  zero. `Grenade` spends a grenade if one is left. `Shield` raises the shield
  and spends a charge only when the shield is down, a charge is left and the
  shield is not cooling down.
- **PlayerHealth** applies damage and respawns. A shot does 10 damage and a
  grenade 20. A raised shield takes the damage first, and the part of a
  grenade's damage that the shield cannot take spills over to health. A
  player whose health reaches 0 or less respawns with 100 health and one more
  death.
- **mqttController** handles one parsed two-player message. It copies the
  message into local fields and into both players' components. A decision
  table over `MainPlayer`, each player's action and each `util_empty` flag
  then starts laser and grenade animations, raises shields and ends the game.

Files and modules:

- `utility.dfy` is module `Utility`. It has the counter updates as functions
  on a `UtilityState` value, lemmas about repeated shots and shields, and the
  `PlayerUtility` class whose methods are proved against those functions.
- `health.dfy` is module `Health`. It has the damage rules as functions on a
  `Target` (the victim's health, death count and shield health), lemmas about
  single hits and sequences of hits, and the `PlayerHealth` class with
  `ShootP1/P2`, `ThrowGrenadeP1/P2` and `HitGrenadeP1/P2`.
- `controller.dfy` is module `Controller`. It has the message record, the
  decision tables as functions returning sets of animations, and the
  `MqttController` class with the local-field copies, `UpdateGameState`, the
  four dispatch methods and the message handler.
- `effects.dfy` is module `Effects`. It holds the laser, grenade and menu
  components. Only what `run()` and `endGame()` record is modelled: the
  `isEnabled` flag and the end-game screen, plus a ghost count of `run()`
  calls.

Modelling choices:

- The shield flag that `PlayerHealth.Update` caches every frame
  (`p1ShieldOn`/`p2ShieldOn`) is a parameter of the damage methods.
- The controller's nine `p1_*` and nine `p2_*` local fields are held as one
  `PlayerReport` record per player. The record has the same nine fields as
  the message.
- `onTimer` is a float in the source. It is an `int` here. The modelled
  operations only write `10 - shield_time` to it, converted to a float. That
  float equals the integer while |10 - shield_time| is at most 16,777,216
  (2^24), which covers the shield times the game uses. The fractional writes
  (`10.0f`, `onTimer += Time.deltaTime`, `0.0f`) happen in
  `PlayerUtility.Update`, which is left out.
- Player 1's and Player 2's components are distinct objects, which is what
  the `Valid()` predicates require. The lasers and grenades are instances of
  different classes (`P1LaserMovement`/`P2LaserMovement`,
  `P1GrenadeMovement`/`P2GrenadeMovement`). The utility and health
  components are looked up under the distinct tags "Player1" and "Player2".

## Model

| member | source | states |
|---|---|---|
| Utility.AfterShoot | CG4002/Assets/Scripts/PlayerUtility.cs:117-127 | With rounds left, exactly one round is spent. With none left, or a negative count, the count becomes 6. The result is never negative, and no other field changes. |
| Utility.AfterGrenade | CG4002/Assets/Scripts/PlayerUtility.cs:133-139 | The grenade count drops by one iff it was positive, and otherwise nothing changes. A non-negative count stays non-negative. Only the grenade count changes. |
| Utility.AfterShield | CG4002/Assets/Scripts/PlayerUtility.cs:145-155 | When the shield is down, a charge is left and no cooldown is running, the shield goes up and exactly one charge is spent. Otherwise no field changes. A non-negative charge count stays non-negative. Only `shieldOn` and `shieldCount` ever change. |
| Utility.ShieldTwiceUsesAtMostOneCharge | CG4002/Assets/Scripts/PlayerUtility.cs:147-151 | A second Shield call changes nothing, so two calls in a row spend at most one charge. |
| Utility.Shots | CG4002/Assets/Scripts/PlayerUtility.cs:117-127 | After one or more shots the ammo count is non-negative. A count within 0..6 stays within 0..6. Only the ammo count changes. |
| Utility.ShotsCountDown | CG4002/Assets/Scripts/PlayerUtility.cs:119 | While rounds are left, n shots lower the ammo count by exactly n. |
| Utility.ShotsReload | CG4002/Assets/Scripts/PlayerUtility.cs:119-125 | The shot after the last round reloads the count to 6 and never leaves it at -1. |
| Utility.MagazineCycle | CG4002/Assets/Scripts/PlayerUtility.cs:117-127 | From any count in 0..6, seven shots bring the counters back to where they started. |
| Utility.PlayerUtility.Shoot | CG4002/Assets/Scripts/PlayerUtility.cs:117-127 | The component's new fields equal AfterShoot of its old fields. |
| Utility.PlayerUtility.Grenade | CG4002/Assets/Scripts/PlayerUtility.cs:133-139 | The component's new fields equal AfterGrenade of its old fields. |
| Utility.PlayerUtility.Shield | CG4002/Assets/Scripts/PlayerUtility.cs:145-155 | The component's new fields equal AfterShield of its old fields. |
| Health.Respawned | CG4002/Assets/Scripts/PlayerHealth.cs:65-69 | A player with positive health is left unchanged. Afterwards the player is always alive. Health is either unchanged or 100, and deaths grew by at most one. With no new death, nothing changed. |
| Health.RespawnedIdempotent | CG4002/Assets/Scripts/PlayerHealth.cs:65-69 | A second respawn check right after the first changes nothing, so a player never dies twice in one check. |
| Health.Unshielded | CG4002/Assets/Scripts/PlayerHealth.cs:59-70 | Health above the damage drops by exactly the damage, with no death. Any other health, including health already at or below 0, respawns at 100 with exactly one more death. |
| Health.ShotHit | CG4002/Assets/Scripts/PlayerHealth.cs:53-70 | A shielded shot lowers shield health by exactly 10 and leaves health and deaths alone. An unshielded shot leaves shield health alone. It lowers health by 10 when health is above 10, and otherwise respawns the player at 100 with one more death. |
| Health.GrenadeHit | CG4002/Assets/Scripts/PlayerHealth.cs:130-162 | On a shield with at least 20 health, the grenade lowers shield health by 20 and leaves health and deaths alone. On a weaker shield, shield health becomes 0 and health drops by 20 minus the old shield health, or the player respawns if that takes health to 0 or below. Without a shield, health drops by 20 or the player respawns. |
| Health.GrenadeDamageConserved | CG4002/Assets/Scripts/PlayerHealth.cs:136-147 | When a grenade breaks a shield without killing, the shield's loss plus health's loss is exactly 20. |
| Health.ShieldAbsorbsFirst | CG4002/Assets/Scripts/PlayerHealth.cs:130-147 | A shielded player's health is untouched by a shot. A grenade changes it only once the shield is at 0. |
| Health.HitKeepsPlayerAlive | CG4002/Assets/Scripts/PlayerHealth.cs:45-71 | Any single shot or grenade keeps health within 1..100 and adds at most one death. |
| Health.UnshieldedHitLeavesPositiveHealth | CG4002/Assets/Scripts/PlayerHealth.cs:149-162 | After any unshielded shot or grenade, health is positive whatever it was before, and deaths grew by 0 or 1. |
| Health.HitsKeepPlayerAlive | CG4002/Assets/Scripts/PlayerHealth.cs:126-163 | Over any sequence of hits, health stays within 1..100 and deaths grow by at most one per hit. |
| Health.PlayerHealth.ShootP1 | CG4002/Assets/Scripts/PlayerHealth.cs:45-71 | Player 2's ammo is updated by Shoot and Player 1's laser starts. Player 1's health, deaths and shield health become ShotHit of their old values. No other field of Player 1's utility changes. |
| Health.PlayerHealth.ShootP2 | CG4002/Assets/Scripts/PlayerHealth.cs:77-103 | The same as ShootP1 with the players swapped. |
| Health.PlayerHealth.ThrowGrenadeP1 | CG4002/Assets/Scripts/PlayerHealth.cs:109-120 | If Player 2 has a grenade and none is in flight towards Player 1, Player 2's count is updated by Grenade and the grenade towards Player 1 starts. Otherwise nothing changes. |
| Health.PlayerHealth.HitGrenadeP1 | CG4002/Assets/Scripts/PlayerHealth.cs:126-163 | Player 1's health, deaths and shield health become GrenadeHit of their old values. No other utility field changes. |
| Health.PlayerHealth.ThrowGrenadeP2 | CG4002/Assets/Scripts/PlayerHealth.cs:169-180 | The same as ThrowGrenadeP1 with the players swapped. |
| Health.PlayerHealth.HitGrenadeP2 | CG4002/Assets/Scripts/PlayerHealth.cs:186-223 | The same as HitGrenadeP1 with the players swapped. |
| Controller.ShootAnimations | CG4002/Assets/Scripts/mqttController.cs:253-295 | Only lasers are started. A player's "shoot" starts a laser iff that player's utility is not empty. With MainPlayer 1 it starts the other side's laser. With MainPlayer 2 it starts the player's own side's laser. With any other MainPlayer nothing starts. |
| Controller.GrenadeAnimations | CG4002/Assets/Scripts/mqttController.cs:350-392 | The same routing as the lasers, for "grenade" and the grenade animations. |
| Controller.ShieldRaised | CG4002/Assets/Scripts/mqttController.cs:301-344 | "shield" raises a player's shield iff MainPlayer is 1 or 2, the player's shieldWait is false and the player's utility is not empty. The rule is the same for both MainPlayer values. |
| Controller.LogoutEndsGame | CG4002/Assets/Scripts/mqttController.cs:399-405 | Either player's "logout" ends the game whatever the other player does, and no other action ends it. The answer is the same with the players swapped and does not depend on the util_empty flags. MainPlayer plays no part. |
| Controller.Synced | CG4002/Assets/Scripts/mqttController.cs:411-428 | After the copy, ammo, grenades, shield charges and shield health equal the report's bullets, grenades, num_shield and shield_health. onTimer is 10 - shield_time. shieldOn and shieldWait are kept. |
| Controller.SyncedOverrides | CG4002/Assets/Scripts/mqttController.cs:411-428 | Copying a report twice gives the same result as copying it once. The previous counter values do not affect the result. |
| Controller.DevicesSeeSwappedViews | CG4002/Assets/Scripts/mqttController.cs:253-295 | Player 2's device starts the same animations as Player 1's device would for the message with the two players swapped. |
| Controller.UnknownDeviceDoesNothing | CG4002/Assets/Scripts/mqttController.cs:253-392 | With MainPlayer neither 1 nor 2, no laser, grenade or shield takes effect. |
| Controller.EmptyUtilityStartsNothing | CG4002/Assets/Scripts/mqttController.cs:258-291 | A player whose util_empty is set starts the same animations as an idle player and raises no shield. |
| Controller.MqttController.UpdateP1Local | CG4002/Assets/Scripts/mqttController.cs:219-230 | Player 1's local fields become the message's Player 1 part. |
| Controller.MqttController.UpdateP2Local | CG4002/Assets/Scripts/mqttController.cs:236-247 | Player 2's local fields become the message's Player 2 part. |
| Controller.MqttController.UpdateGameState | CG4002/Assets/Scripts/mqttController.cs:411-428 | Each player's health and deaths equal hp and num_deaths. Each player's utility equals Synced of its old value and the local fields. |
| Controller.MqttController.RunShoot | CG4002/Assets/Scripts/mqttController.cs:253-295 | Each laser runs exactly once if it is in ShootAnimations of the local fields, and is untouched otherwise. |
| Controller.MqttController.RunShield | CG4002/Assets/Scripts/mqttController.cs:301-344 | Each player's shieldOn becomes its old value or ShieldRaised. Nothing else, shieldCount included, changes. |
| Controller.MqttController.RunGrenade | CG4002/Assets/Scripts/mqttController.cs:350-392 | Each grenade runs exactly once if it is in GrenadeAnimations of the local fields, and is untouched otherwise. |
| Controller.MqttController.RunLogout | CG4002/Assets/Scripts/mqttController.cs:399-405 | The end-game screen is shown if it was already shown or EndGameRequested holds. |
| Controller.MqttController.OnMessageArrived | CG4002/Assets/Scripts/mqttController.cs:197-213 | The message is copied into the local fields and the game state before any dispatch. The shots, shields, grenades and logout then follow from the new message's actions. |
| Effects.LaserMovement.Run | CG4002/Assets/Scripts/P1LaserMovement.cs:35-48 | The laser animation is enabled, and the run is recorded. |
| Effects.GrenadeMovement.Run | CG4002/Assets/Scripts/P1GrenadeMovement.cs:53-69 | The grenade is in flight, and the run is recorded. |
| Effects.MenuPopUp.EndGame | CG4002/Assets/Scripts/MenuPopUp.cs:119-122 | The end-game screen is shown. |

## Left out

- Parsing the JSON message (`JsonUtility.FromJson`) is a library call. The handler takes the parsed `Message` record as input.
- Publishing to and subscribing on the MQTT broker (`CustomPublish`, `OnMessageArrived +=`, the grenade-status and on/off-screen messages) is network I/O.
- `PlayerUtility.Update` (the shield on/off timers) and `PlayerHealth.Update` (caching the shield flags) run every frame on floating-point time. `shieldOn` and `shieldWait` are taken as given state, and the cached flag is a method parameter.
- The per-frame movement of the laser and grenade animations is not modelled: Bezier and Lerp interpolation, distance thresholds, `Invoke`, and the hit detection that calls `HitGrenadeP1`/`HitGrenadeP2`. Only the effect of `run()` is kept.
- UI, scene and Unity wiring are not modelled: health and utility bars, status texts, `GetComponent` lookups, `SetActive` and `Debug.Log`.
- Controller.Synced / Controller.MqttController.UpdateGameState: the source stores `(float)(10 - shield_time)` in `onTimer`. That equals the model's integer `10 - shield_time` only while |10 - shield_time| <= 16,777,216. Beyond that the float rounds, e.g. 16,777,217 is stored as 16,777,216.
- C# `int` is 32 bits wide, and the model's integers are unbounded. The two agree unless an intermediate result leaves the 32-bit range. One such result is `health - (20 - shieldHealth)` in `HitGrenadeP1`/`HitGrenadeP2`, which has no `health > 0` guard. With hp and shield_health both at -1,100,000,000 from a message, C# wraps health to a large positive value and skips the respawn, while `GrenadeHit` respawns the player.
- Utility.PlayerUtility.constructor, Health.PlayerHealth.constructor and Controller.MqttController.constructor stand for the Unity inspector's initial values, which are not part of these files.
