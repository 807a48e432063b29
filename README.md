# StationIapetus gameplay core in Dafny

This project models the gameplay bookkeeping of StationIapetus, a third-person
shooter built on the rg3d engine, and proves properties of that model. It
covers three parts of the game:

- **Bots** (`bot.dfy`, module `BotAI`):
  - the bot kinds and their id codec;
  - the per-kind definition table;
  - target selection: a sticky current target, otherwise the nearest visible candidate;
  - weapon fallback when the current weapon is empty;
  - waypoint following and path re-planning at a fixed cadence;
  - the damage lockout on aiming and the melee attack cooldown;
  - the messages a bot sends each tick: shots, melee hits and footsteps.
  A `Bot` class holds the fields that `update` changes. Its methods are proved against specification functions.
- **Player** (`player.dfy`, module `PlayerControl`):
  - the weapon-change direction codec;
  - the button-to-action dispatch of input handling;
  - look-angle clamping;
  - the model-yaw table;
  - the per-tick flags, timers and signal drains of `update`: ground contact, air time, run factor, jump, weapon grab, put-back and grenade toss;
  - the shot message.
  A `Player` class holds the fields those methods change.
- **Level** (`level.dfy`, module `GameLevel`):
  - the scene analysis that sorts nodes by name prefix into items, bot spawn points, the player spawn point and death zones;
  - the spawn-point codec;
  - a `Level` class whose actor and weapon pools are maps and whose projectile, item and spawn-point lists are sequences;
  - giving items, removing weapons and actors, spawning bots, damaging actors, and death-zone damage.

Shared vocabulary lives in `common.dfy` (module `Common`):
- vectors, pool handles and bot targets;
- the `Option` and `Result` wrappers;
- the outbound message type;
- the drain of an animation clip's signal queue.

Modelling conventions:
- Single-precision floats are modelled as `real`.
- Norms are compared squared: `‖d‖ ≤ 0.75` becomes `SqrDistance ≤ 0.75 * 0.75`.
- The physics ray cast, the navmesh, the animation clips' signal queues and contact manifolds become parameters. Each tick record (`BotTick`, `PlayerTick`) gathers what the engine would report.
- Sent messages are returned as a sequence, not put on a channel.
- Pool handles are `Handle(index, generation)`. `NONE` is `Handle(0, 0)`. Live handles carry a generation of at least one.

The character module, the animation machines, the weapon module and the item
module are not part of this model. Where the code here calls into them, the
model states its assumption:
- `heal` adds to `health` and `damage` subtracts from it.
- A character is dead when `health <= 0`.
- `next_weapon` and `prev_weapon` step the current index by one and stay inside the weapon list.
- Rewinding an animation clip clears its ended flag.
- A failed `Navmesh::build_path` leaves the path it was given untouched.
- A frustum contains a point when the point is on the inner side of every plane (`dot(n, p) + d >= 0`).
- An AABB contains a point when every coordinate lies between its bounds, inclusive.
- A new weapon's ammo is a parameter (`initialAmmo`).

## Model

| member | source | states |
|---|---|---|
| BotAI.KindFromId | src/bot/mod.rs:60-67 | decoding succeeds exactly for ids 0, 1 and 2 |
| BotAI.KindId | src/bot/mod.rs:69-75 | every kind encodes to an id in 0..=2 that decodes back to the same kind |
| BotAI.KindFromIdInverse | src/bot/mod.rs:60-75 | an id that decodes re-encodes to itself |
| BotAI.GetDefinition | src/bot/mod.rs:209-287 | the table as written: every kind has positive health, walk speed and attack damage, none can use weapons, and a kind has a spine bone iff it has an aim animation |
| BotAI.ZombieDefinitionMislabelled | src/bot/mod.rs:261-263 | the Zombie entry reports a kind other than Zombie |
| BotAI.Definition | src/bot/mod.rs:209-287 | the corrected table: every definition reports its own kind and agrees with the written table in every other field |
| BotAI.CanShoot | src/bot/mod.rs:400-403 | a bot outside the aim state, or of a kind that cannot use weapons, cannot shoot |
| BotAI.BotsNeverShoot | src/bot/mod.rs:400-403 | with the shipped table no bot kind can ever shoot |
| BotAI.RetainedFrom | src/bot/mod.rs:412-421 | finds the first descriptor that names the current target, alive and not the bot itself, or reports that none does |
| BotAI.Nearest | src/bot/mod.rs:425-463 | the chosen candidate qualifies (not the bot, inside the frustum, no triangle mesh on the ray), none is nearer, earlier qualifying candidates are strictly farther, and there is no choice iff nothing qualifies |
| BotAI.SelectedTarget | src/bot/mod.rs:405-466 | a sticky target only has its position refreshed; otherwise, when some candidate qualifies, the target becomes a qualifying candidate nearest to the bot, the first one among equally near ones; with nothing qualifying the old target stays |
| BotAI.ScanTargets | src/bot/mod.rs:424-465 | the candidate scan with its per-hit occlusion loop and strict `<` leaves the candidate Nearest picks, or the old target when none qualifies |
| BotAI.StickyTargetKept | src/bot/mod.rs:412-421 | a target still listed alive keeps its handle |
| BotAI.Bot.SelectTarget | src/bot/mod.rs:405-466 | the labelled scan loops leave the target that SelectedTarget specifies |
| BotAI.FirstWithAmmo | src/bot/mod.rs:472-477 | finds the first weapon with ammo, or reports that every weapon is empty |
| BotAI.SelectedWeapon | src/bot/mod.rs:468-479 | the weapon changes only when the current one is empty and another has ammo; the new index is the first weapon with ammo; with no ammo anywhere the index stays |
| BotAI.Bot.SelectWeapon | src/bot/mod.rs:468-479 | the loop with break leaves the index SelectedWeapon specifies |
| BotAI.Follow | src/bot/mod.rs:584-591 | the cursor advances by at most one, only when the waypoint is within 0.75 and is not the last one, and stays inside a non-empty path |
| BotAI.FollowPath | src/bot/mod.rs:584-591 | computes the move target and cursor that Follow specifies |
| BotAI.Replan | src/bot/mod.rs:534-551 | without a target or either navmesh endpoint nothing changes; with both endpoints the cursor is 0; a successful search installs its path reversed and stamps the time; a failed one keeps the path and the stamp; the stamp moves iff the search succeeds; the cursor stays valid |
| BotAI.PlanTick | src/bot/mod.rs:702-708 | a tick at least 1.0 s after the last stamp with a navmesh runs Replan; any other tick changes nothing |
| BotAI.FailedPlanRetries | src/bot/mod.rs:702-708 | after a due tick whose search fails the stamp is unchanged, so the next tick with a navmesh re-plans again |
| BotAI.ReplanSpacing | src/bot/mod.rs:702-708 | two successive path rebuilds are at least 1.0 s apart |
| BotAI.Bot.RebuildPath | src/bot/mod.rs:534-551 | the path, cursor and stamp become those of Replan; a new path is the search result reversed |
| BotAI.Bot.PlanPath | src/bot/mod.rs:702-708 | the path state becomes that of PlanTick and the cursor stays valid |
| BotAI.LockoutHolds | src/bot/mod.rs:595-600 | after a health drop the timer counts down from 0.8 by the elapsed steps, so the bot cannot aim again before 0.8 s have passed |
| BotAI.AttackStep | src/bot/mod.rs:737-750 | the cooldown is re-armed to 0.3 only when it is negative and the clip has ended, then loses the frame time; the clip restarts only in close combat with the cooldown spent |
| BotAI.AttackBoundaryAtZero | src/bot/mod.rs:746-748 | a cooldown of exactly zero is not re-armed |
| BotAI.DriveAttack | src/bot/mod.rs:737-750 | computes what AttackStep specifies |
| BotAI.ShotMessages | src/bot/mod.rs:638-651 | at most one shot is sent; one is sent iff out of close combat, able to aim and shoot, with a target and a current weapon; it aims at the target |
| BotAI.TickMessages | src/bot/mod.rs:638-700 | the messages of a tick are the shot, then one melee hit per hit signal in close combat, then one footstep per step signal on the ground |
| Common.DrainSignals | src/bot/mod.rs:655-670 | draining a clip sends the message once per matching signal while the condition holds |
| Common.EmissionsCount | src/bot/mod.rs:655-670 | a drain sends exactly as many messages as matching signals, all equal, and none when the condition fails |
| Common.Reversed | src/bot/mod.rs:545 | the reversed path is a permutation of the search result, with element i taken from the mirrored position |
| BotAI.Bot.constructor | src/bot/mod.rs:373-391 | a new bot has its definition's health, last health equal to it, no target, no path and the initial rebuild stamp of -10 |
| BotAI.Bot.OnActorRemoved | src/bot/mod.rs:767-773 | the target is cleared iff it names the removed actor, and is otherwise unchanged |
| BotAI.Bot.SetTarget | src/bot/mod.rs:553-555 | the target becomes the given handle at the given position |
| BotAI.Bot.Perceive | src/bot/mod.rs:563-600 | target, weapon, waypoint, frustum and damage-lockout state after the first half of a tick |
| BotAI.Bot.Animate | src/bot/mod.rs:709-750 | the machine inputs, the timer decrement and the attack clip step |
| BotAI.Bot.Respond | src/bot/mod.rs:623-750 | messages, re-planning, machine inputs and the attack cooldown of the second half of a tick |
| BotAI.Bot.Update | src/bot/mod.rs:557-759 | the whole tick: each field's new value and the messages sent, in terms of the specification functions |
| PlayerControl.DirectionFromId | src/player/mod.rs:173-181 | decoding succeeds exactly for ids 0, 1 and 2 |
| PlayerControl.DirectionId | src/player/mod.rs:250-254 | every direction encodes to an id in 0..=2 that decodes back to it |
| PlayerControl.DirectionFromIdInverse | src/player/mod.rs:250-254 | an id that decodes re-encodes to itself |
| PlayerControl.ActionOf | src/player/mod.rs:941-998 | the triggered action is bound to the button |
| PlayerControl.ActionOfFirstMatch | src/player/mod.rs:941-998 | no earlier binding in scheme order matches the button, and a button with no action is bound to nothing |
| PlayerControl.DecodeEvent | src/player/mod.rs:898-938 | exactly keys with a code, the wheel and mouse buttons become button events; a key keeps its code and pressed state; the wheel always presses, WheelDown for a negative scroll and WheelUp otherwise; a mouse button keeps its state and its id modulo 2^16, unchanged below 2^16 |
| PlayerControl.ApplyAction | src/player/mod.rs:941-998 | exactly the flag of the triggered action takes the pressed state; every other flag and the look angles keep their values |
| PlayerControl.NextGuardWrapsWhenUnarmed | src/player/mod.rs:956-958 | the guard as written lets Next through for a player with no weapons |
| PlayerControl.NextGuardsAgree | src/player/mod.rs:956-958 | whenever the player owns a weapon, the written guard and the corrected one agree |
| PlayerControl.RequestedDirection | src/player/mod.rs:956-987 | the direction changes only on a press of next (when not on the last weapon) or previous (when not on the first), and to the matching value |
| PlayerControl.Switched | src/player/mod.rs:566-571 | a pending direction moves the index by at most one, in its own direction, and stays in range |
| PlayerControl.Player.ProcessButton | src/player/mod.rs:940-999 | controller and direction become ApplyAction and RequestedDirection; the switch clips restart iff a weapon change is recorded, and the toss clip rewinds iff the toss button is pressed |
| PlayerControl.Player.ProcessInputEvent | src/player/mod.rs:894-999 | mouse motion turns yaw and clamps pitch to ±90°, decoded events go through button handling, and other events change nothing |
| PlayerControl.Clamp | src/player/mod.rs:931-933 | the result is in range, and a value already in range is kept |
| PlayerControl.ModelYaw | src/player/mod.rs:653-693 | aiming yields -45, 0 or 45 degrees, 0 iff no side key is held, +45 for left (or right with backward) and -45 for right (or left with backward); every result lies in -135..180 |
| PlayerControl.YawIsCompassPoint | src/player/mod.rs:669-692 | while not aiming the yaw is one of 0, ±45, ±90, ±135 and 180 |
| PlayerControl.YawForwardBackward | src/player/mod.rs:653-693 | with forward and backward both held, forward wins when walking with a side key, backward wins otherwise and whenever aiming |
| PlayerControl.YawFollowsHeading | src/player/mod.rs:675-693 | without aiming the yaw is the heading of the walk direction |
| PlayerControl.YawLeftWins | src/player/mod.rs:659-693 | with left and right both held, left decides |
| PlayerControl.YawMirror | src/player/mod.rs:659-693 | swapping left and right negates the yaw (180 stays 180) |
| PlayerControl.HasGroundContact | src/player/mod.rs:440-454 | contact holds iff some manifold normal points up more steeply than 0.7 |
| PlayerControl.DrainSeen | src/player/mod.rs:577-589 | draining reports whether the signal occurred |
| PlayerControl.DrainGrab | src/player/mod.rs:560-575 | with a grab signal the pending switch is carried out and cleared; without one nothing changes |
| PlayerControl.ShotMessages | src/player/mod.rs:872-891 | a shot is sent iff shoot is held, the upper body is in its aim state and the current index names a weapon |
| PlayerControl.EaseRun | src/player/mod.rs:487-492 | the run factor moves toward its target without overshooting and stays in [0, 1] |
| PlayerControl.Player.Locomote | src/player/mod.rs:440-492 | ground contact, the machine inputs (ground flag from air time ≤ 0.3, jumping iff grounded and jump held), run easing and air time |
| PlayerControl.Player.DrainClips | src/player/mod.rs:542-611 | jump velocity, weapon switch, grab enabling and grenades from the four clip drains |
| PlayerControl.Player.Update | src/player/mod.rs:430-892 | the whole tick: new air time, run factor, weapon state, machine inputs, rewinds, model yaw and messages |
| PlayerControl.AirTimeAfter | src/player/mod.rs:843-847 | air time is never negative and is zero right after a grounded tick |
| PlayerControl.AirborneRunGrows | src/player/mod.rs:843-847 | over an airborne run, air time grows by the frame time every tick |
| GameLevel.ItemForWeapon | src/level.rs:619-623 | a removed weapon drops a weapon item, which grants that weapon back |
| GameLevel.WeaponForItem | src/level.rs:645-650 | a weapon is granted exactly for the three weapon items; the rocket launcher is an error |
| GameLevel.AmmoTarget | src/level.rs:670-675 | exactly the three ammo items refill a weapon kind |
| GameLevel.AmmoTargetBijective | src/level.rs:670-675 | each weapon kind is refilled by exactly one ammo item |
| GameLevel.ClassifyIsFirstRule | src/level.rs:267-299 | the if-chain over name prefixes decides as the first matching rule in test order |
| GameLevel.RulesExclusive | src/level.rs:267-299 | no two prefixes can match one name |
| GameLevel.ClassifyByAnyMatch | src/level.rs:267-299 | a name starting with any rule's prefix gets that rule's category, whatever the test order |
| GameLevel.Analyze | src/level.rs:252-325 | the node loop produces the analysis AnalysisOf specifies |
| GameLevel.AnalysisItems | src/level.rs:267-274 | one item per item-named node of each kind, each at the position of a node named for its kind |
| GameLevel.AnalysisSpawnPoints | src/level.rs:275-292 | every spawn point starts unspawned, and there is one per node named after its bot kind |
| GameLevel.PlayerSpawnDefault | src/level.rs:262-294 | without a player spawn node the player spawns at the origin |
| GameLevel.PlayerSpawnIsLast | src/level.rs:293-294 | the player spawns at the last player spawn node |
| GameLevel.DeathZonesFromMeshes | src/level.rs:295-320 | every death zone is the bounds of a mesh node named as a death zone |
| GameLevel.DeathZonesInOrder | src/level.rs:295-320 | the death zones are exactly the bounds of the mesh nodes named as death zones, in node order |
| GameLevel.EncodeSpawnPoint | src/level.rs:1097-1111 | writing keeps position and flag and stores a valid kind id |
| GameLevel.DecodeSpawnPoint | src/level.rs:1097-1111 | reading fails exactly for an out-of-range kind id, and keeps position and flag |
| GameLevel.SpawnPointRecordRoundTrip | src/level.rs:1097-1111 | a record that reads back writes out unchanged |
| GameLevel.FirstOfKind | src/level.rs:652-661 | finds the first held weapon of a kind, or reports that none is held |
| GameLevel.Without | src/level.rs:630-631 | removing a handle from the pool order keeps exactly the other handles |
| GameLevel.ZoneHitsExact | src/level.rs:812-828 | one actor gets one lethal hit per zone containing it, and some hit iff some zone contains it |
| GameLevel.ZoneDamageExact | src/level.rs:811-830 | every death-zone message is a 99999 hit with no attacker on an actor inside a zone; each actor gets one hit per zone containing it |
| GameLevel.HitsFor | src/level.rs:813-828 | the zone loop yields the hits ZoneHits specifies |
| GameLevel.Level.UpdateDeathZones | src/level.rs:811-830 | the nested loop sends ZoneDamage over the actors in pool order |
| GameLevel.Retarget | src/level.rs:766-782 | a bot hurt by a known attacker turns on the attacker at its position; players and attacker-less hits keep their role |
| GameLevel.DamagedBotTargetsItself | src/level.rs:780 | as written, a bot hurt by another actor ends up targeting itself |
| GameLevel.Level.constructor | src/level.rs:155-176 | a fresh level is empty and has no player |
| GameLevel.Level.AddBot | src/level.rs:411-430 | a fresh handle maps to a bot of the kind with full health, appended to the pool order |
| GameLevel.Level.SpawnBot | src/level.rs:904-915 | an in-range id marks its spawn point spawned and adds its bot at the end of the pool order; an out-of-range id leaves actors, pool order and spawn points unchanged |
| GameLevel.Level.GiveNewWeapon | src/level.rs:367-387 | a live actor gets a fresh weapon of the kind, owned by it and appended to its list; otherwise nothing changes |
| GameLevel.Level.AddAmmoToFirst | src/level.rs:652-680 | exactly the first held weapon of the kind gains 200 ammo, if there is one |
| GameLevel.Level.GiveItem | src/level.rs:639-684 | a medkit heals by 20; a weapon item refills the first weapon of its kind or grants a new one; an ammo item refills the first weapon of its kind or does nothing; a rocket launcher is an error; a missing actor changes nothing |
| GameLevel.Level.RemoveWeapon | src/level.rs:578-587 | the weapon is freed and exactly the projectiles it owned lose their owner |
| GameLevel.Level.DropWeapons | src/level.rs:611-627 | one item per held weapon is dropped at the ground point, and the weapons are freed with their projectiles' owners reset |
| GameLevel.Level.RemoveActor | src/level.rs:606-637 | an actor that is not live changes nothing, pool order included; a live actor is freed with its weapons dropped and freed, every bot aiming at it loses its target; the player handle becomes NONE iff it was this actor; the level stays consistent |
| GameLevel.Forget | src/bot/mod.rs:767-773 | a target naming the removed actor is cleared and any other target is kept |
| GameLevel.Survivors | src/level.rs:631 | exactly the other actors remain, each with only its target possibly cleared |
| GameLevel.SurvivorsKeepWeapons | src/level.rs:606-637 | after an actor and its weapons are freed, every remaining actor still holds only live weapons it owns, each once |
| GameLevel.RemovalForgetsTarget | src/bot/mod.rs:767-773 | after a removal no remaining bot aims at the removed actor, and health, position and weapons are untouched |
| GameLevel.Level.DamageActor | src/level.rs:761-785 | nothing changes unless the actor is live and the attacker is NONE or live; then health drops by the amount and a bot retargets |

## Left out

- Sound, rendering, camera, skinned meshes, asset loading and `Level::new`'s scene instancing: these are I/O.
- Physics ray casts, contact manifolds, `pick` and velocity or rotation writes: these are numerics. Ray hits, manifold normals and the picked ground point are parameters.
- Frustum construction, `SmoothAngle`, the aiming quaternions, velocity smoothing and the camera bob: these are floating-point numerics. A new frustum is a field of the tick.
- The random footstep sound path: sounds keep only their spatial parameters.
- The event channels: messages are returned as a sequence.
- The animation state machines' internals: their inputs are returned; their states are tick fields (`upperInAimState`, `inJumpPhase`, `lowerIsWalking`).
- The upper-body weapon input is always the rifle, so it is not carried.
- Pool slot reuse: handles are handed out from a counter with generation 1, so pool order is insertion order.
- Bots inside the level are value records (kind, target, health, position, weapons); the level does not hold `BotAI.Bot` objects, and their AI state is modelled in `BotAI`.
- `pickup_item`, `create_projectile`, `shoot_weapon`, `show_weapon`, `spawn_player` and `Level::update`'s respawn timer are not part of this model; they forward to code that is not shown.
- `Bot::can_be_removed` (dying clip ended) and `debug_draw`: engine queries and drawing.
- `Visit` serialisation beyond the two id codecs.
- `BotKind::description`: a display string for the editor, with no behaviour.
- PlayerControl.Player.CanBeRemoved: states `health <= 0` directly, with no further contract.
- BotAI.Bot.Perceive: the frustum takes the tick's new frustum instead of being built from the bot's pose.
- GameLevel.Level.GiveItem: a rocket launcher panics in the game; here it returns an error and changes nothing.
- GameLevel.Level.RemoveActor: the dropped items all land on one given ground point, as every drop picks from the same position.
- GameLevel.Level.RemoveActor: the actor container that frees the actor (src/level.rs:631) is not part of this model; the model has it tell every remaining bot of the removal, as `Bot::on_actor_removed` does.
- GameLevel.Level.DamageActor: applies the corrected retargeting (the bot turns on the attacker), not the self-targeting that src/level.rs:780 writes; the as-written behaviour is `RetargetAsWritten`, see Findings.
- PlayerControl.Player.ProcessButton: applies the corrected next-weapon guard, not the unsigned subtraction of src/player/mod.rs:957 that lets an unarmed player request Next; the as-written guard is `NextAllowedAsWritten`, see Findings.

## Findings

| source | as written | input that shows it | evidently intended | confidence | as-written member | corrected member |
|---|---|---|---|---|---|---|
| src/bot/mod.rs:263 | the Zombie definition reports `kind: BotKind::Parasite` | `get_definition(BotKind::Zombie).kind` | each definition reports its own kind | high, not executed | BotAI.ZombieDefinitionMislabelled | BotAI.Definition |
| src/level.rs:780 | `bot.set_target(actor_handle, who_position)` passes the damaged bot's own handle | a bot hit by the player: its target names the bot itself | the bot targets `who`, the attacker | high, not executed | GameLevel.DamagedBotTargetsItself | GameLevel.Retarget |
| src/player/mod.rs:956-958 | `current_weapon < weapons.len() as u32 - 1` underflows for an empty list: it wraps in release builds and panics in debug builds | a player with no weapons pressing next-weapon: 0 < 4294967295 holds | Next is allowed only when a later weapon exists | medium, not executed | PlayerControl.NextGuardWrapsWhenUnarmed | PlayerControl.RequestedDirection |
