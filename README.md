# Lightsaber duel: the game rules in Dafny

`game.js` is a browser game in which a keyboard-and-mouse player fights a computer
opponent with lightsabers and two force abilities, push and dash, inside an 800×600
arena. This project models the rules layer of that file as imperative Dafny. Each
class whose fields the game updates in place is a Dafny `class` here:

- `ForceAbility` is modelled in `force_abilities.dfy`.
- `Lightsaber` is modelled in `sabers.dfy`.
- `Player` is modelled in `players.dfy`.
- `Enemy` is modelled in `opponents.dfy`.
- `Game` is modelled in `duel.dfy`.

The methods carry `modifies` clauses. `ForceAbility`, `Player`, `Enemy` and `Game` also
have a `Valid()` invariant; `Lightsaber` has none, because its only lasting fact is that
it stays lit, and its owner's invariant states that. The methods are proved against
specification functions of each object's state: each ensures that the new state is the
function of the old one. The functions are `Tick` and `Activated` for an ability, `Aimed`
for a blade, and `Step` for the player. For the enemy they are `AIStep` (built from
`Observed` and `Decision`, one function per state handler), `Moved` and `Stepped`. For the
game they are `PlayerTurn`, `EnemyTurn`, `Collide` and `Frame`. One predicate is a
relation rather than a function: `Considered` collects the rules the opponent's
`updateAI` obeys between the mind it is given and the mind it leaves, and the lemmas
`UpdateAIConsidered` and `SteppedConsidered` prove that `AIStep` and `Stepped` satisfy it.
The `Player`, `Enemy` and `Game` methods other than `Game.Update` name single fields in
their `modifies` frames, so a field outside such a frame is known to be unchanged.
`Game.Update`, `ForceAbility.Update`, `ForceAbility.Activate` and `Lightsaber.Update`
have whole-object frames; their state equalities say what they keep. Lemmas prove the
properties the game relies on:

- `vitality.dfy` holds the health and damage-gate rules that `Player` and `Enemy` share.
- `tactics.dfy` holds the opponent's decision rules: the five-state machine, stance
  selection, personality adaptation, the bounded memory of the player's movement and
  the force-push trigger.
- `geometry.dfy` holds clamping, the arena and target boxes, and the trigonometry
  interface.

Modelling conventions:

- Milliseconds (`deltaTime`, `Date.now()`) are `int`s. Positions, velocities, health
  and personality traits are `real`s.
- `Date.now()` becomes a single `now` parameter per frame.
- Each `Math.random()` call site is its own field of a `Draws` record (or `SpawnDraws`
  for the constructor, or a hit-draw parameter). Only the draws that a contract uses as
  numbers are required to lie in [0, 1), as `Math.random()` gives them: the six spawn
  draws, `draws.engageDistance` (the stance distance) and the two hit draws. The other
  draws (patrol distance, strafe distance, strafe flip, state switch, flank-or-counter
  and stance) are unconstrained, so every result holds for any value of them.
- `Math.hypot`, `Math.atan2`, `Math.cos` and `Math.sin` are arbitrary total functions
  in a `Trig` record. Every result therefore holds whatever those functions return.
- The keys the player holds are the set of their `KeyboardEvent.code`s.
- The enemy sees the player through a `PlayerView` value (position and health). It
  never writes to the player.
- `Math.PI / 2` is the double-precision constant `HalfPi`.

## Model

| member | source | states |
|---|---|---|
| Geometry.Clamp | game.js:341-342 | The result lies in [lo, hi]. It is the input when the input is inside, lo below and hi above. |
| Geometry.Advance | game.js:335-342 | A coordinate after one integration step and the bounds clamp always lies in [lo, hi]. |
| ForceAbilities.Tick | game.js:999-1011 | `update(delta)`: cooldown and duration are kept. For delta ≥ 0: a positive remaining cooldown drops by delta; a spent one (≤ 0) stays as it is; the remaining cooldown never increases. Afterwards `isActive` implies `activeTime < duration`. An expiring ability has its `activeTime` reset to 0. An inactive ability stays inactive. |
| ForceAbilities.Activated | game.js:1017-1023 | On a usable ability, `activate()` sets `isActive`, zeroes `activeTime` and restarts the cooldown, so `canUse()` becomes false when the cooldown is positive. On an unusable ability nothing changes. The open-window invariant is preserved. |
| ForceAbilities.ActivateIdempotent | game.js:1017-1023 | With a positive cooldown, activating twice in a row is the same as activating once. |
| ForceAbilities.SpentCooldownStays | game.js:999-1002 | Once usable, an ability stays usable, with the same remaining cooldown, over any run of updates. |
| ForceAbilities.CooldownRecovers | game.js:999-1015 | After a run of non-negative updates the ability is usable iff it was already usable or the elapsed time covers the remaining cooldown. |
| ForceAbilities.IdleStaysIdle | game.js:1004-1010 | An inactive ability is active in no later frame, whatever the updates. |
| ForceAbilities.ActiveWindowAt100 | game.js:1004-1010 | With 100 ms frames, an ability that has been active for 100·k ms stays active for exactly 4 − k more frames. |
| ForceAbilities.FiredAbilityCoversFourFrames | game.js:994-1010 | With 100 ms frames, a 500 ms activation is seen as active by exactly four later frames. |
| ForceAbilities.FiredInFrameCoversFiveFrames | game.js:994-1023 | An activation made after a frame's tick, as the enemy's push is, is also seen by that frame's collision check: five checks in all at 100 ms frames. |
| ForceAbilities.CannotRefireInWindow | game.js:999-1023 | With a cooldown above 500 ms, a fired ability is not usable after any of its first five 100 ms frames, so it cannot fire again while its window is still seen. |
| ForceAbilities.ForceAbility.CanUse | game.js:1013-1015 | `canUse()`: the remaining cooldown is at most 0. It has no contract of its own; `CooldownRecovers` and `Activated` state when it holds. |
| ForceAbilities.ForceAbility.constructor | game.js:991-997 | A new ability is usable and inactive, with the given cooldown and a 500 ms duration. |
| ForceAbilities.ForceAbility.Update | game.js:999-1011 | The new state is `Tick` of the old one, and the invariant holds. |
| ForceAbilities.ForceAbility.Activate | game.js:1017-1023 | The new state is `Activated` of the old one, and the invariant holds. |
| Vitality.AfterDamage | game.js:381 | Health after a hit is never negative. It is exactly health − damage unless that is negative, and it does not grow for a non-negative hit. |
| Vitality.GateAfterHit | game.js:389-391 | After a hit stamped at t, `canTakeDamage` is false up to and including t + 100 and true afterwards. |
| Vitality.HitsKeepHealthInRange | game.js:380-382 | Any sequence of non-negative hits keeps health within [0, starting health] ⊆ [0, max]. |
| Vitality.NegativeDamageOverheals | game.js:381 | A negative hit is not capped: from any health ≥ 0, health becomes health − damage, which is more than before. From full health it exceeds the maximum. |
| Vitality.GateOpen | game.js:389-391 | `canTakeDamage()` on a stamp: strictly more than the cooldown has passed since the last hit. `GateAfterHit` states its fence post. |
| Sabers.Lightsaber.constructor | game.js:941-948 | A new blade is lit, at angle 0, with its tip at the origin. |
| Sabers.Lightsaber.Update | game.js:950-959 | The blade points from its owner at the aim point, and the tip lies one blade length (80) along that angle. |
| Players.MoveIntent | game.js:313-326 | Each axis is negative or positive iff exactly the corresponding key of the pair is held; opposite keys cancel. A diagonal has both components of magnitude 0.707, and a straight move has magnitude at most 1. |
| Players.DashForce | game.js:302-304 | The dash boost lies in (0, 400] inside the window and is 400 at its start. |
| Players.DashForceDecays | game.js:302-304 | The boost never grows as the window goes on. |
| Players.Player.constructor | game.js:264-295 | A new player is valid, at the given position, at rest, at full health (200), with a push on a 10 s cooldown and a dash on an 8 s cooldown, both ready. |
| Players.Player.TakeDamage | game.js:380-387 | Health becomes `AfterDamage` of the old health, and the hit time and flash are stamped. Nothing else in the player's state changes. A non-negative hit keeps the invariant and never raises health. No further hit is accepted up to 100 ms later. |
| Players.Player.IsAlive | game.js:393-395 | `isAlive()`: health is above 0. `StepPlayer`, `CheckCollisions` and `EnemyBlade` test it. |
| Players.Player.CanTakeDamage | game.js:389-391 | `canTakeDamage()` with the clock as a parameter: `GateOpen` on the player's stamp and the 100 ms cooldown. |
| Players.Player.Update | game.js:297-350 | The velocity is the dash boost, then the normalised key move, then friction (0.9 during a dash, 0.85 otherwise). The dash ends once its window has passed. The position steps by the velocity and ends inside [20,780]×[20,580]. The blade aims at the mouse from the new position. Both abilities are ticked. Together: the new state is `Step` of the old one, so health, the damage stamps and the dash's start, window and angle are unchanged. |
| Players.Player.Steer | game.js:298-333 | The velocity half of `update`, as stated for `Update`. |
| Players.Player.DashStep | game.js:298-310 | While the window is open, the velocity is pushed along the dash angle by the decaying boost. Otherwise the dash ends and the velocity is unchanged. |
| Players.Player.KeyStep | game.js:328-329 | The velocity gains the key move times speed and elapsed seconds. |
| Players.Player.Move | game.js:336-342 | Both coordinates step by the velocity and are clamped into the arena. |
| Players.Player.UseForcePush | game.js:352-356 | The push state becomes `Activated` of the old one. |
| Players.Player.UseForceDash | game.js:358-378 | If the dash was usable: it fires; the velocity gains 1200 along the blade angle; a 300 ms boost window opens at `now`. Otherwise the dash fields and the velocity are unchanged. |
| Tactics.NextAIState | game.js:660-802 | Patrol → engage iff distance < 250, and stays in patrol otherwise. In engage, distance > 350 → patrol wins over health < 30% → retreat. Otherwise it leaves engage iff the 2% draw fires, and then goes to flank iff the second draw is above 0.5, to counter otherwise. Retreat → engage iff health > 50% or distance > 400. Flank → engage iff distance > 300 or aiTimer > 2000; counter the same with 1500. Patrol, retreat, flank and counter are entered only from themselves or from engage. |
| Tactics.FarPlayerKeepsPatrol | game.js:660-664 | A patrolling opponent whose player never comes within 250 patrols forever. |
| Tactics.HealthyNeverRetreats | game.js:683-692 | An opponent that is not retreating and stays at or above 30% health never retreats. |
| Tactics.ChooseStance | game.js:641-655 | Own health < 40% forces defensive, whatever the player's health. Otherwise player health < 40% forces aggressive. Otherwise the draw gives balanced iff < 0.4, aggressive iff in [0.4, 0.7) and defensive iff ≥ 0.7. |
| Tactics.SuccessRate | game.js:627-628 | The success rate lies in [0, 1] and is 0 when there are no successful defences. |
| Tactics.Adapted | game.js:613-635 | Prediction and adaptability are untouched. Own health below 30% never lowers caution (from at most 0.9) and, unless the success rate is above 0.7, never raises aggression (from at least 0.2). Otherwise player health below 30% never lowers aggression (from at most 0.95) and, with a success rate of at least 0.3, never raises caution (from at least 0.1). With no successes aggression stays in [0.2, 0.95], and caution that was at least 0.1 stays so. With nobody low and no successes, caution rises by exactly 0.05 and nothing else changes. |
| Tactics.CautionDrifts | game.js:627-634 | With both healths at or above 30% and the counters at 0, n frames raise caution by 0.05·n and change nothing else. |
| Tactics.CautionLeavesUnitInterval | game.js:627-634 | From its spawn range (≥ 0.3), caution exceeds 1 after 15 calm frames. |
| Tactics.Recorded | game.js:602-610 | The new observation is the last entry. On a buffer of at most 11 entries, the result is the newest 11 of old buffer + entry. |
| Tactics.BufferKeepsNewest | game.js:602-610 | Over any run of frames, the buffer is exactly the newest 11 observations, oldest first. |
| Tactics.SmallDropLeavesCloseQuarters | game.js:834-862 | When the player's health fell by less than 10 since the last frame, the push trigger holds iff own health < 30% and distance < 100. |
| Tactics.PushTriggered | game.js:840-855 | The three push triggers of `updateForcePushAI`: the player lost more than 25, or own health is below 30% within 100 of the player, or the player lost more than 15 with own health below 50%. `SmallDropLeavesCloseQuarters` states what it reduces to in a game. |
| Opponents.StanceDistance | game.js:697-708 | The engage distance lies in [45,125) when aggressive, [150,180) when defensive and [75,135) when balanced. |
| Opponents.Enemy.constructor | game.js:456-511 | A new enemy is valid. It patrols at the given position with full health (100). It has an empty memory and traits in their spawn ranges. Its strafing direction is ±1 by the draw, and its push is ready. |
| Opponents.Enemy.TakeDamage | game.js:865-872 | The same rule as the player's: `AfterDamage`, the stamps and the shut gate, and nothing else in the enemy's state changes. |
| Opponents.Enemy.IsAlive | game.js:878-880 | `isAlive()`: health is above 0. `StepEnemy`, `CheckCollisions` and `PlayerBlade` test it. |
| Opponents.Enemy.CanTakeDamage | game.js:874-876 | `canTakeDamage()` with the clock as a parameter: `GateOpen` on the enemy's stamp and the 100 ms cooldown. |
| Opponents.DecisionFacts | game.js:567-816 | For every mind, the handler that `Decision` runs follows `NextAIState`. It restarts the timer only on a patrol retarget. In patrol, retreat and flank it keeps a target that was inside [50,750]×[50,550] inside. It changes the strafing direction only in engage and flank, and keeps a ±1 direction ±1. It changes no field but the state, the timer, the target and the strafing direction. |
| Opponents.UpdateAIConsidered | game.js:552-590 | For every mind, `updateAI` (`AIStep`) obeys `Considered`. The state is `NextAIState` at the distance measured before the step. The timer is 0 after a patrol retarget and otherwise unchanged, and then gains delta. The memory is `Recorded`, the last player position and the inferred velocity are the player's, and the personality is `Adapted`. The stance is re-chosen exactly when due. The box rule, the strafing rule and the ±1 direction hold. |
| Opponents.MovedKeeps | game.js:518-549 | The acting half of `update` changes neither the mind nor health, the damage stamps, the flash, `preferredDistance` or the defence counters. |
| Opponents.SteppedOfParts | game.js:513-549 | Thinking to `AIStep` of the mind with its timer advanced once, then acting as `Moved`, makes exactly `Stepped`. |
| Opponents.SteppedKeeps | game.js:513-550 | One enemy `update` sets the mind to `AIStep` of the mind with its timer advanced once. It keeps health, the damage stamps, the flash, `preferredDistance` and the defence counters. |
| Opponents.SteppedConsidered | game.js:513-550 | One enemy `update` obeys `Considered` from the mind with its timer advanced once, so the timer advances twice per frame. Health, the damage stamps, the flash, `preferredDistance` and the defence counters are unchanged. |
| Opponents.Enemy.Update | game.js:513-550 | The new state is `Stepped` of the old one: `AIStep` on the mind with its timer advanced once, then `Moved`. By `SteppedConsidered`, the AI fields follow `Considered` from the mind with its timer advanced once, so the timer advances twice per frame. Health, the damage stamps, the flash, `preferredDistance` and the defence counters are unchanged. The position ends in the arena and the invariant holds. |
| Opponents.Enemy.Think | game.js:513-517 | The first timer advance, then `updateAI`: the mind becomes `AIStep` of the old mind with its timer advanced by delta. Everything outside the mind is unchanged. The invariant holds. |
| Opponents.Enemy.Act | game.js:519-549 | The new state is `Moved` of the old: chase, step and clamp, aim, tick the push, push decision. The mind is unchanged and the position ends in the arena. |
| Opponents.Enemy.Locomote | game.js:518-540 | The velocity chases the target point: no pull within 5 of it, then friction. The position ends clamped into the arena. |
| Opponents.Enemy.Arm | game.js:542-549 | The blade is lit and aimed at the player. The push is ticked, then activated iff the trigger holds. `lastPlayerDamage` becomes the player's health. |
| Opponents.Enemy.Chase | game.js:519-532 | The velocity after the pull towards the target and friction. |
| Opponents.Enemy.Move | game.js:534-540 | Both coordinates step by the velocity and are clamped into the arena. |
| Opponents.Enemy.UpdateAI | game.js:552-590 | The mind becomes `AIStep` of the old one: `Observed`, then `Decision` at the distance measured before either, then the timer gains delta. `UpdateAIConsidered` states what that means. The invariant holds. |
| Opponents.Enemy.Observe | game.js:557-564 | The mind becomes `Observed` of the old one. The memory is `Recorded`, and the last player position and inferred velocity are the player's. The personality is `Adapted` with both counters at 0. The stance is re-chosen exactly when due. The invariant holds. |
| Opponents.Enemy.Decide | game.js:567-587 | The mind becomes `Decision` of the old one: the current state's handler. The state is `NextAIState`, and the timer restarts only on a patrol retarget. A patrol, retreat or flank step keeps a boxed target boxed. The strafing direction changes only in engage or flank, and stays ±1. |
| Opponents.Enemy.UpdateCombatMemory | game.js:592-611 | The inferred player velocity is the position delta, and the last position becomes the player's position. The buffer becomes `Recorded`, so it stays at most 11 long. |
| Opponents.Enemy.AdaptPersonality | game.js:613-635 | The personality becomes `Adapted` of the old one. |
| Opponents.Enemy.UpdateStance | game.js:637-658 | Only when aiTimer − lastStanceChange > 3000: the stance becomes `ChooseStance` and `lastStanceChange` becomes aiTimer. Otherwise both are unchanged. |
| Opponents.Enemy.HandlePatrolState | game.js:660-681 | The state is `NextAIState(Patrol, …)`. On a retarget (out of range, aiTimer > 3000) the target lies towards the player, clamped into [50,750]×[50,550], and the timer restarts at 0. Otherwise target and timer are unchanged. The mind becomes `Patrolled` of the old one. |
| Opponents.Enemy.HandleEngageState | game.js:683-731 | The state is `NextAIState(Engage, …)`. It leaves the target alone on the way to patrol or retreat. Off the stance's distance ±30, the target is the stance distance from the predicted player position; otherwise it strafes. The result is unclamped. The strafing direction stays ±1. The mind becomes `Engaged` of the old one. |
| Opponents.Enemy.Position | game.js:694-730 | The positioning after the two guards of `handleEngageState`. Off the stance's distance ±30, the target is the stance distance from the predicted player position, along the angle from the player to the enemy, unclamped, and the strafing direction is kept. Otherwise the enemy takes a `performTacticalMovement` step. Then the state becomes flank or counter on the 2% draw (flank iff the second draw is above 0.5), and stays engage otherwise. The mind becomes `Positioned` of the old one. |
| Opponents.Enemy.HandleRetreatState | game.js:733-754 | The state is `NextAIState(Retreat, …)`. Above half health the target is unchanged. Otherwise it is the point 200 from the enemy's own position in the direction away from the player, clamped into the target box. The mind becomes `Retreated` of the old one. |
| Opponents.Enemy.HandleFlankState | game.js:756-779 | The state is `NextAIState(Flank, …)`. Within range the target is a quarter turn around the player at distance 100, clamped into the target box. The strafing direction reverses exactly when flanking ends on the timer. The mind becomes `Flanked` of the old one. |
| Opponents.Enemy.HandleCounterState | game.js:781-802 | The state is `NextAIState(Counter, …)`. Within range the target is the point 70 from the player's position extrapolated two frames, in the direction of the enemy (along the angle from the player to the enemy), unclamped. The mind becomes `Countered` of the old one. |
| Opponents.Enemy.PerformTacticalMovement | game.js:804-816 | The target is a 30–50 step a quarter turn from the angle. The strafing direction is negated iff the draw is < 0.1, so it stays ±1. The mind becomes `Strafed` of the old one. |
| Opponents.Enemy.UpdateLightsaberAI | game.js:818-832 | The blade is lit and ends up aimed at the player's actual position, with its tip one blade length along that angle. |
| Opponents.Enemy.UpdateForcePushAI | game.js:834-863 | The push is `Activated` iff one of the three triggers holds (and it does nothing when unusable); otherwise it is unchanged. `lastPlayerDamage` becomes the player's health. |
| Duel.HitDamage | game.js:104 | A blade hit does between 5 and 10 damage. |
| Duel.Game.constructor | game.js:17-19 | The player starts at (100,300) and the enemy at (700,300), both at full health, and the game invariant holds. |
| Duel.Frame | game.js:66-88 | One whole `update`: `PlayerTurn`, then `EnemyTurn`, then `Collide`. A dash in progress keeps a positive window. |
| Duel.FrameKeepsDropSmall | game.js:66-129 | Every frame keeps the invariant that the player has lost less than 10 health since the enemy last looked. |
| Duel.DropSmallAfterEnemyTurn | game.js:862 | A live enemy's turn records the player's health, so afterwards the drop is zero. A dead enemy's turn changes nothing. |
| Duel.CollideKeepsDropSmall | game.js:116-129 | After a live enemy has just looked, the collisions take less than 10 from the player: one blade hit at most. |
| Duel.EnemyTurnSparesHealth | game.js:72-75 | The enemy's turn leaves the player as it was and changes neither the enemy's health nor its damage stamp. |
| Duel.FrameNeverHeals | game.js:66-147 | No frame raises either combatant's health. |
| Duel.DeadStayPut | game.js:66-94 | A whole frame leaves a dead player exactly as it was, and likewise a dead enemy. |
| Duel.CollideHitsCost | game.js:96-129 | With both alive, a combatant whose stamp changes in the collisions is stamped at this frame's clock and loses between 5 and 10 health, or is left at 0. One whose stamp does not change loses nothing. |
| Duel.CollideRespectsGate | game.js:103-125 | While a combatant's damage gate is shut, the collisions change neither its health nor its stamp. |
| Duel.ShutGateBlocksHits | game.js:66-129 | While a combatant's damage gate is shut, a whole frame changes neither its health nor its stamp. |
| Duel.NoHitWithinCooldown | game.js:90-129 | Whoever loses health in one frame loses none in any frame at most 100 ms later, whatever that frame's inputs. |
| Duel.EnemyTurnPushRule | game.js:834-862 | Because the invariant keeps the player's loss below 10, a live enemy's turn fires its push iff the push is usable, the enemy is below 30% health and it ends within 100 of the player. Otherwise the push is only ticked. |
| Duel.Game.Update | game.js:66-88 | The new world is `Frame` of the old one. First the player takes `Step` if alive. Then the enemy takes `Stepped` if alive, seeing the player where the first step left it. Then the world becomes `Collide` of that. The game invariant holds, by `FrameKeepsDropSmall`. With `FrameNeverHeals`, `DeadStayPut`, `NoHitWithinCooldown` and `EnemyTurnPushRule`, no health rises, the dead stay put, no hit lands inside the cooldown and the push follows the close-quarters rule. |
| Duel.Game.StepPlayer | game.js:67-70 | The new world is `PlayerTurn` of the old one: a live player takes `Step`, a dead one stays as it was. The enemy is untouched. |
| Duel.Game.StepEnemy | game.js:72-75 | The new world is `EnemyTurn` of the old one: a live enemy becomes `Stepped` of itself, seeing the player's current position and health. A dead one stays as it was. The player is untouched. |
| Duel.Game.CheckCollisions | game.js:90-147 | The new world is `Collide` of the old one. Nothing changes unless both are alive. Then come the player's blade, the enemy's blade and the two pushes, in that order. |
| Duel.Game.PlayerBlade | game.js:96-114 | The new world is `EnemyHit` of the old one. If the player's blade is lit, the enemy alive, the absolute tip distance below 14 and the enemy's gate open, the enemy loses `HitDamage`, is stamped and flashes, and gets an 800 knockback directly away from the player. Otherwise nothing changes. |
| Duel.Game.KnockBack | game.js:108-112 | The enemy's velocity gains 800 along the angle from the player to the enemy. Nothing else changes. |
| Duel.Game.EnemyBlade | game.js:116-129 | The new world is `PlayerHit` of the old one: the same tests, with the plain distance and the player's liveness and gate. A hit damages, stamps and flashes the player, with no knockback. |
| Duel.Game.ShoveEnemy | game.js:132-138 | While the player's push is active, the enemy's velocity gains 150 directly away from the player, at any distance. Otherwise nothing changes. |
| Duel.Game.ShovePlayer | game.js:140-146 | While the enemy's push is active, the player's velocity gains 150 directly away from the enemy, at any distance. Otherwise nothing changes. |
| Duel.Game.OnForcePush | game.js:58-63 | The space-bar listener fires the player's push and keeps the game invariant. |
| Duel.Game.OnForceDash | game.js:48-51 | The mouse-down listener fires the player's dash and keeps the game invariant. If the dash was usable, the velocity gains 1200 along the blade angle and a 300 ms boost window opens at `now`. Otherwise the velocity and the dash fields are unchanged. |

### Behaviour of the code worth knowing

The model reproduces each of these as the code has it.

- The pattern buffer can hold 11 entries: the oldest entry is dropped only
  when the buffer already holds more than 10 (`Tactics.BufferKeepsNewest`).
- The personality traits are not kept in [0, 1]. With the defence counters never incremented, the
  success rate is 0, so caution rises by 0.05 every calm frame
  (`Tactics.CautionLeavesUnitInterval`).
- Health is not kept at or below the maximum for negative damage
  (`Vitality.NegativeDamageOverheals`).
- The opponent's blade aims at the player's actual position. The angle computed from
  the predicted position is overwritten by `Lightsaber.update` on the next line.
- `canTakeDamage` is still false exactly 100 ms after a hit, because the comparison
  is strict.
- Nothing in the code limits `deltaTime`.
- `lastPlayerDamage` holds the player's previous health, so the push trigger measures
  how much health the *player* lost since the last frame. Each frame the player takes
  at most one blade hit, of less than 10, so the "more than 25" and "more than 15"
  triggers can never fire in a game. Only the close-quarters trigger is live
  (`Duel.EnemyTurnPushRule`). The trigger itself is modelled as written.
- The stance sets the engage distance in every case, so the spawn-time
  `preferredDistance` is read but its value is never used.
- The aiTimer advances twice per frame and is reset only by a patrol retarget. After
  a long patrol-free engagement, flank and counter therefore end on their first frame.
- An enemy killed by the player's blow still strikes back in the same frame. Its
  liveness is not checked again before the enemy's blade is.

## Left out

- Rendering (`render`, `drawStars`, `drawForceEffect`, `drawGameOver`,
  `Lightsaber.render`) and the damage-flash reset inside `render`: cosmetic only.
- `updateUI`, `setupEventListeners` and the `gameLoop` / `requestAnimationFrame`
  driver: DOM and browser plumbing. The space-bar and mouse-down listeners are modelled
  as `Game.OnForcePush` and `Game.OnForceDash`. The keys map becomes the set of held
  keys.
- The `Particle` class, particle creation and filtering: cosmetic random effects.
- `color`, `aggressionLevel`, `gameRunning`, `lastTime` and the `width`/`height`
  fields: never read by the rules.
- Trigonometry and `Math.hypot` are uninterpreted functions. No property depends on
  their values, so facts such as "the tip is exactly 80 from the owner" are stated
  in terms of `cos`/`sin` and not proved metrically.
- Floating point: all arithmetic is exact real arithmetic, and `Math.PI / 2` is a
  decimal constant.
- Duel.Game.Update, Duel.Game.CheckCollisions and the two `TakeDamage` methods use one
  clock value `now` for the whole frame. The source calls `Date.now()` at each use:
  the dash check (game.js:300), the memory timestamp (game.js:609), the two damage
  gates (game.js:390, 875) and the two stamps in each `takeDamage` (game.js:382 and
  386, 867 and 871). Those readings may differ by a millisecond.
- Opponents.Enemy.Update and Duel.Game.Update require `draws.engageDistance` (and
  `Game.Update` also the two hit draws) to lie in [0, 1), as `Math.random()` guarantees.
  The other draws of a frame are not constrained. The draws are parameters.
- Velocity integration and friction have no stated property beyond the final clamp.
  They are modelled exactly (`SteeredVelocity`, `Pursued`), but nothing further is
  proved about them.
- `isMatchOver` and the match-end observation: the code has no such operation beyond
  `isAlive`.
