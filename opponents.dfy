/** `Enemy`, game.js: the computer-driven combatant. Each frame it records where the
    player went, adapts its personality, re-picks a stance, runs one step of its state
    machine (the rules are the functions of module Tactics), chases its target point,
    aims its blade and decides whether to fire its force push. The player is seen
    through a `PlayerView` of its position and health; `Date.now()` is `now`, each
    `Math.random()` call is a field of `Draws`, and the trigonometric functions are
    the `Trig` record. */
module Opponents {
  import opened Geometry
  import opened ForceAbilities
  import opened Vitality
  import opened Sabers
  import opened Tactics
  import Players

  const EnemyMaxHealth: real := 100.0
  const EnemySpeed: real := 1000.0
  const EnemyFriction: real := 0.85
  /** The enemy has a push only; its cooldown is the player's. */
  const EnemyPushCooldown: int := 10000
  /** The enemy does not chase a target point nearer than this. */
  const ArrivalRadius: real := 5.0
  const RetreatDistance: real := 200.0
  const FlankDistance: real := 100.0
  const CounterDistance: real := 70.0
  /** How many frames of the player's movement the counter state leads by. */
  const CounterLead: real := 2.0
  /** Half the width of the band of distances around the stance's target distance
      inside which the enemy strafes instead of closing in or backing off. */
  const DistanceSlack: real := 30.0

  /** The fields of the enemy's AI, at one moment. */
  datatype Mind = Mind(aiState: AIState, aiTimer: int, patterns: seq<Observation>, personality: Personality,
                       lastPlayerX: real, lastPlayerY: real, playerVelX: real, playerVelY: real,
                       currentStance: Stance, lastStanceChange: int,
                       targetX: real, targetY: real, strafingDirection: int)

  /** What the enemy reads of the player. */
  datatype PlayerView = PlayerView(x: real, y: real, health: real)

  function EnemyHealthPercent(health: real): real
  {
    health / EnemyMaxHealth
  }

  function PlayerHealthPercent(health: real): real
  {
    health / Players.PlayerMaxHealth
  }

  /** The draws the constructor makes, in the order it makes them. */
  datatype SpawnDraws = SpawnDraws(aggression: real, caution: real, prediction: real,
                                   adaptability: real, preferredDistance: real, strafing: real)

  predicate Unit(r: real)
  {
    0.0 <= r < 1.0
  }

  /** The distance to the player the engage state aims for: a draw inside a band that
      depends on the stance. Every stance overrides the spawn-time `preferredDistance`,
      so that field is never read. */
  function StanceDistance(stance: Stance, random: real): (d: real)
    requires Unit(random)
    ensures stance == Aggressive ==> 45.0 <= d < 125.0
    ensures stance == Defensive ==> 150.0 <= d < 180.0
    ensures stance == Balanced ==> 75.0 <= d < 135.0
  {
    match stance
    case Aggressive => 45.0 + random * 80.0
    case Defensive => 150.0 + random * 30.0
    case Balanced => 75.0 + random * 60.0
  }

  /** Whether the engage state repositions (too close or too far) rather than strafes. */
  predicate OffRange(distance: real, targetDistance: real)
  {
    distance < targetDistance - DistanceSlack || distance > targetDistance + DistanceSlack
  }

  /** One coordinate of the point `distance` along a unit direction from `origin`. */
  function Toward(origin: real, direction: real, distance: real): real
  {
    origin + direction * distance
  }

  /** How far towards the player a patrol step goes: between 100 and 300. */
  function PatrolDistance(random: real): real
  {
    100.0 + random * 200.0
  }

  /** How far a strafing step goes: between 30 and 50. */
  function StrafeDistance(random: real): real
  {
    30.0 + random * 20.0
  }

  /** One velocity component after the chase step of `update`: the velocity gains
      speed towards the target unless the target is within the arrival radius, then
      friction applies. `offset` is that component of the vector to the target and
      `gap` its length. */
  function Pursued(v: real, offset: real, gap: real, dt: real): real
  {
    (if gap > ArrivalRadius then v + offset / gap * (EnemySpeed * dt) else v) * EnemyFriction
  }

  /** The enemy's fields, with its push's and its blade's, at one moment. */
  datatype EnemyState = EnemyState(x: real, y: real, vx: real, vy: real, health: real, lastDamageTime: int,
                                   isFlashing: bool, damageFlashTime: int, mind: Mind, lastPlayerDamage: real,
                                   preferredDistance: real, successfulDefenses: nat, failedDefenses: nat,
                                   push: AbilityState, blade: Blade)

  /** `updateCombatMemory`, `adaptPersonality` and `updateStance`, in that order, on
      the mind `m` of an enemy with health `health`: the player's movement since the
      last frame is inferred and recorded, the personality adapts (the defence counters
      are always 0), and the stance is re-picked when it is due. */
  function Observed(m: Mind, health: real, p: PlayerView, now: int, stanceDraw: real): Mind
  {
    var mine := EnemyHealthPercent(health);
    var theirs := PlayerHealthPercent(p.health);
    var due := StanceDue(m.aiTimer, m.lastStanceChange);
    m.(patterns := Recorded(m.patterns, Observation(p.x, p.y, p.x - m.lastPlayerX, p.y - m.lastPlayerY, now)),
       lastPlayerX := p.x, lastPlayerY := p.y, playerVelX := p.x - m.lastPlayerX, playerVelY := p.y - m.lastPlayerY,
       personality := Adapted(m.personality, mine, theirs, 0, 0),
       currentStance := if due then ChooseStance(mine, theirs, stanceDraw) else m.currentStance,
       lastStanceChange := if due then m.aiTimer else m.lastStanceChange)
  }

  /** `handlePatrolState` on the mind `m` of an enemy at (`x`, `y`), `distance` from the
      player: engage within range; otherwise, once the AI timer has passed three
      seconds, a new target towards the player, clamped into the target box, and the
      timer restarted. */
  function Patrolled(m: Mind, x: real, y: real, distance: real, p: PlayerView, trig: Trig, patrolDraw: real): Mind
  {
    if distance < EngageRange then m.(aiState := Engage)
    else if m.aiTimer > PatrolRetarget then
      var angle := trig.Atan2(p.y - y, p.x - x);
      m.(aiState := Patrol, aiTimer := 0,
         targetX := Clamp(TargetMinX, TargetMaxX, Toward(x, trig.Cos(angle), PatrolDistance(patrolDraw))),
         targetY := Clamp(TargetMinY, TargetMaxY, Toward(y, trig.Sin(angle), PatrolDistance(patrolDraw))))
    else m.(aiState := Patrol)
  }

  /** `performTacticalMovement`: a short step from (`x`, `y`) a quarter turn from `angle`
      in the strafing direction, which reverses when the flip draw is below 0.1. */
  function Strafed(m: Mind, x: real, y: real, angle: real, trig: Trig, strafeDraw: real, flipDraw: real): Mind
  {
    var strafeAngle := angle + HalfPi * m.strafingDirection as real;
    m.(targetX := Toward(x, trig.Cos(strafeAngle), StrafeDistance(strafeDraw)),
       targetY := Toward(y, trig.Sin(strafeAngle), StrafeDistance(strafeDraw)),
       strafingDirection := if flipDraw < 0.1 then -m.strafingDirection else m.strafingDirection)
  }

  /** The positioning half of `handleEngageState`: close in on or back off from where
      the player is heading until the stance's distance (within the slack) is reached,
      or strafe once there; then switch to flanking or countering on the 2% draw. */
  function Positioned(m: Mind, x: real, y: real, distance: real, p: PlayerView, trig: Trig, draws: Draws): Mind
    requires Unit(draws.engageDistance)
  {
    var angle := trig.Atan2(y - p.y, x - p.x);
    var targetDistance := StanceDistance(m.currentStance, draws.engageDistance);
    var next := if draws.stateSwitch < 0.02 then (if draws.flankOrCounter > 0.5 then Flank else Counter) else Engage;
    if OffRange(distance, targetDistance) then
      m.(aiState := next,
         targetX := Toward(Toward(p.x, m.playerVelX, m.personality.prediction), trig.Cos(angle), targetDistance),
         targetY := Toward(Toward(p.y, m.playerVelY, m.personality.prediction), trig.Sin(angle), targetDistance))
    else Strafed(m, x, y, angle, trig, draws.strafeDistance, draws.strafeFlip).(aiState := next)
  }

  /** `handleEngageState`: patrol beyond the disengage range, retreat when low,
      otherwise position. */
  function Engaged(m: Mind, x: real, y: real, health: real, distance: real, p: PlayerView, trig: Trig, draws: Draws): Mind
    requires Unit(draws.engageDistance)
  {
    if distance > DisengageRange then m.(aiState := Patrol)
    else if health < EnemyMaxHealth * 0.3 then m.(aiState := Retreat)
    else Positioned(m, x, y, distance, p, trig, draws)
  }

  /** `handleRetreatState`: engage again above half health; otherwise head for the
      point 200 from (`x`, `y`) directly away from the player, clamped into the target
      box, and engage again anyway once the player is far enough. */
  function Retreated(m: Mind, x: real, y: real, health: real, distance: real, p: PlayerView, trig: Trig): Mind
  {
    if health > EnemyMaxHealth * 0.5 then m.(aiState := Engage)
    else
      var angle := trig.Atan2(y - p.y, x - p.x);
      m.(aiState := if distance > RetreatEscapeRange then Engage else Retreat,
         targetX := Clamp(TargetMinX, TargetMaxX, Toward(x, trig.Cos(angle), RetreatDistance)),
         targetY := Clamp(TargetMinY, TargetMaxY, Toward(y, trig.Sin(angle), RetreatDistance)))
  }

  /** `handleFlankState`: engage again beyond the manoeuvre range; otherwise head for
      the point 100 from the player a quarter turn round in the strafing direction,
      clamped into the target box, and after two seconds of AI time engage again with
      the strafing direction reversed. */
  function Flanked(m: Mind, x: real, y: real, distance: real, p: PlayerView, trig: Trig): Mind
  {
    if distance > ManoeuvreRange then m.(aiState := Engage)
    else
      var flankAngle := trig.Atan2(y - p.y, x - p.x) + HalfPi * m.strafingDirection as real;
      var expired := m.aiTimer > FlankTime;
      m.(aiState := if expired then Engage else Flank,
         targetX := Clamp(TargetMinX, TargetMaxX, Toward(p.x, trig.Cos(flankAngle), FlankDistance)),
         targetY := Clamp(TargetMinY, TargetMaxY, Toward(p.y, trig.Sin(flankAngle), FlankDistance)),
         strafingDirection := if expired then -m.strafingDirection else m.strafingDirection)
  }

  /** `handleCounterState`: engage again beyond the manoeuvre range; otherwise head for
      the point 70 from where the player will be two frames from now, on the enemy's
      side (not clamped), and after 1.5 seconds of AI time engage again. */
  function Countered(m: Mind, x: real, y: real, distance: real, p: PlayerView, trig: Trig): Mind
  {
    if distance > ManoeuvreRange then m.(aiState := Engage)
    else
      var angle := trig.Atan2(y - p.y, x - p.x);
      m.(aiState := if m.aiTimer > CounterTime then Engage else Counter,
         targetX := Toward(Toward(p.x, m.playerVelX, CounterLead), trig.Cos(angle), CounterDistance),
         targetY := Toward(Toward(p.y, m.playerVelY, CounterLead), trig.Sin(angle), CounterDistance))
  }

  /** The handler of the current state applied to the mind `m`. */
  function Decision(m: Mind, x: real, y: real, health: real, distance: real, p: PlayerView, trig: Trig, draws: Draws): Mind
    requires Unit(draws.engageDistance)
  {
    match m.aiState
    case Patrol => Patrolled(m, x, y, distance, p, trig, draws.patrolDistance)
    case Engage => Engaged(m, x, y, health, distance, p, trig, draws)
    case Retreat => Retreated(m, x, y, health, distance, p, trig)
    case Flank => Flanked(m, x, y, distance, p, trig)
    case Counter => Countered(m, x, y, distance, p, trig)
  }

  /** `updateAI` on the mind `m` of an enemy at (`x`, `y`) with health `health`: observe,
      run the current state's handler (with the distance measured before either), then
      advance the AI timer. */
  function AIStep(m: Mind, x: real, y: real, health: real, delta: int, p: PlayerView, now: int, trig: Trig, draws: Draws): Mind
    requires Unit(draws.engageDistance)
  {
    var decided := Decision(Observed(m, health, p, now, draws.stance), x, y, health, trig.Hypot(x - p.x, y - p.y), p, trig, draws);
    decided.(aiTimer := decided.aiTimer + delta)
  }

  /** The rules `updateAI` obeys, from the mind `before` it is given, of an enemy at
      (`x0`, `y0`) with health `health0`, to the mind `after` it leaves: the state
      machine as the handler sees it, the timer advance after the patrol restart, the
      memory, the personality, the stance re-selection, the target-box rule and the
      strafing rule. */
  predicate Considered(x0: real, y0: real, health0: real, before: Mind, after: Mind,
                       delta: int, p: PlayerView, now: int, trig: Trig, draws: Draws)
  {
    var distance := trig.Hypot(x0 - p.x, y0 - p.y);
    var timer := before.aiTimer;
    var mine := EnemyHealthPercent(health0);
    var theirs := PlayerHealthPercent(p.health);
    after.aiState == NextAIState(before.aiState, distance, health0, EnemyMaxHealth, timer, draws.stateSwitch, draws.flankOrCounter) &&
    after.aiTimer == (if before.aiState == Patrol && PatrolRetargets(distance, timer) then 0 else timer) + delta &&
    after.patterns == Recorded(before.patterns, Observation(p.x, p.y, p.x - before.lastPlayerX, p.y - before.lastPlayerY, now)) &&
    after.lastPlayerX == p.x && after.lastPlayerY == p.y &&
    after.playerVelX == p.x - before.lastPlayerX && after.playerVelY == p.y - before.lastPlayerY &&
    after.personality == Adapted(before.personality, mine, theirs, 0, 0) &&
    (if StanceDue(timer, before.lastStanceChange)
     then after.currentStance == ChooseStance(mine, theirs, draws.stance) && after.lastStanceChange == timer
     else after.currentStance == before.currentStance && after.lastStanceChange == before.lastStanceChange) &&
    ((before.aiState == Patrol || before.aiState == Retreat || before.aiState == Flank) &&
     InTargetBox(before.targetX, before.targetY) ==>
       InTargetBox(after.targetX, after.targetY)) &&
    (before.aiState != Engage && before.aiState != Flank ==> after.strafingDirection == before.strafingDirection) &&
    ((before.strafingDirection == 1 || before.strafingDirection == -1) ==>
       (after.strafingDirection == 1 || after.strafingDirection == -1))
  }

  /** The handlers follow the state machine, restart the timer only on a patrol
      retarget, keep a boxed target boxed in patrol, retreat and flank, change the
      strafing direction only in engage and flank and keep it ±1, and leave the
      observed fields alone. */
  lemma DecisionFacts(m: Mind, x: real, y: real, health: real, distance: real, p: PlayerView, trig: Trig, draws: Draws)
    requires Unit(draws.engageDistance)
    ensures var r := Decision(m, x, y, health, distance, p, trig, draws);
            r.aiState == NextAIState(m.aiState, distance, health, EnemyMaxHealth, m.aiTimer, draws.stateSwitch, draws.flankOrCounter) &&
            r.aiTimer == (if m.aiState == Patrol && PatrolRetargets(distance, m.aiTimer) then 0 else m.aiTimer) &&
            ((m.aiState == Patrol || m.aiState == Retreat || m.aiState == Flank) && InTargetBox(m.targetX, m.targetY) ==>
               InTargetBox(r.targetX, r.targetY)) &&
            (m.aiState != Engage && m.aiState != Flank ==> r.strafingDirection == m.strafingDirection) &&
            ((m.strafingDirection == 1 || m.strafingDirection == -1) ==> (r.strafingDirection == 1 || r.strafingDirection == -1))
    ensures var r := Decision(m, x, y, health, distance, p, trig, draws);
            r == m.(aiState := r.aiState, aiTimer := r.aiTimer, targetX := r.targetX, targetY := r.targetY,
                    strafingDirection := r.strafingDirection)
  {
  }

  /** `updateAI`, run on any mind, obeys `Considered`. */
  lemma UpdateAIConsidered(m: Mind, x: real, y: real, health: real, delta: int, p: PlayerView, now: int, trig: Trig, draws: Draws)
    requires Unit(draws.engageDistance)
    ensures Considered(x, y, health, m, AIStep(m, x, y, health, delta, p, now, trig, draws), delta, p, now, trig, draws)
  {
    var observed := Observed(m, health, p, now, draws.stance);
    var decided := Decision(observed, x, y, health, trig.Hypot(x - p.x, y - p.y), p, trig, draws);
    assert AIStep(m, x, y, health, delta, p, now, trig, draws) == decided.(aiTimer := decided.aiTimer + delta);
    DecisionFacts(observed, x, y, health, trig.Hypot(x - p.x, y - p.y), p, trig, draws);
  }

  /** What the acting half of one `update` makes of the enemy's state `s`, once the
      thinking has set the target point: the chase of the target from where it stands,
      the clamped step, the blade aimed at the player from the new position, the push
      ticked and then fired if its triggers hold, and the player's health remembered.
      Nothing else changes. */
  function Moved(s: EnemyState, p: PlayerView, delta: int, trig: Trig): EnemyState
  {
    var dt := Seconds(delta);
    var gap := trig.Hypot(s.mind.targetX - s.x, s.mind.targetY - s.y);
    var vx := Pursued(s.vx, s.mind.targetX - s.x, gap, dt);
    var vy := Pursued(s.vy, s.mind.targetY - s.y, gap, dt);
    var x := Advance(s.x, vx, dt, ArenaMinX, ArenaMaxX);
    var y := Advance(s.y, vy, dt, ArenaMinY, ArenaMaxY);
    var ticked := Tick(s.push, delta);
    var fire := PushTriggered(s.lastPlayerDamage - p.health, EnemyHealthPercent(s.health), trig.Hypot(x - p.x, y - p.y));
    s.(vx := vx, vy := vy, x := x, y := y, blade := Aimed(s.blade, x, y, p.x, p.y, trig),
       push := if fire then Activated(ticked) else ticked, lastPlayerDamage := p.health)
  }

  /** One `update` of the enemy in state `s`, with the player seen as `p`: the AI timer
      advances and it thinks, as `AIStep` says, and then it acts on its new mind, as
      `Moved` says. */
  function Stepped(s: EnemyState, p: PlayerView, delta: int, now: int, trig: Trig, draws: Draws): EnemyState
    requires Unit(draws.engageDistance)
  {
    Moved(s.(mind := AIStep(s.mind.(aiTimer := s.mind.aiTimer + delta), s.x, s.y, s.health, delta, p, now, trig, draws)), p, delta, trig)
  }

  /** Acting leaves the mind, health, the damage stamps and flash, the preferred
      distance and the defence counters as they were. */
  lemma MovedKeeps(s: EnemyState, p: PlayerView, delta: int, trig: Trig)
    ensures var t := Moved(s, p, delta, trig);
            t.mind == s.mind && t.health == s.health && t.lastDamageTime == s.lastDamageTime && t.isFlashing == s.isFlashing &&
            t.damageFlashTime == s.damageFlashTime && t.preferredDistance == s.preferredDistance &&
            t.successfulDefenses == s.successfulDefenses && t.failedDefenses == s.failedDefenses
  {
  }

  /** `Stepped` assembled from the thinking and the acting of one frame. */
  lemma SteppedOfParts(s0: EnemyState, m1: Mind, s2: EnemyState, p: PlayerView, delta: int, now: int, trig: Trig, draws: Draws)
    requires Unit(draws.engageDistance)
    requires m1 == AIStep(s0.mind.(aiTimer := s0.mind.aiTimer + delta), s0.x, s0.y, s0.health, delta, p, now, trig, draws)
    requires s2 == Moved(s0.(mind := m1), p, delta, trig)
    ensures s2 == Stepped(s0, p, delta, now, trig, draws)
  {
  }

  /** One `update` obeys `Considered` on the AI's fields, from the mind with its timer
      advanced once, and changes neither health, the damage stamps and flash, the
      preferred distance nor the defence counters. */
  lemma SteppedConsidered(s: EnemyState, p: PlayerView, delta: int, now: int, trig: Trig, draws: Draws)
    requires Unit(draws.engageDistance)
    ensures var t := Stepped(s, p, delta, now, trig, draws);
            Considered(s.x, s.y, s.health, s.mind.(aiTimer := s.mind.aiTimer + delta), t.mind, delta, p, now, trig, draws) &&
            t.health == s.health && t.lastDamageTime == s.lastDamageTime && t.isFlashing == s.isFlashing &&
            t.damageFlashTime == s.damageFlashTime && t.preferredDistance == s.preferredDistance &&
            t.successfulDefenses == s.successfulDefenses && t.failedDefenses == s.failedDefenses
  {
    SteppedKeeps(s, p, delta, now, trig, draws);
    UpdateAIConsidered(s.mind.(aiTimer := s.mind.aiTimer + delta), s.x, s.y, s.health, delta, p, now, trig, draws);
  }

  /** One `update` sets the mind to the AI step's and keeps health, the damage stamps
      and flash, the preferred distance and the defence counters. */
  lemma SteppedKeeps(s: EnemyState, p: PlayerView, delta: int, now: int, trig: Trig, draws: Draws)
    requires Unit(draws.engageDistance)
    ensures var t := Stepped(s, p, delta, now, trig, draws);
            t.mind == AIStep(s.mind.(aiTimer := s.mind.aiTimer + delta), s.x, s.y, s.health, delta, p, now, trig, draws) &&
            t.health == s.health && t.lastDamageTime == s.lastDamageTime && t.isFlashing == s.isFlashing &&
            t.damageFlashTime == s.damageFlashTime && t.preferredDistance == s.preferredDistance &&
            t.successfulDefenses == s.successfulDefenses && t.failedDefenses == s.failedDefenses
  {
    MovedKeeps(s.(mind := AIStep(s.mind.(aiTimer := s.mind.aiTimer + delta), s.x, s.y, s.health, delta, p, now, trig, draws)),
               p, delta, trig);
  }

  /** Thinking leaves everything but the AI's own fields as it was. */
  twostate lemma OnlyMindChanged(e: Enemy)
    requires unchanged(e`x, e`y, e`vx, e`vy, e`health, e`lastDamageTime, e`isFlashing, e`damageFlashTime,
                       e`lastPlayerDamage, e`preferredDistance, e`successfulDefenses, e`failedDefenses)
    requires unchanged(e.forcePush, e.lightsaber)
    ensures e.State() == old(e.State()).(mind := e.MindState())
  {
  }

  /** `Moved` read off the outcome of `Enemy.Act`, field by field. */
  twostate lemma MovedOfAct(e: Enemy, new delta: int, new p: PlayerView, new trig: Trig)
    requires unchanged(e`health, e`lastDamageTime, e`isFlashing, e`damageFlashTime, e`preferredDistance,
                       e`successfulDefenses, e`failedDefenses)
    requires e.MindState() == old(e.MindState())
    requires e.vx == Pursued(old(e.vx), e.targetX - old(e.x), trig.Hypot(e.targetX - old(e.x), e.targetY - old(e.y)), Seconds(delta))
    requires e.vy == Pursued(old(e.vy), e.targetY - old(e.y), trig.Hypot(e.targetX - old(e.x), e.targetY - old(e.y)), Seconds(delta))
    requires e.x == Advance(old(e.x), e.vx, Seconds(delta), ArenaMinX, ArenaMaxX)
    requires e.y == Advance(old(e.y), e.vy, Seconds(delta), ArenaMinY, ArenaMaxY)
    requires e.lightsaber.State() == Aimed(old(e.lightsaber.State()), e.x, e.y, p.x, p.y, trig)
    requires e.forcePush.State() ==
               var ticked := Tick(old(e.forcePush.State()), delta);
               if PushTriggered(old(e.lastPlayerDamage) - p.health, EnemyHealthPercent(e.health), trig.Hypot(e.x - p.x, e.y - p.y))
               then Activated(ticked) else ticked
    requires e.lastPlayerDamage == p.health
    ensures e.State() == Moved(old(e.State()), p, delta, trig)
  {
  }

  class Enemy {
    var x: real
    var y: real
    var vx: real
    var vy: real
    const maxHealth: real := EnemyMaxHealth
    var health: real
    var lastDamageTime: int
    const damageCooldown: int := DamageCooldown
    var damageFlashTime: int
    var isFlashing: bool
    var aiState: AIState
    var aiTimer: int
    var targetX: real
    var targetY: real
    /** The player's health as seen in the previous frame (despite its name). */
    var lastPlayerDamage: real
    var personality: Personality
    /** `combatMemory`: observed player movement, oldest first, and the defence
        counters, which nothing in the game ever increments. */
    var patterns: seq<Observation>
    var successfulDefenses: nat
    var failedDefenses: nat
    var lastPlayerX: real
    var lastPlayerY: real
    var playerVelX: real
    var playerVelY: real
    var preferredDistance: real
    var strafingDirection: int
    var lastStanceChange: int
    var currentStance: Stance
    const forcePush: ForceAbility
    const lightsaber: Lightsaber

    ghost predicate Valid()
      reads this`health, this`strafingDirection, this`patterns, this`successfulDefenses, this`failedDefenses,
            this`personality, forcePush, lightsaber
    {
      forcePush.Valid() && forcePush.cooldown == EnemyPushCooldown && lightsaber.isActive &&
      0.0 <= health <= maxHealth &&
      (strafingDirection == 1 || strafingDirection == -1) &&
      |patterns| <= PatternCapacity &&
      successfulDefenses == 0 && failedDefenses == 0 &&
      0.2 <= personality.aggression <= 0.95 && personality.caution >= 0.1
    }

    constructor (x0: real, y0: real, spawn: SpawnDraws)
      requires Unit(spawn.aggression) && Unit(spawn.caution) && Unit(spawn.prediction)
      requires Unit(spawn.adaptability) && Unit(spawn.preferredDistance) && Unit(spawn.strafing)
      ensures Valid() && fresh(forcePush) && fresh(lightsaber)
      ensures x == x0 && y == y0 && vx == 0.0 && vy == 0.0
      ensures health == maxHealth && lastDamageTime == 0 && !isFlashing
      ensures aiState == Patrol && aiTimer == 0 && targetX == x0 && targetY == y0 && lastPlayerDamage == 0.0
      ensures 0.6 <= personality.aggression < 0.9 && 0.3 <= personality.caution < 0.7
      ensures 0.4 <= personality.prediction < 0.8 && 0.5 <= personality.adaptability < 0.9
      ensures patterns == [] && lastPlayerX == 0.0 && lastPlayerY == 0.0
      ensures 80.0 <= preferredDistance < 120.0
      ensures strafingDirection == (if spawn.strafing > 0.5 then 1 else -1)
      ensures lastStanceChange == 0 && currentStance == Balanced
      ensures forcePush.State() == AbilityState(EnemyPushCooldown, 0, false, 0, ActiveDuration)
    {
      x, y := x0, y0;
      vx, vy := 0.0, 0.0;
      health := EnemyMaxHealth;
      lastDamageTime := 0;
      damageFlashTime := 0;
      isFlashing := false;
      aiState := Patrol;
      aiTimer := 0;
      targetX, targetY := x0, y0;
      lastPlayerDamage := 0.0;
      personality := Personality(0.6 + spawn.aggression * 0.3, 0.3 + spawn.caution * 0.4,
                                 0.4 + spawn.prediction * 0.4, 0.5 + spawn.adaptability * 0.4);
      patterns := [];
      successfulDefenses, failedDefenses := 0, 0;
      lastPlayerX, lastPlayerY := 0.0, 0.0;
      playerVelX, playerVelY := 0.0, 0.0;
      preferredDistance := 80.0 + spawn.preferredDistance * 40.0;
      strafingDirection := if spawn.strafing > 0.5 then 1 else -1;
      lastStanceChange := 0;
      currentStance := Balanced;
      forcePush := new ForceAbility(EnemyPushCooldown);
      lightsaber := new Lightsaber();
    }

    /** `isAlive()`. */
    predicate IsAlive()
      reads this
    {
      health > 0.0
    }

    /** `canTakeDamage()`, with the clock reading passed in. */
    predicate CanTakeDamage(now: int)
      reads this
    {
      GateOpen(now, lastDamageTime, damageCooldown)
    }

    /** `takeDamage(damage)`: the same rule as the player's. */
    method TakeDamage(damage: real, now: int)
      requires Valid()
      modifies this`health, this`lastDamageTime, this`isFlashing, this`damageFlashTime
      ensures health == AfterDamage(old(health), damage)
      ensures damage >= 0.0 ==> Valid() && health <= old(health)
      ensures lastDamageTime == now && isFlashing && damageFlashTime == now
      ensures forall t :: t <= now + damageCooldown ==> !CanTakeDamage(t)
      ensures State() == old(State()).(health := health, lastDamageTime := now, isFlashing := true, damageFlashTime := now)
    {
      health := Max(0.0, health - damage);
      lastDamageTime := now;
      isFlashing := true;
      damageFlashTime := now;
    }

    /** The fields of the AI now. */
    function MindState(): Mind
      reads this`aiState, this`aiTimer, this`patterns, this`personality, this`lastPlayerX, this`lastPlayerY,
            this`playerVelX, this`playerVelY, this`currentStance, this`lastStanceChange,
            this`targetX, this`targetY, this`strafingDirection
    {
      Mind(aiState, aiTimer, patterns, personality, lastPlayerX, lastPlayerY, playerVelX, playerVelY,
           currentStance, lastStanceChange, targetX, targetY, strafingDirection)
    }

    /** The whole enemy now. */
    function State(): EnemyState
      reads this, forcePush, lightsaber
    {
      EnemyState(x, y, vx, vy, health, lastDamageTime, isFlashing, damageFlashTime, MindState(), lastPlayerDamage,
                 preferredDistance, successfulDefenses, failedDefenses, forcePush.State(), lightsaber.State())
    }

    /** `update(deltaTime, player)`: advance the AI timer, run the AI, chase the target
        point, stay in the arena, aim the blade at the player, tick the push and let
        the AI decide whether to fire it. Health, the damage stamps, the flash, the
        preferred distance and the defence counters lie outside its frame. */
    method Update(delta: int, p: PlayerView, now: int, trig: Trig, draws: Draws)
      requires Valid()
      requires Unit(draws.engageDistance)
      modifies this`patterns, this`lastPlayerX, this`lastPlayerY, this`playerVelX, this`playerVelY,
               this`personality, this`currentStance, this`lastStanceChange,
               this`aiState, this`targetX, this`targetY, this`aiTimer, this`strafingDirection,
               this`vx, this`vy, this`x, this`y, this`lastPlayerDamage, forcePush, lightsaber
      ensures Valid()
      ensures InArena(x, y)
      ensures State() == Stepped(old(State()), p, delta, now, trig, draws)
    {
      Think(delta, p, now, trig, draws);
      ghost var thought := MindState();
      Act(delta, p, trig);
      SteppedOfParts(old(State()), thought, State(), p, delta, now, trig, draws);
    }

    /** The decision part of `update`: the first advance of the AI timer, then `updateAI`. */
    method Think(delta: int, p: PlayerView, now: int, trig: Trig, draws: Draws)
      requires Valid()
      requires Unit(draws.engageDistance)
      modifies this`patterns, this`lastPlayerX, this`lastPlayerY, this`playerVelX, this`playerVelY,
               this`personality, this`currentStance, this`lastStanceChange,
               this`aiState, this`targetX, this`targetY, this`aiTimer, this`strafingDirection
      ensures Valid()
      ensures MindState() == AIStep(old(MindState()).(aiTimer := old(aiTimer) + delta), x, y, health, delta, p, now, trig, draws)
      ensures State() == old(State()).(mind := MindState())
    {
      ghost var advanced := MindState().(aiTimer := aiTimer + delta);
      aiTimer := aiTimer + delta;
      assert MindState() == advanced;
      UpdateAI(delta, p, now, trig, draws);
      OnlyMindChanged(this);
    }

    /** The acting part of `update`: movement, then the blade and the push, as `Moved`
        describes them. */
    method Act(delta: int, p: PlayerView, trig: Trig)
      requires Valid()
      modifies this`vx, this`vy, this`x, this`y, this`lastPlayerDamage, forcePush, lightsaber
      ensures Valid()
      ensures InArena(x, y)
      ensures State() == Moved(old(State()), p, delta, trig)
    {
      Locomote(Seconds(delta), trig);
      Arm(delta, p, trig);
      MovedOfAct(this, delta, p, trig);
    }

    /** The movement part of `update`: chase the target point, then step and clamp. */
    method Locomote(dt: real, trig: Trig)
      requires Valid()
      modifies this`vx, this`vy, this`x, this`y
      ensures Valid()
      ensures vx == Pursued(old(vx), targetX - old(x), trig.Hypot(targetX - old(x), targetY - old(y)), dt)
      ensures vy == Pursued(old(vy), targetY - old(y), trig.Hypot(targetX - old(x), targetY - old(y)), dt)
      ensures x == Advance(old(x), vx, dt, ArenaMinX, ArenaMaxX)
      ensures y == Advance(old(y), vy, dt, ArenaMinY, ArenaMaxY)
      ensures InArena(x, y)
    {
      Chase(dt, trig);
      Move(dt);
    }

    /** The combat part of `update`: aim the blade, tick the push, then let the AI
        decide whether to fire it. */
    method Arm(delta: int, p: PlayerView, trig: Trig)
      requires Valid()
      modifies this`lastPlayerDamage, forcePush, lightsaber
      ensures Valid()
      ensures lightsaber.State() == Aimed(old(lightsaber.State()), x, y, p.x, p.y, trig)
      ensures forcePush.State() ==
                var ticked := Tick(old(forcePush.State()), delta);
                if PushTriggered(old(lastPlayerDamage) - p.health, EnemyHealthPercent(health), trig.Hypot(x - p.x, y - p.y))
                then Activated(ticked) else ticked
      ensures lastPlayerDamage == p.health
    {
      UpdateLightsaberAI(p, trig);
      forcePush.Update(delta);
      UpdateForcePushAI(p, trig);
    }

    /** The chase half of `update`: accelerate towards the target point, then friction. */
    method Chase(dt: real, trig: Trig)
      modifies this`vx, this`vy
      ensures vx == Pursued(old(vx), targetX - x, trig.Hypot(targetX - x, targetY - y), dt)
      ensures vy == Pursued(old(vy), targetY - y, trig.Hypot(targetX - x, targetY - y), dt)
    {
      var dx := targetX - x;
      var dy := targetY - y;
      var distance := trig.Hypot(dx, dy);
      if distance > ArrivalRadius {
        var speed := EnemySpeed * dt;
        vx := vx + dx / distance * speed;
        vy := vy + dy / distance * speed;
      }
      vx := vx * EnemyFriction;
      vy := vy * EnemyFriction;
    }

    /** The position half of `update`: one step along the velocity, then the arena clamp. */
    method Move(dt: real)
      modifies this`x, this`y
      ensures x == Advance(old(x), vx, dt, ArenaMinX, ArenaMaxX)
      ensures y == Advance(old(y), vy, dt, ArenaMinY, ArenaMaxY)
      ensures InArena(x, y)
    {
      x := x + vx * dt;
      y := y + vy * dt;
      x := Clamp(ArenaMinX, ArenaMaxX, x);
      y := Clamp(ArenaMinY, ArenaMaxY, y);
    }

    /** `updateAI(deltaTime, player)`: memory, personality and stance, then the handler
        of the current state, then the second advance of the AI timer. */
    method UpdateAI(delta: int, p: PlayerView, now: int, trig: Trig, draws: Draws)
      requires Valid()
      requires Unit(draws.engageDistance)
      modifies this`patterns, this`lastPlayerX, this`lastPlayerY, this`playerVelX, this`playerVelY,
               this`personality, this`currentStance, this`lastStanceChange,
               this`aiState, this`targetX, this`targetY, this`aiTimer, this`strafingDirection
      ensures Valid()
      ensures MindState() == AIStep(old(MindState()), x, y, health, delta, p, now, trig, draws)
    {
      var distanceToPlayer := trig.Hypot(x - p.x, y - p.y);
      Observe(p, now, draws.stance);
      Decide(p, distanceToPlayer, trig, draws);
      aiTimer := aiTimer + delta;
    }

    /** The first half of `updateAI`: `updateCombatMemory`, `adaptPersonality` and
        `updateStance`, in that order. */
    method Observe(p: PlayerView, now: int, stanceDraw: real)
      requires Valid()
      modifies this`patterns, this`lastPlayerX, this`lastPlayerY, this`playerVelX, this`playerVelY,
               this`personality, this`currentStance, this`lastStanceChange
      ensures Valid()
      ensures patterns == Recorded(old(patterns), Observation(p.x, p.y, p.x - old(lastPlayerX), p.y - old(lastPlayerY), now))
      ensures lastPlayerX == p.x && lastPlayerY == p.y
      ensures playerVelX == p.x - old(lastPlayerX) && playerVelY == p.y - old(lastPlayerY)
      ensures personality == Adapted(old(personality), EnemyHealthPercent(health), PlayerHealthPercent(p.health), 0, 0)
      ensures StanceDue(aiTimer, old(lastStanceChange)) ==>
                currentStance == ChooseStance(EnemyHealthPercent(health), PlayerHealthPercent(p.health), stanceDraw) &&
                lastStanceChange == aiTimer
      ensures !StanceDue(aiTimer, old(lastStanceChange)) ==>
                currentStance == old(currentStance) && lastStanceChange == old(lastStanceChange)
      ensures MindState() == Observed(old(MindState()), health, p, now, stanceDraw)
    {
      UpdateCombatMemory(p, now);
      AdaptPersonality(p);
      UpdateStance(p, stanceDraw);
    }

    /** The second half of `updateAI`: the handler of the current state. */
    method Decide(p: PlayerView, distanceToPlayer: real, trig: Trig, draws: Draws)
      requires strafingDirection == 1 || strafingDirection == -1
      requires Unit(draws.engageDistance)
      modifies this`aiState, this`targetX, this`targetY, this`aiTimer, this`strafingDirection
      ensures strafingDirection == 1 || strafingDirection == -1
      ensures aiState == NextAIState(old(aiState), distanceToPlayer, health, maxHealth,
                                     old(aiTimer), draws.stateSwitch, draws.flankOrCounter)
      ensures aiTimer == (if old(aiState) == Patrol && PatrolRetargets(distanceToPlayer, old(aiTimer)) then 0 else old(aiTimer))
      ensures (old(aiState) == Patrol || old(aiState) == Retreat || old(aiState) == Flank) &&
              old(InTargetBox(targetX, targetY)) ==>
                InTargetBox(targetX, targetY)
      ensures old(aiState) != Engage && old(aiState) != Flank ==> strafingDirection == old(strafingDirection)
      ensures MindState() == Decision(old(MindState()), x, y, health, distanceToPlayer, p, trig, draws)
    {
      DecisionFacts(MindState(), x, y, health, distanceToPlayer, p, trig, draws);
      match aiState {
        case Patrol => HandlePatrolState(p, distanceToPlayer, trig, draws.patrolDistance);
        case Engage => HandleEngageState(p, distanceToPlayer, trig, draws);
        case Retreat => HandleRetreatState(p, distanceToPlayer, trig);
        case Flank => HandleFlankState(p, distanceToPlayer, trig);
        case Counter => HandleCounterState(p, distanceToPlayer, trig);
      }
    }

    /** `updateCombatMemory(player)`: the player's movement since the last frame, its
        position, and one more entry in the bounded pattern buffer. */
    method UpdateCombatMemory(p: PlayerView, now: int)
      modifies this`patterns, this`lastPlayerX, this`lastPlayerY, this`playerVelX, this`playerVelY
      ensures playerVelX == p.x - old(lastPlayerX) && playerVelY == p.y - old(lastPlayerY)
      ensures lastPlayerX == p.x && lastPlayerY == p.y
      ensures patterns == Recorded(old(patterns), Observation(p.x, p.y, playerVelX, playerVelY, now))
      ensures old(|patterns|) <= PatternCapacity ==> |patterns| <= PatternCapacity
    {
      playerVelX := p.x - lastPlayerX;
      playerVelY := p.y - lastPlayerY;
      lastPlayerX, lastPlayerY := p.x, p.y;
      if |patterns| > 10 {
        patterns := patterns[1..];
      }
      patterns := patterns + [Observation(p.x, p.y, playerVelX, playerVelY, now)];
    }

    /** `adaptPersonality(player)`. */
    method AdaptPersonality(p: PlayerView)
      modifies this`personality
      ensures personality ==
                Adapted(old(personality), EnemyHealthPercent(health), PlayerHealthPercent(p.health), successfulDefenses, failedDefenses)
    {
      var myHealthPercent := EnemyHealthPercent(health);
      var playerHealthPercent := PlayerHealthPercent(p.health);
      if myHealthPercent < 0.3 {
        personality := personality.(aggression := Max(0.2, personality.aggression - 0.1),
                                    caution := Min(0.9, personality.caution + 0.1));
      } else if playerHealthPercent < 0.3 {
        personality := personality.(aggression := Min(0.95, personality.aggression + 0.1),
                                    caution := Max(0.1, personality.caution - 0.1));
      }
      var successRate := SuccessRate(successfulDefenses, failedDefenses);
      if successRate > 0.7 {
        personality := personality.(aggression := personality.aggression + 0.05);
      } else if successRate < 0.3 {
        personality := personality.(caution := personality.caution + 0.05);
      }
    }

    /** `updateStance(player, deltaTime)`: every three seconds of AI time, re-pick the
        stance from the two health ratios and one draw. */
    method UpdateStance(p: PlayerView, random: real)
      modifies this`currentStance, this`lastStanceChange
      ensures StanceDue(aiTimer, old(lastStanceChange)) ==>
                currentStance == ChooseStance(EnemyHealthPercent(health), PlayerHealthPercent(p.health), random) &&
                lastStanceChange == aiTimer
      ensures !StanceDue(aiTimer, old(lastStanceChange)) ==>
                currentStance == old(currentStance) && lastStanceChange == old(lastStanceChange)
    {
      if aiTimer - lastStanceChange > StanceInterval {
        var myHealthPercent := EnemyHealthPercent(health);
        var playerHealthPercent := PlayerHealthPercent(p.health);
        if myHealthPercent < 0.4 {
          currentStance := Defensive;
        } else if playerHealthPercent < 0.4 {
          currentStance := Aggressive;
        } else if random < 0.4 {
          currentStance := Balanced;
        } else if random < 0.7 {
          currentStance := Aggressive;
        } else {
          currentStance := Defensive;
        }
        lastStanceChange := aiTimer;
      }
    }

    /** `handlePatrolState`: engage a player within range; otherwise, every three
        seconds of AI time, pick a point towards the player inside the target box and
        restart the AI timer. */
    method HandlePatrolState(p: PlayerView, distanceToPlayer: real, trig: Trig, patrolDraw: real)
      modifies this`aiState, this`targetX, this`targetY, this`aiTimer
      ensures aiState == NextAIState(Patrol, distanceToPlayer, health, maxHealth, old(aiTimer), 0.0, 0.0)
      ensures PatrolRetargets(distanceToPlayer, old(aiTimer)) ==>
                var angle := trig.Atan2(p.y - y, p.x - x);
                aiTimer == 0 && InTargetBox(targetX, targetY) &&
                targetX == Clamp(TargetMinX, TargetMaxX, Toward(x, trig.Cos(angle), PatrolDistance(patrolDraw))) &&
                targetY == Clamp(TargetMinY, TargetMaxY, Toward(y, trig.Sin(angle), PatrolDistance(patrolDraw)))
      ensures !PatrolRetargets(distanceToPlayer, old(aiTimer)) ==>
                aiTimer == old(aiTimer) && targetX == old(targetX) && targetY == old(targetY)
      ensures MindState() == Patrolled(old(MindState()), x, y, distanceToPlayer, p, trig, patrolDraw)
    {
      if distanceToPlayer < EngageRange {
        aiState := Engage;
        return;
      }
      aiState := Patrol;
      if aiTimer > PatrolRetarget {
        var angle := trig.Atan2(p.y - y, p.x - x);
        var patrolDistance := PatrolDistance(patrolDraw);
        targetX := Toward(x, trig.Cos(angle), patrolDistance);
        targetY := Toward(y, trig.Sin(angle), patrolDistance);
        targetX := Clamp(TargetMinX, TargetMaxX, targetX);
        targetY := Clamp(TargetMinY, TargetMaxY, targetY);
        aiTimer := 0;
      }
    }

    /** `handleEngageState`: give up on a distant player, retreat when low, otherwise
        keep the stance's distance from where the player is heading (or strafe when
        already there), and now and then switch to flanking or countering. */
    method HandleEngageState(p: PlayerView, distanceToPlayer: real, trig: Trig, draws: Draws)
      requires strafingDirection == 1 || strafingDirection == -1
      requires Unit(draws.engageDistance)
      modifies this`aiState, this`targetX, this`targetY, this`strafingDirection
      ensures aiState == NextAIState(Engage, distanceToPlayer, health, maxHealth, aiTimer, draws.stateSwitch, draws.flankOrCounter)
      ensures strafingDirection == 1 || strafingDirection == -1
      ensures distanceToPlayer > DisengageRange || health < maxHealth * 0.3 ==>
                targetX == old(targetX) && targetY == old(targetY) && strafingDirection == old(strafingDirection)
      ensures distanceToPlayer <= DisengageRange && health >= maxHealth * 0.3 ==>
                var angle := trig.Atan2(y - p.y, x - p.x);
                var targetDistance := StanceDistance(currentStance, draws.engageDistance);
                if OffRange(distanceToPlayer, targetDistance) then
                  targetX == Toward(Toward(p.x, playerVelX, personality.prediction), trig.Cos(angle), targetDistance) &&
                  targetY == Toward(Toward(p.y, playerVelY, personality.prediction), trig.Sin(angle), targetDistance) &&
                  strafingDirection == old(strafingDirection)
                else
                  var strafeAngle := angle + HalfPi * old(strafingDirection) as real;
                  targetX == Toward(x, trig.Cos(strafeAngle), StrafeDistance(draws.strafeDistance)) &&
                  targetY == Toward(y, trig.Sin(strafeAngle), StrafeDistance(draws.strafeDistance)) &&
                  strafingDirection == (if draws.strafeFlip < 0.1 then -old(strafingDirection) else old(strafingDirection))
      ensures MindState() == Engaged(old(MindState()), x, y, health, distanceToPlayer, p, trig, draws)
    {
      if distanceToPlayer > DisengageRange {
        aiState := Patrol;
        return;
      }
      if health < maxHealth * 0.3 {
        aiState := Retreat;
        return;
      }
      Position(p, distanceToPlayer, trig, draws);
    }

    /** The positioning half of `handleEngageState`: the target point for the stance's
        distance, or a strafing step, then the 2% switch to flanking or countering. */
    method Position(p: PlayerView, distanceToPlayer: real, trig: Trig, draws: Draws)
      requires strafingDirection == 1 || strafingDirection == -1
      requires Unit(draws.engageDistance)
      modifies this`aiState, this`targetX, this`targetY, this`strafingDirection
      ensures aiState == (if draws.stateSwitch < 0.02 then (if draws.flankOrCounter > 0.5 then Flank else Counter) else Engage)
      ensures strafingDirection == 1 || strafingDirection == -1
      ensures var angle := trig.Atan2(y - p.y, x - p.x);
              var targetDistance := StanceDistance(currentStance, draws.engageDistance);
              if OffRange(distanceToPlayer, targetDistance) then
                targetX == Toward(Toward(p.x, playerVelX, personality.prediction), trig.Cos(angle), targetDistance) &&
                targetY == Toward(Toward(p.y, playerVelY, personality.prediction), trig.Sin(angle), targetDistance) &&
                strafingDirection == old(strafingDirection)
              else
                var strafeAngle := angle + HalfPi * old(strafingDirection) as real;
                targetX == Toward(x, trig.Cos(strafeAngle), StrafeDistance(draws.strafeDistance)) &&
                targetY == Toward(y, trig.Sin(strafeAngle), StrafeDistance(draws.strafeDistance)) &&
                strafingDirection == (if draws.strafeFlip < 0.1 then -old(strafingDirection) else old(strafingDirection))
      ensures MindState() == Positioned(old(MindState()), x, y, distanceToPlayer, p, trig, draws)
    {
      var angle := trig.Atan2(y - p.y, x - p.x);
      var targetDistance := StanceDistance(currentStance, draws.engageDistance);
      var predictedX := Toward(p.x, playerVelX, personality.prediction);
      var predictedY := Toward(p.y, playerVelY, personality.prediction);
      if OffRange(distanceToPlayer, targetDistance) {
        targetX := Toward(predictedX, trig.Cos(angle), targetDistance);
        targetY := Toward(predictedY, trig.Sin(angle), targetDistance);
      } else {
        PerformTacticalMovement(angle, trig, draws.strafeDistance, draws.strafeFlip);
      }
      aiState := if draws.stateSwitch < 0.02 then (if draws.flankOrCounter > 0.5 then Flank else Counter) else Engage;
    }

    /** `handleRetreatState`: resume engaging once above half health; otherwise head for
        a point away from the player inside the target box, and resume engaging anyway
        once the player is far enough. */
    method HandleRetreatState(p: PlayerView, distanceToPlayer: real, trig: Trig)
      modifies this`aiState, this`targetX, this`targetY
      ensures aiState == NextAIState(Retreat, distanceToPlayer, health, maxHealth, aiTimer, 0.0, 0.0)
      ensures health > maxHealth * 0.5 ==> targetX == old(targetX) && targetY == old(targetY)
      ensures health <= maxHealth * 0.5 ==>
                var angle := trig.Atan2(y - p.y, x - p.x);
                InTargetBox(targetX, targetY) &&
                targetX == Clamp(TargetMinX, TargetMaxX, Toward(x, trig.Cos(angle), RetreatDistance)) &&
                targetY == Clamp(TargetMinY, TargetMaxY, Toward(y, trig.Sin(angle), RetreatDistance))
      ensures MindState() == Retreated(old(MindState()), x, y, health, distanceToPlayer, p, trig)
    {
      if health > maxHealth * 0.5 {
        aiState := Engage;
        return;
      }
      var angle := trig.Atan2(y - p.y, x - p.x);
      targetX := Toward(x, trig.Cos(angle), RetreatDistance);
      targetY := Toward(y, trig.Sin(angle), RetreatDistance);
      targetX := Clamp(TargetMinX, TargetMaxX, targetX);
      targetY := Clamp(TargetMinY, TargetMaxY, targetY);
      aiState := if distanceToPlayer > RetreatEscapeRange then Engage else Retreat;
    }

    /** `handleFlankState`: side-step around the player a quarter turn in the strafing
        direction, inside the target box; after two seconds of AI time go back to
        engaging and reverse the strafing direction. */
    method HandleFlankState(p: PlayerView, distanceToPlayer: real, trig: Trig)
      requires strafingDirection == 1 || strafingDirection == -1
      modifies this`aiState, this`targetX, this`targetY, this`strafingDirection
      ensures aiState == NextAIState(Flank, distanceToPlayer, health, maxHealth, aiTimer, 0.0, 0.0)
      ensures strafingDirection == 1 || strafingDirection == -1
      ensures distanceToPlayer > ManoeuvreRange ==>
                targetX == old(targetX) && targetY == old(targetY) && strafingDirection == old(strafingDirection)
      ensures distanceToPlayer <= ManoeuvreRange ==>
                var flankAngle := trig.Atan2(y - p.y, x - p.x) + HalfPi * old(strafingDirection) as real;
                InTargetBox(targetX, targetY) &&
                targetX == Clamp(TargetMinX, TargetMaxX, Toward(p.x, trig.Cos(flankAngle), FlankDistance)) &&
                targetY == Clamp(TargetMinY, TargetMaxY, Toward(p.y, trig.Sin(flankAngle), FlankDistance)) &&
                strafingDirection == (if aiTimer > FlankTime then -old(strafingDirection) else old(strafingDirection))
      ensures MindState() == Flanked(old(MindState()), x, y, distanceToPlayer, p, trig)
    {
      if distanceToPlayer > ManoeuvreRange {
        aiState := Engage;
        return;
      }
      var angle := trig.Atan2(y - p.y, x - p.x);
      var flankAngle := angle + HalfPi * strafingDirection as real;
      targetX := Toward(p.x, trig.Cos(flankAngle), FlankDistance);
      targetY := Toward(p.y, trig.Sin(flankAngle), FlankDistance);
      targetX := Clamp(TargetMinX, TargetMaxX, targetX);
      targetY := Clamp(TargetMinY, TargetMaxY, targetY);
      if aiTimer > FlankTime {
        aiState := Engage;
        strafingDirection := -strafingDirection;
      } else {
        aiState := Flank;
      }
    }

    /** `handleCounterState`: head for a point just beyond where the player will be two
        frames from now (not clamped), and after 1.5 seconds of AI time go back to
        engaging. */
    method HandleCounterState(p: PlayerView, distanceToPlayer: real, trig: Trig)
      modifies this`aiState, this`targetX, this`targetY
      ensures aiState == NextAIState(Counter, distanceToPlayer, health, maxHealth, aiTimer, 0.0, 0.0)
      ensures distanceToPlayer > ManoeuvreRange ==> targetX == old(targetX) && targetY == old(targetY)
      ensures distanceToPlayer <= ManoeuvreRange ==>
                var angle := trig.Atan2(y - p.y, x - p.x);
                targetX == Toward(Toward(p.x, playerVelX, CounterLead), trig.Cos(angle), CounterDistance) &&
                targetY == Toward(Toward(p.y, playerVelY, CounterLead), trig.Sin(angle), CounterDistance)
      ensures MindState() == Countered(old(MindState()), x, y, distanceToPlayer, p, trig)
    {
      if distanceToPlayer > ManoeuvreRange {
        aiState := Engage;
        return;
      }
      var angle := trig.Atan2(y - p.y, x - p.x);
      var predictedX := Toward(p.x, playerVelX, CounterLead);
      var predictedY := Toward(p.y, playerVelY, CounterLead);
      targetX := Toward(predictedX, trig.Cos(angle), CounterDistance);
      targetY := Toward(predictedY, trig.Sin(angle), CounterDistance);
      aiState := if aiTimer > CounterTime then Engage else Counter;
    }

    /** `performTacticalMovement(player, angle)`: a short step a quarter turn from
        `angle` in the strafing direction, reversing that direction one time in ten. */
    method PerformTacticalMovement(angle: real, trig: Trig, strafeDraw: real, flipDraw: real)
      requires strafingDirection == 1 || strafingDirection == -1
      modifies this`targetX, this`targetY, this`strafingDirection
      ensures strafingDirection == 1 || strafingDirection == -1
      ensures strafingDirection == (if flipDraw < 0.1 then -old(strafingDirection) else old(strafingDirection))
      ensures var strafeAngle := angle + HalfPi * old(strafingDirection) as real;
              targetX == Toward(x, trig.Cos(strafeAngle), StrafeDistance(strafeDraw)) &&
              targetY == Toward(y, trig.Sin(strafeAngle), StrafeDistance(strafeDraw))
      ensures MindState() == Strafed(old(MindState()), x, y, angle, trig, strafeDraw, flipDraw)
    {
      var strafeAngle := angle + HalfPi * strafingDirection as real;
      var strafeDistance := StrafeDistance(strafeDraw);
      targetX := Toward(x, trig.Cos(strafeAngle), strafeDistance);
      targetY := Toward(y, trig.Sin(strafeAngle), strafeDistance);
      if flipDraw < 0.1 {
        strafingDirection := -strafingDirection;
      }
    }

    /** `updateLightsaberAI(deltaTime, player)`: the blade is always lit and ends up
        aimed at the player's actual position (the predicted angle set first is
        overwritten by the blade's own update). */
    method UpdateLightsaberAI(p: PlayerView, trig: Trig)
      modifies lightsaber
      ensures lightsaber.State() == Aimed(old(lightsaber.State()).(isActive := true), x, y, p.x, p.y, trig)
    {
      var predictedX := Toward(p.x, playerVelX, personality.prediction);
      var predictedY := Toward(p.y, playerVelY, personality.prediction);
      lightsaber.angle := trig.Atan2(predictedY - y, predictedX - x);
      lightsaber.isActive := true;
      lightsaber.Update(x, y, p.x, p.y, trig);
    }

    /** `updateForcePushAI(deltaTime, player)`: fire the push when one of the three
        triggers holds and it is off cooldown, then remember the player's health. */
    method UpdateForcePushAI(p: PlayerView, trig: Trig)
      requires Valid()
      modifies this`lastPlayerDamage, forcePush
      ensures Valid()
      ensures forcePush.State() ==
                if PushTriggered(old(lastPlayerDamage) - p.health, EnemyHealthPercent(health), trig.Hypot(x - p.x, y - p.y))
                then Activated(old(forcePush.State())) else old(forcePush.State())
      ensures lastPlayerDamage == p.health
    {
      var distanceToPlayer := trig.Hypot(x - p.x, y - p.y);
      var playerDamage := lastPlayerDamage - p.health;
      var myHealthPercent := EnemyHealthPercent(health);
      var shouldForcePush := false;
      if playerDamage > 25.0 {
        shouldForcePush := true;
      }
      if myHealthPercent < 0.3 && distanceToPlayer < 100.0 {
        shouldForcePush := true;
      }
      if playerDamage > 15.0 && myHealthPercent < 0.5 {
        shouldForcePush := true;
      }
      if shouldForcePush && forcePush.CanUse() {
        forcePush.Activate();
      }
      lastPlayerDamage := p.health;
    }
  }
}
