/** The decision rules of the opponent's AI (`Enemy`, game.js) as functions of what it
    observes: the five-state machine, stance selection, personality adaptation, the
    bounded buffer of observed player movement, and the force-push trigger. The
    `Enemy` class applies these rules to its fields in place. */
module Tactics {
  import opened Geometry

  datatype AIState = Patrol | Engage | Retreat | Flank | Counter
  datatype Stance = Balanced | Aggressive | Defensive

  /** `personality`: four traits, nudged every frame by `adaptPersonality`. */
  datatype Personality = Personality(aggression: real, caution: real, prediction: real, adaptability: real)

  /** One entry of `combatMemory.playerAttackPatterns`. */
  datatype Observation = Observation(x: real, y: real, vx: real, vy: real, timestamp: int)

  /** The `Math.random()` draws of one frame of the AI, one per call site. A site
      that is not reached in a frame leaves its draw unused. */
  datatype Draws = Draws(
    stance: real,          // updateStance
    patrolDistance: real,  // handlePatrolState
    engageDistance: real,  // handleEngageState, the stance's target distance
    strafeDistance: real,  // performTacticalMovement
    strafeFlip: real,      // performTacticalMovement, the 10% direction change
    stateSwitch: real,     // handleEngageState, the 2% switch to flank or counter
    flankOrCounter: real)  // handleEngageState, which of the two

  const EngageRange: real := 250.0
  const DisengageRange: real := 350.0
  const RetreatEscapeRange: real := 400.0
  const ManoeuvreRange: real := 300.0
  const FlankTime: int := 2000
  const CounterTime: int := 1500
  const PatrolRetarget: int := 3000
  const StanceInterval: int := 3000

  /** The state after one frame of the state machine (`handlePatrolState` ...
      `handleCounterState`), given the distance to the player, the opponent's own
      health, its AI timer as the handler sees it, and the two engage draws. */
  function NextAIState(s: AIState, distance: real, health: real, maxHealth: real, aiTimer: int,
                       stateSwitch: real, flankOrCounter: real): (r: AIState)
    ensures s == Patrol ==> (r == Engage <==> distance < EngageRange) && (r != Engage ==> r == Patrol)
    ensures s == Engage && distance > DisengageRange ==> r == Patrol
    ensures s == Engage && distance <= DisengageRange && health < maxHealth * 0.3 ==> r == Retreat
    ensures s == Engage && distance <= DisengageRange && health >= maxHealth * 0.3 ==>
              (r == Engage <==> stateSwitch >= 0.02) && r != Patrol && r != Retreat &&
              (r == Flank <==> stateSwitch < 0.02 && flankOrCounter > 0.5)
    ensures s == Retreat ==> (r == Engage <==> health > maxHealth * 0.5 || distance > RetreatEscapeRange) &&
                             (r != Engage ==> r == Retreat)
    ensures s == Flank ==> (r == Engage <==> distance > ManoeuvreRange || aiTimer > FlankTime) &&
                           (r != Engage ==> r == Flank)
    ensures s == Counter ==> (r == Engage <==> distance > ManoeuvreRange || aiTimer > CounterTime) &&
                             (r != Engage ==> r == Counter)
    ensures r == Patrol ==> s == Patrol || s == Engage
    ensures r == Retreat ==> s == Retreat || s == Engage
    ensures r == Flank ==> s == Flank || s == Engage
    ensures r == Counter ==> s == Counter || s == Engage
  {
    match s
    case Patrol =>
      if distance < EngageRange then Engage else Patrol
    case Engage =>
      if distance > DisengageRange then Patrol
      else if health < maxHealth * 0.3 then Retreat
      else if stateSwitch < 0.02 then (if flankOrCounter > 0.5 then Flank else Counter)
      else Engage
    case Retreat =>
      if health > maxHealth * 0.5 then Engage
      else if distance > RetreatEscapeRange then Engage
      else Retreat
    case Flank =>
      if distance > ManoeuvreRange then Engage
      else if aiTimer > FlankTime then Engage
      else Flank
    case Counter =>
      if distance > ManoeuvreRange then Engage
      else if aiTimer > CounterTime then Engage
      else Counter
  }

  /** What the state machine sees in one frame. */
  datatype Sensed = Sensed(distance: real, health: real, maxHealth: real, aiTimer: int,
                           stateSwitch: real, flankOrCounter: real)

  /** Whether a patrolling opponent picks a new target point this frame (and restarts
      its AI timer): the player is out of engage range and three seconds have passed. */
  predicate PatrolRetargets(distance: real, aiTimer: int)
  {
    distance >= EngageRange && aiTimer > PatrolRetarget
  }

  /** The state after a run of frames. */
  function StateAfter(s: AIState, frames: seq<Sensed>): AIState
    decreases |frames|
  {
    if frames == [] then s
    else
      var f := frames[0];
      StateAfter(NextAIState(s, f.distance, f.health, f.maxHealth, f.aiTimer, f.stateSwitch, f.flankOrCounter), frames[1..])
  }

  /** A patrolling opponent that never comes within engage range keeps patrolling. */
  lemma {:induction false} FarPlayerKeepsPatrol(frames: seq<Sensed>)
    requires forall i :: 0 <= i < |frames| ==> frames[i].distance >= EngageRange
    ensures StateAfter(Patrol, frames) == Patrol
    decreases |frames|
  {
    if frames != [] {
      var rest := frames[1..];
      assert forall i :: 0 <= i < |rest| ==> rest[i] == frames[i + 1];
      FarPlayerKeepsPatrol(rest);
    }
  }

  /** Retreat is reached only through a frame in which the opponent's health is below
      30%: an opponent that is not retreating and stays at or above 30% never does. */
  lemma {:induction false} HealthyNeverRetreats(s: AIState, frames: seq<Sensed>)
    requires s != Retreat
    requires forall i :: 0 <= i < |frames| ==> frames[i].health >= frames[i].maxHealth * 0.3
    ensures StateAfter(s, frames) != Retreat
    decreases |frames|
  {
    if frames != [] {
      var f := frames[0];
      var rest := frames[1..];
      assert forall i :: 0 <= i < |rest| ==> rest[i] == frames[i + 1];
      HealthyNeverRetreats(NextAIState(s, f.distance, f.health, f.maxHealth, f.aiTimer, f.stateSwitch, f.flankOrCounter), rest);
    }
  }

  /** `updateStance`'s re-selection, made when more than three seconds of AI time
      have passed since the last one. */
  predicate StanceDue(aiTimer: int, lastStanceChange: int)
  {
    aiTimer - lastStanceChange > StanceInterval
  }

  /** The stance `updateStance` picks: defensive when the opponent itself is low,
      otherwise aggressive when the player is low, otherwise a draw that gives
      balanced, aggressive and defensive 40%, 30% and 30% of the time. */
  function ChooseStance(myHealthPercent: real, playerHealthPercent: real, random: real): (r: Stance)
    ensures myHealthPercent < 0.4 ==> r == Defensive
    ensures myHealthPercent >= 0.4 && playerHealthPercent < 0.4 ==> r == Aggressive
    ensures myHealthPercent >= 0.4 && playerHealthPercent >= 0.4 ==>
              (r == Balanced <==> random < 0.4) &&
              (r == Aggressive <==> 0.4 <= random < 0.7) &&
              (r == Defensive <==> random >= 0.7)
    ensures r == Balanced ==> myHealthPercent >= 0.4 && playerHealthPercent >= 0.4
  {
    if myHealthPercent < 0.4 then Defensive
    else if playerHealthPercent < 0.4 then Aggressive
    else if random < 0.4 then Balanced
    else if random < 0.7 then Aggressive
    else Defensive
  }

  /** `successfulDefenses / max(1, successfulDefenses + failedDefenses)`. */
  function SuccessRate(successes: nat, failures: nat): (r: real)
    ensures 0.0 <= r <= 1.0
    ensures successes == 0 ==> r == 0.0
  {
    successes as real / Max(1.0, (successes + failures) as real)
  }

  /** `adaptPersonality`: the traits after one frame. Aggression and caution move
      against each other by 0.1 when either side is below 30% health (the opponent's
      own health first), within the bands [0.2, 0.95] and [0.1, 0.9]; then, outside
      those bands, a high defence success rate adds 0.05 aggression and a low one adds
      0.05 caution. */
  function Adapted(p: Personality, myHealthPercent: real, playerHealthPercent: real,
                   successes: nat, failures: nat): (r: Personality)
    ensures r.prediction == p.prediction && r.adaptability == p.adaptability
    ensures successes == 0 && 0.2 <= p.aggression <= 0.95 ==> 0.2 <= r.aggression <= 0.95
    ensures p.caution >= 0.1 ==> r.caution >= 0.1
    ensures myHealthPercent < 0.3 && SuccessRate(successes, failures) <= 0.7 && p.aggression >= 0.2 ==>
              r.aggression <= p.aggression
    ensures myHealthPercent < 0.3 && p.caution <= 0.9 ==> r.caution >= p.caution
    ensures myHealthPercent >= 0.3 && playerHealthPercent < 0.3 && p.aggression <= 0.95 ==>
              r.aggression >= p.aggression
    ensures myHealthPercent >= 0.3 && playerHealthPercent < 0.3 && p.caution >= 0.1 &&
            SuccessRate(successes, failures) >= 0.3 ==>
              r.caution <= p.caution
    ensures successes == 0 && myHealthPercent >= 0.3 && playerHealthPercent >= 0.3 ==>
              r == p.(caution := p.caution + 0.05)
  {
    var q :=
      if myHealthPercent < 0.3 then
        p.(aggression := Max(0.2, p.aggression - 0.1), caution := Min(0.9, p.caution + 0.1))
      else if playerHealthPercent < 0.3 then
        p.(aggression := Min(0.95, p.aggression + 0.1), caution := Max(0.1, p.caution - 0.1))
      else p;
    var rate := SuccessRate(successes, failures);
    if rate > 0.7 then q.(aggression := q.aggression + 0.05)
    else if rate < 0.3 then q.(caution := q.caution + 0.05)
    else q
  }

  /** `n` frames of adaptation at fixed health ratios, with the defence counters at
      zero as the game leaves them. */
  function AdaptedFor(p: Personality, n: nat, myHealthPercent: real, playerHealthPercent: real): Personality
    decreases n
  {
    if n == 0 then p else AdaptedFor(Adapted(p, myHealthPercent, playerHealthPercent, 0, 0), n - 1, myHealthPercent, playerHealthPercent)
  }

  /** With nobody below 30% health, caution rises by 0.05 every frame without bound,
      because the zero defence counters give a success rate of 0. */
  lemma {:induction false} CautionDrifts(p: Personality, n: nat, myHealthPercent: real, playerHealthPercent: real)
    requires myHealthPercent >= 0.3 && playerHealthPercent >= 0.3
    ensures AdaptedFor(p, n, myHealthPercent, playerHealthPercent) == p.(caution := p.caution + 0.05 * n as real)
    decreases n
  {
    if n > 0 {
      var q := Adapted(p, myHealthPercent, playerHealthPercent, 0, 0);
      CautionDrifts(q, n - 1, myHealthPercent, playerHealthPercent);
    }
  }

  /** Caution starts at 0.3 or more, so it leaves [0, 1] within 15 calm frames. */
  lemma CautionLeavesUnitInterval(p: Personality, myHealthPercent: real, playerHealthPercent: real)
    requires p.caution >= 0.3
    requires myHealthPercent >= 0.3 && playerHealthPercent >= 0.3
    ensures AdaptedFor(p, 15, myHealthPercent, playerHealthPercent).caution > 1.0
  {
    CautionDrifts(p, 15, myHealthPercent, playerHealthPercent);
  }

  /** The buffer drops its oldest entry only when it holds more than 10 before the
      push, so it settles at 11 entries. */
  const PatternCapacity: nat := 11

  /** The last `n` elements of `s` (all of it when it is shorter). */
  function Newest<T>(s: seq<T>, n: nat): (r: seq<T>)
    ensures |r| == if |s| <= n then |s| else n
  {
    if |s| <= n then s else s[|s| - n..]
  }

  /** `updateCombatMemory`'s shift-then-push on `playerAttackPatterns`. */
  function Recorded(patterns: seq<Observation>, entry: Observation): (r: seq<Observation>)
    ensures |r| > 0 && r[|r| - 1] == entry
    ensures |patterns| <= PatternCapacity ==> r == Newest(patterns + [entry], PatternCapacity)
  {
    (if |patterns| > 10 then patterns[1..] else patterns) + [entry]
  }

  /** The buffer after a run of frames, one entry pushed per frame. */
  function RecordedAll(patterns: seq<Observation>, entries: seq<Observation>): seq<Observation>
    decreases |entries|
  {
    if entries == [] then patterns else RecordedAll(Recorded(patterns, entries[0]), entries[1..])
  }

  /** Keeping the newest `n` is insensitive to an earlier truncation to the newest `n`. */
  lemma NewestAbsorbs<T>(a: seq<T>, b: seq<T>, n: nat)
    ensures Newest(Newest(a, n) + b, n) == Newest(a + b, n)
  {
    if |a| > n {
      var a' := a[|a| - n..];
      var lhs := Newest(a' + b, n);
      var rhs := Newest(a + b, n);
      assert |lhs| == |rhs| == n;
      forall i | 0 <= i < n ensures lhs[i] == rhs[i] {
        assert lhs[i] == (a' + b)[|b| + i];
        assert rhs[i] == (a + b)[|a| + |b| - n + i];
      }
    }
  }

  /** Whatever the frames, the buffer holds exactly the newest 11 observations (all of
      them while there are fewer), oldest first. */
  lemma {:induction false} BufferKeepsNewest(patterns: seq<Observation>, entries: seq<Observation>)
    requires |patterns| <= PatternCapacity
    ensures RecordedAll(patterns, entries) == Newest(patterns + entries, PatternCapacity)
    decreases |entries|
  {
    if entries == [] {
      assert patterns + entries == patterns;
    } else {
      var e := entries[0];
      var rest := entries[1..];
      var next := Recorded(patterns, e);
      BufferKeepsNewest(next, rest);
      NewestAbsorbs(patterns + [e], rest, PatternCapacity);
      assert patterns + [e] + rest == patterns + entries;
    }
  }

  /** `updateForcePushAI`'s trigger: a drop of more than 25 in the player's health since
      the last frame, or the opponent below 30% health within 100 of the player, or a
      drop of more than 15 while the opponent is below 50%. */
  predicate PushTriggered(playerDamage: real, myHealthPercent: real, distance: real)
  {
    playerDamage > 25.0 ||
    (myHealthPercent < 0.3 && distance < 100.0) ||
    (playerDamage > 15.0 && myHealthPercent < 0.5)
  }

  /** When the player's health fell by less than 10 since the last frame, only the
      close-quarters rule can fire the push. */
  lemma SmallDropLeavesCloseQuarters(playerDamage: real, myHealthPercent: real, distance: real)
    requires playerDamage < 10.0
    ensures PushTriggered(playerDamage, myHealthPercent, distance) <==> myHealthPercent < 0.3 && distance < 100.0
  {
  }
}
