/** Health and the damage gate that `Player` and `Enemy` implement identically
    (`takeDamage`, `canTakeDamage`, `isAlive`, game.js). */
module Vitality {
  import opened Geometry

  /** Milliseconds after a hit during which no further hit lands. */
  const DamageCooldown: int := 100

  /** `Math.max(0, health - damage)`: the health left after a hit. */
  function AfterDamage(health: real, damage: real): (r: real)
    ensures r >= 0.0
    ensures r == 0.0 || r == health - damage
    ensures health - damage >= 0.0 ==> r == health - damage
    ensures damage >= 0.0 && health >= 0.0 ==> r <= health
  {
    Max(0.0, health - damage)
  }

  /** `canTakeDamage()`: strictly more than the cooldown has passed since the last hit. */
  predicate GateOpen(now: int, lastDamageTime: int, cooldown: int)
  {
    now - lastDamageTime > cooldown
  }

  /** A hit stamped at `now` keeps the gate shut up to and including `now + cooldown`
      and opens it afterwards. */
  lemma GateAfterHit(now: int, cooldown: int, later: int)
    ensures GateOpen(later, now, cooldown) <==> later > now + cooldown
  {
  }

  /** Health after a sequence of hits, applied in order. */
  function HealthAfter(health: real, damages: seq<real>): real
    decreases |damages|
  {
    if damages == [] then health else HealthAfter(AfterDamage(health, damages[0]), damages[1..])
  }

  /** Any sequence of non-negative hits keeps health in [0, its starting value]. */
  lemma {:induction false} HitsKeepHealthInRange(health: real, maxHealth: real, damages: seq<real>)
    requires 0.0 <= health <= maxHealth
    requires forall i :: 0 <= i < |damages| ==> damages[i] >= 0.0
    ensures 0.0 <= HealthAfter(health, damages) <= health
    decreases |damages|
  {
    if damages != [] {
      var rest := damages[1..];
      assert forall i :: 0 <= i < |rest| ==> rest[i] == damages[i + 1];
      HitsKeepHealthInRange(AfterDamage(health, damages[0]), maxHealth, rest);
    }
  }

  /** A negative hit is not capped at the maximum: it adds its magnitude to the health,
      so a combatant at full health ends above its maximum. */
  lemma NegativeDamageOverheals(health: real, maxHealth: real, damage: real)
    requires 0.0 <= health && damage < 0.0
    ensures AfterDamage(health, damage) == health - damage
    ensures health == maxHealth ==> AfterDamage(health, damage) > maxHealth
  {
  }
}
