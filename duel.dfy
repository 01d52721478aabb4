/** `Game`, game.js: one player against one enemy. Each frame updates whoever is alive
    and then resolves blade hits and force pushes (`checkCollisions`). The keys held,
    the mouse position, the frame's clock reading and its random draws are parameters. */
module Duel {
  import opened Geometry
  import opened ForceAbilities
  import opened Vitality
  import opened Tactics
  import opened Players
  import opened Opponents

  /** A blade tip closer than this to a combatant's centre hits it. */
  const HitRadius: real := 14.0
  /** Speed added to the enemy, away from the player, when the player's blade hits it. */
  const KnockbackForce: real := 800.0
  /** Speed added, away from the pusher, on every frame a force push is active. */
  const PushForce: real := 150.0

  /** The damage of one blade hit, from its draw: between 5 and 10. */
  function HitDamage(random: real): (d: real)
    requires Unit(random)
    ensures 5.0 <= d < 10.0
  {
    random * 5.0 + 5.0
  }

  /** Whether a blade lands: the blade lit, the target alive, the tip nearer than the
      hit radius to the target's centre, and the target's damage gate open. */
  predicate BladeLands(lit: bool, targetAlive: bool, gap: real, lastDamageTime: int, now: int)
  {
    lit && targetAlive && gap < HitRadius && GateOpen(now, lastDamageTime, DamageCooldown)
  }

  /** Both combatants at one moment. */
  datatype World = World(player: PlayerState, enemy: EnemyState)

  /** The first step of `update`: the player takes its own step if alive. */
  function PlayerTurn(w: World, delta: int, keys: set<string>, mouseX: real, mouseY: real, now: int, trig: Trig): World
    requires w.player.dashActive ==> w.player.dashDuration > 0
  {
    if w.player.health > 0.0 then w.(player := Step(w.player, delta, keys, mouseX, mouseY, now, trig)) else w
  }

  /** The second step of `update`: if alive, the enemy thinks and acts, seeing the
      player where the first step left it; the player is left alone. */
  function EnemyTurn(w: World, delta: int, now: int, trig: Trig, draws: Draws): World
    requires Unit(draws.engageDistance)
  {
    if w.enemy.health > 0.0
    then w.(enemy := Stepped(w.enemy, PlayerView(w.player.x, w.player.y, w.player.health), delta, now, trig, draws))
    else w
  }

  /** The player's blade in `checkCollisions`: a hit damages, stamps and flashes the
      enemy, then knocks it back. */
  function EnemyHit(w: World, now: int, trig: Trig, draw: real): World
    requires Unit(draw)
  {
    var pl := w.player;
    var en := w.enemy;
    if BladeLands(pl.blade.isActive, en.health > 0.0, Abs(trig.Hypot(pl.blade.tipX - en.x, pl.blade.tipY - en.y)),
                  en.lastDamageTime, now)
    then
      KnockedBack(w.(enemy := en.(health := AfterDamage(en.health, HitDamage(draw)), lastDamageTime := now,
                                  isFlashing := true, damageFlashTime := now)), trig)
    else w
  }

  /** The knockback of a blade hit: 800 added to the enemy's velocity, directly away
      from the player. */
  function KnockedBack(w: World, trig: Trig): World
  {
    var away := trig.Atan2(w.enemy.y - w.player.y, w.enemy.x - w.player.x);
    w.(enemy := w.enemy.(vx := w.enemy.vx + trig.Cos(away) * KnockbackForce, vy := w.enemy.vy + trig.Sin(away) * KnockbackForce))
  }

  /** The enemy's blade in `checkCollisions`: a hit damages, stamps and flashes the
      player, with no knockback. */
  function PlayerHit(w: World, now: int, trig: Trig, draw: real): World
    requires Unit(draw)
  {
    var pl := w.player;
    var en := w.enemy;
    if BladeLands(en.blade.isActive, pl.health > 0.0, trig.Hypot(en.blade.tipX - pl.x, en.blade.tipY - pl.y),
                  pl.lastDamageTime, now)
    then w.(player := pl.(health := AfterDamage(pl.health, HitDamage(draw)), lastDamageTime := now,
                          isFlashing := true, damageFlashTime := now))
    else w
  }

  /** The player's push in `checkCollisions`: while active, it adds 150 to the enemy's
      velocity, directly away from the player, whatever the distance. */
  function PushedByPlayer(w: World, trig: Trig): World
  {
    if w.player.push.isActive
    then
      var away := trig.Atan2(w.enemy.y - w.player.y, w.enemy.x - w.player.x);
      w.(enemy := w.enemy.(vx := w.enemy.vx + trig.Cos(away) * PushForce, vy := w.enemy.vy + trig.Sin(away) * PushForce))
    else w
  }

  /** The enemy's push in `checkCollisions`: the same, on the player. */
  function PushedByEnemy(w: World, trig: Trig): World
  {
    if w.enemy.push.isActive
    then
      var away := trig.Atan2(w.player.y - w.enemy.y, w.player.x - w.enemy.x);
      w.(player := w.player.(vx := w.player.vx + trig.Cos(away) * PushForce, vy := w.player.vy + trig.Sin(away) * PushForce))
    else w
  }

  /** `checkCollisions()`: nothing unless both are alive; then the player's blade, the
      enemy's blade and the two pushes, in that order. */
  function Collide(w: World, now: int, trig: Trig, enemyHitDraw: real, playerHitDraw: real): World
    requires Unit(enemyHitDraw) && Unit(playerHitDraw)
  {
    if w.player.health > 0.0 && w.enemy.health > 0.0
    then PushedByEnemy(PushedByPlayer(PlayerHit(EnemyHit(w, now, trig, enemyHitDraw), now, trig, playerHitDraw), trig), trig)
    else w
  }

  /** What one frame of `update` is given: the elapsed time, the keys held, the mouse
      position, the clock reading, the trigonometry, and the random draws of the enemy's
      AI and of the two blade hits. */
  datatype Inputs = Inputs(delta: int, keys: set<string>, mouseX: real, mouseY: real, now: int, trig: Trig,
                           draws: Draws, enemyHitDraw: real, playerHitDraw: real)

  /** The draws the frame uses as numbers lie in [0, 1), as `Math.random()` gives them. */
  predicate InRange(i: Inputs)
  {
    Unit(i.draws.engageDistance) && Unit(i.enemyHitDraw) && Unit(i.playerHitDraw)
  }

  /** One whole `update(deltaTime)`: the player's turn, the enemy's turn, then the
      collisions. A dash in progress keeps its positive window. */
  function Frame(w: World, i: Inputs): (r: World)
    requires w.player.dashActive ==> w.player.dashDuration > 0
    requires InRange(i)
    ensures r.player.dashActive ==> r.player.dashDuration > 0
  {
    var w1 := PlayerTurn(w, i.delta, i.keys, i.mouseX, i.mouseY, i.now, i.trig);
    var w2 := EnemyTurn(w1, i.delta, i.now, i.trig, i.draws);
    Collide(w2, i.now, i.trig, i.enemyHitDraw, i.playerHitDraw)
  }

  /** The player has lost less than 10 health since the enemy last looked at it. */
  predicate DropSmall(w: World)
  {
    w.enemy.lastPlayerDamage - w.player.health < 10.0
  }

  /** A frame keeps `DropSmall`. */
  lemma FrameKeepsDropSmall(w: World, i: Inputs)
    requires w.player.dashActive ==> w.player.dashDuration > 0
    requires InRange(i) && DropSmall(w)
    ensures DropSmall(Frame(w, i))
  {
    var w1 := PlayerTurn(w, i.delta, i.keys, i.mouseX, i.mouseY, i.now, i.trig);
    DropSmallAfterEnemyTurn(w1, i.delta, i.now, i.trig, i.draws);
    CollideKeepsDropSmall(EnemyTurn(w1, i.delta, i.now, i.trig, i.draws), i.now, i.trig, i.enemyHitDraw, i.playerHitDraw);
  }

  /** The enemy's turn keeps `DropSmall`: a live enemy has just looked at the player. */
  lemma DropSmallAfterEnemyTurn(w: World, delta: int, now: int, trig: Trig, draws: Draws)
    requires Unit(draws.engageDistance) && DropSmall(w)
    ensures var w' := EnemyTurn(w, delta, now, trig, draws);
            DropSmall(w') && (w'.enemy.health > 0.0 ==> w'.enemy.lastPlayerDamage == w'.player.health)
  {
  }

  /** The collisions keep `DropSmall` once a live enemy has just looked: one blade hit
      takes less than 10. */
  lemma CollideKeepsDropSmall(w: World, now: int, trig: Trig, enemyHitDraw: real, playerHitDraw: real)
    requires Unit(enemyHitDraw) && Unit(playerHitDraw)
    requires DropSmall(w) && (w.enemy.health > 0.0 ==> w.enemy.lastPlayerDamage == w.player.health)
    ensures DropSmall(Collide(w, now, trig, enemyHitDraw, playerHitDraw))
  {
  }

  /** The enemy's turn leaves the player alone and changes neither combatant's health
      nor damage stamp. */
  lemma EnemyTurnSparesHealth(w: World, delta: int, now: int, trig: Trig, draws: Draws)
    requires Unit(draws.engageDistance)
    ensures var w' := EnemyTurn(w, delta, now, trig, draws);
            w'.player == w.player && w'.enemy.health == w.enemy.health && w'.enemy.lastDamageTime == w.enemy.lastDamageTime
  {
  }

  /** No frame raises either combatant's health. */
  lemma FrameNeverHeals(w: World, i: Inputs)
    requires w.player.dashActive ==> w.player.dashDuration > 0
    requires InRange(i)
    ensures Frame(w, i).player.health <= w.player.health && Frame(w, i).enemy.health <= w.enemy.health
  {
    EnemyTurnSparesHealth(PlayerTurn(w, i.delta, i.keys, i.mouseX, i.mouseY, i.now, i.trig), i.delta, i.now, i.trig, i.draws);
  }

  /** A dead player is left exactly as it was by a whole frame, and so is a dead enemy. */
  lemma DeadStayPut(w: World, i: Inputs)
    requires w.player.dashActive ==> w.player.dashDuration > 0
    requires InRange(i)
    ensures w.player.health <= 0.0 ==> Frame(w, i).player == w.player
    ensures w.enemy.health <= 0.0 ==> Frame(w, i).enemy == w.enemy
  {
    EnemyTurnSparesHealth(PlayerTurn(w, i.delta, i.keys, i.mouseX, i.mouseY, i.now, i.trig), i.delta, i.now, i.trig, i.draws);
  }

  /** A blade hit in the collision step stamps the clock reading and costs between 5 and
      10 health, or whatever is left when that is less; a combatant that loses nothing
      keeps its stamp. */
  lemma CollideHitsCost(w: World, now: int, trig: Trig, enemyHitDraw: real, playerHitDraw: real)
    requires Unit(enemyHitDraw) && Unit(playerHitDraw)
    requires w.player.health > 0.0 && w.enemy.health > 0.0
    ensures var w' := Collide(w, now, trig, enemyHitDraw, playerHitDraw);
            w'.enemy.lastDamageTime != w.enemy.lastDamageTime ==>
              w'.enemy.lastDamageTime == now &&
              (w'.enemy.health == 0.0 || 5.0 <= w.enemy.health - w'.enemy.health < 10.0)
    ensures var w' := Collide(w, now, trig, enemyHitDraw, playerHitDraw);
            w'.player.lastDamageTime != w.player.lastDamageTime ==>
              w'.player.lastDamageTime == now &&
              (w'.player.health == 0.0 || 5.0 <= w.player.health - w'.player.health < 10.0)
    ensures var w' := Collide(w, now, trig, enemyHitDraw, playerHitDraw);
            w'.enemy.lastDamageTime == w.enemy.lastDamageTime ==> w'.enemy.health == w.enemy.health
    ensures var w' := Collide(w, now, trig, enemyHitDraw, playerHitDraw);
            w'.player.lastDamageTime == w.player.lastDamageTime ==> w'.player.health == w.player.health
  {
  }

  /** While a combatant's damage gate is shut, the collision step leaves its health
      and its stamp alone. */
  lemma CollideRespectsGate(w: World, now: int, trig: Trig, enemyHitDraw: real, playerHitDraw: real)
    requires Unit(enemyHitDraw) && Unit(playerHitDraw)
    ensures var w' := Collide(w, now, trig, enemyHitDraw, playerHitDraw);
            !GateOpen(now, w.enemy.lastDamageTime, DamageCooldown) ==>
              w'.enemy.health == w.enemy.health && w'.enemy.lastDamageTime == w.enemy.lastDamageTime
    ensures var w' := Collide(w, now, trig, enemyHitDraw, playerHitDraw);
            !GateOpen(now, w.player.lastDamageTime, DamageCooldown) ==>
              w'.player.health == w.player.health && w'.player.lastDamageTime == w.player.lastDamageTime
  {
  }

  /** While a combatant's damage gate is shut, a whole frame leaves its health and its
      stamp alone. */
  lemma ShutGateBlocksHits(w: World, i: Inputs)
    requires w.player.dashActive ==> w.player.dashDuration > 0
    requires InRange(i)
    ensures !GateOpen(i.now, w.enemy.lastDamageTime, DamageCooldown) ==>
              Frame(w, i).enemy.health == w.enemy.health && Frame(w, i).enemy.lastDamageTime == w.enemy.lastDamageTime
    ensures !GateOpen(i.now, w.player.lastDamageTime, DamageCooldown) ==>
              Frame(w, i).player.health == w.player.health && Frame(w, i).player.lastDamageTime == w.player.lastDamageTime
  {
    var w1 := PlayerTurn(w, i.delta, i.keys, i.mouseX, i.mouseY, i.now, i.trig);
    EnemyTurnSparesHealth(w1, i.delta, i.now, i.trig, i.draws);
    CollideRespectsGate(EnemyTurn(w1, i.delta, i.now, i.trig, i.draws), i.now, i.trig, i.enemyHitDraw, i.playerHitDraw);
  }

  /** Two frames no more than the cooldown apart: whoever the first one hit, the second
      one cannot hit again, whatever its inputs. */
  lemma NoHitWithinCooldown(w: World, i: Inputs, i': Inputs)
    requires w.player.dashActive ==> w.player.dashDuration > 0
    requires InRange(i) && InRange(i') && i'.now <= i.now + DamageCooldown
    ensures Frame(w, i).enemy.health < w.enemy.health ==> Frame(Frame(w, i), i').enemy.health == Frame(w, i).enemy.health
    ensures Frame(w, i).player.health < w.player.health ==> Frame(Frame(w, i), i').player.health == Frame(w, i).player.health
  {
    var w1 := PlayerTurn(w, i.delta, i.keys, i.mouseX, i.mouseY, i.now, i.trig);
    var w2 := EnemyTurn(w1, i.delta, i.now, i.trig, i.draws);
    EnemyTurnSparesHealth(w1, i.delta, i.now, i.trig, i.draws);
    if Frame(w, i).enemy.health < w.enemy.health || Frame(w, i).player.health < w.player.health {
      CollideHitsCost(w2, i.now, i.trig, i.enemyHitDraw, i.playerHitDraw);
    }
    GateAfterHit(i.now, DamageCooldown, i'.now);
    ShutGateBlocksHits(Frame(w, i), i');
  }

  /** The player has lost less than 10 health since a live enemy's last look, so its
      turn fires the push only on the close-quarters rule. */
  lemma EnemyTurnPushRule(w: World, delta: int, now: int, trig: Trig, draws: Draws)
    requires Unit(draws.engageDistance)
    requires w.enemy.health > 0.0 && DropSmall(w)
    ensures var w' := EnemyTurn(w, delta, now, trig, draws);
            var ticked := Tick(w.enemy.push, delta);
            w'.enemy.push == if EnemyHealthPercent(w.enemy.health) < 0.3 &&
                                trig.Hypot(w'.enemy.x - w.player.x, w'.enemy.y - w.player.y) < 100.0
                             then Activated(ticked) else ticked
  {
    var w' := EnemyTurn(w, delta, now, trig, draws);
    SmallDropLeavesCloseQuarters(w.enemy.lastPlayerDamage - w.player.health, EnemyHealthPercent(w.enemy.health),
                                 trig.Hypot(w'.enemy.x - w.player.x, w'.enemy.y - w.player.y));
  }

  class Game {
    const player: Player
    const enemy: Enemy

    /** Both combatants are consistent, own distinct abilities and blades, and the
        player's health has dropped by less than 10 since the enemy last looked. */
    ghost predicate Valid()
      reads this, player, enemy, player.forcePush, player.forceDash, player.lightsaber, enemy.forcePush, enemy.lightsaber
    {
      player.Valid() && enemy.Valid() &&
      player.forcePush != enemy.forcePush && player.forceDash != enemy.forcePush &&
      player.lightsaber != enemy.lightsaber &&
      enemy.lastPlayerDamage - player.health < 10.0
    }

    /** Both combatants now. */
    function State(): World
      reads this, player, enemy, player.forcePush, player.forceDash, player.lightsaber, enemy.forcePush, enemy.lightsaber
    {
      World(player.State(), enemy.State())
    }

    constructor (spawn: SpawnDraws)
      requires Unit(spawn.aggression) && Unit(spawn.caution) && Unit(spawn.prediction)
      requires Unit(spawn.adaptability) && Unit(spawn.preferredDistance) && Unit(spawn.strafing)
      ensures Valid()
      ensures fresh(player) && fresh(enemy)
      ensures player.x == 100.0 && player.y == 300.0 && player.health == player.maxHealth
      ensures enemy.x == 700.0 && enemy.y == 300.0 && enemy.health == enemy.maxHealth
    {
      player := new Player(100.0, 300.0);
      enemy := new Enemy(700.0, 300.0, spawn);
    }

    /** `update(deltaTime)`: the player moves if alive, then the enemy thinks and moves
        if alive, then the collisions are resolved, as `Frame` says. */
    method Update(delta: int, keys: set<string>, mouseX: real, mouseY: real, now: int, trig: Trig,
                  draws: Draws, enemyHitDraw: real, playerHitDraw: real)
      requires Valid()
      requires Unit(draws.engageDistance) && Unit(enemyHitDraw) && Unit(playerHitDraw)
      modifies player, player.forcePush, player.forceDash, player.lightsaber, enemy, enemy.forcePush, enemy.lightsaber
      ensures Valid()
      ensures State() == Frame(old(State()), Inputs(delta, keys, mouseX, mouseY, now, trig, draws, enemyHitDraw, playerHitDraw))
    {
      FrameKeepsDropSmall(State(), Inputs(delta, keys, mouseX, mouseY, now, trig, draws, enemyHitDraw, playerHitDraw));
      StepPlayer(delta, keys, mouseX, mouseY, now, trig);
      StepEnemy(delta, now, trig, draws);
      CheckCollisions(now, trig, enemyHitDraw, playerHitDraw);
    }

    /** The first step of `update`: the player moves if alive. */
    method StepPlayer(delta: int, keys: set<string>, mouseX: real, mouseY: real, now: int, trig: Trig)
      requires Valid()
      modifies player`x, player`y, player`vx, player`vy, player`dashActive, player.forcePush, player.forceDash, player.lightsaber
      ensures Valid()
      ensures State() == PlayerTurn(old(State()), delta, keys, mouseX, mouseY, now, trig)
    {
      if player.IsAlive() {
        player.Update(delta, keys, mouseX, mouseY, now, trig);
      }
    }

    /** The second step of `update`: the enemy thinks and moves if alive. */
    method StepEnemy(delta: int, now: int, trig: Trig, draws: Draws)
      requires Valid()
      requires Unit(draws.engageDistance)
      modifies enemy`patterns, enemy`lastPlayerX, enemy`lastPlayerY, enemy`playerVelX, enemy`playerVelY,
               enemy`personality, enemy`currentStance, enemy`lastStanceChange,
               enemy`aiState, enemy`targetX, enemy`targetY, enemy`aiTimer, enemy`strafingDirection,
               enemy`vx, enemy`vy, enemy`x, enemy`y, enemy`lastPlayerDamage, enemy.forcePush, enemy.lightsaber
      ensures Valid()
      ensures State() == EnemyTurn(old(State()), delta, now, trig, draws)
    {
      if enemy.IsAlive() {
        enemy.Update(delta, PlayerView(player.x, player.y, player.health), now, trig, draws);
      }
    }

    /** `checkCollisions()`: nothing unless both are alive; then the two blades and the
        two pushes. */
    method CheckCollisions(now: int, trig: Trig, enemyHitDraw: real, playerHitDraw: real)
      requires Valid()
      requires Unit(enemyHitDraw) && Unit(playerHitDraw)
      modifies player`vx, player`vy, player`health, player`lastDamageTime, player`isFlashing, player`damageFlashTime
      modifies enemy`vx, enemy`vy, enemy`health, enemy`lastDamageTime, enemy`isFlashing, enemy`damageFlashTime
      ensures player.Valid() && enemy.Valid()
      ensures State() == Collide(old(State()), now, trig, enemyHitDraw, playerHitDraw)
    {
      if player.IsAlive() && enemy.IsAlive() {
        PlayerBlade(now, trig, enemyHitDraw);
        EnemyBlade(now, trig, playerHitDraw);
        ShoveEnemy(trig);
        ShovePlayer(trig);
      }
    }

    /** The player's blade in `checkCollisions`. */
    method PlayerBlade(now: int, trig: Trig, hitDraw: real)
      requires player.Valid() && enemy.Valid() && player.forcePush != enemy.forcePush && player.forceDash != enemy.forcePush &&
               player.lightsaber != enemy.lightsaber
      requires Unit(hitDraw)
      modifies enemy`vx, enemy`vy, enemy`health, enemy`lastDamageTime, enemy`isFlashing, enemy`damageFlashTime
      ensures enemy.Valid()
      ensures State() == EnemyHit(old(State()), now, trig, hitDraw)
    {
      if player.lightsaber.isActive && enemy.IsAlive() {
        var distance := trig.Hypot(player.lightsaber.tipX - enemy.x, player.lightsaber.tipY - enemy.y);
        if Abs(distance) < HitRadius && enemy.CanTakeDamage(now) {
          enemy.TakeDamage(HitDamage(hitDraw), now);
          KnockBack(trig);
        }
      }
    }

    /** The knockback after the player's blade hits. */
    method KnockBack(trig: Trig)
      modifies enemy`vx, enemy`vy
      ensures State() == KnockedBack(old(State()), trig)
    {
      var angle := trig.Atan2(enemy.y - player.y, enemy.x - player.x);
      enemy.vx := enemy.vx + trig.Cos(angle) * KnockbackForce;
      enemy.vy := enemy.vy + trig.Sin(angle) * KnockbackForce;
    }

    /** The enemy's blade in `checkCollisions`. */
    method EnemyBlade(now: int, trig: Trig, hitDraw: real)
      requires player.Valid() && enemy.Valid() && player.forcePush != enemy.forcePush && player.forceDash != enemy.forcePush &&
               player.lightsaber != enemy.lightsaber
      requires Unit(hitDraw)
      modifies player`health, player`lastDamageTime, player`isFlashing, player`damageFlashTime
      ensures player.Valid()
      ensures State() == PlayerHit(old(State()), now, trig, hitDraw)
    {
      if enemy.lightsaber.isActive && player.IsAlive() {
        var distance := trig.Hypot(enemy.lightsaber.tipX - player.x, enemy.lightsaber.tipY - player.y);
        if distance < HitRadius && player.CanTakeDamage(now) {
          player.TakeDamage(HitDamage(hitDraw), now);
        }
      }
    }

    /** The player's push in `checkCollisions`. */
    method ShoveEnemy(trig: Trig)
      modifies enemy`vx, enemy`vy
      ensures State() == PushedByPlayer(old(State()), trig)
    {
      if player.forcePush.isActive {
        var angle := trig.Atan2(enemy.y - player.y, enemy.x - player.x);
        enemy.vx := enemy.vx + trig.Cos(angle) * PushForce;
        enemy.vy := enemy.vy + trig.Sin(angle) * PushForce;
      }
    }

    /** The enemy's push in `checkCollisions`. */
    method ShovePlayer(trig: Trig)
      modifies player`vx, player`vy
      ensures State() == PushedByEnemy(old(State()), trig)
    {
      if enemy.forcePush.isActive {
        var angle := trig.Atan2(player.y - enemy.y, player.x - enemy.x);
        player.vx := player.vx + trig.Cos(angle) * PushForce;
        player.vy := player.vy + trig.Sin(angle) * PushForce;
      }
    }

    /** The space-bar listener: `player.useForcePush()`. */
    method OnForcePush()
      requires Valid()
      modifies player.forcePush
      ensures Valid()
      ensures player.forcePush.State() == Activated(old(player.forcePush.State()))
    {
      player.UseForcePush();
    }

    /** The mouse-down listener: `player.useForceDash()`. */
    method OnForceDash(now: int, trig: Trig)
      requires Valid()
      modifies player`vx, player`vy, player`dashActive, player`dashStartTime, player`dashDuration, player`dashAngle, player.forceDash
      ensures Valid()
      ensures player.forceDash.State() == Activated(old(player.forceDash.State()))
      ensures old(player.forceDash.CanUse()) ==>
                player.dashActive && player.dashStartTime == now && player.dashDuration == DashWindow &&
                player.dashAngle == player.lightsaber.angle &&
                player.vx == old(player.vx) + trig.Cos(player.lightsaber.angle) * DashImpulse &&
                player.vy == old(player.vy) + trig.Sin(player.lightsaber.angle) * DashImpulse
      ensures !old(player.forceDash.CanUse()) ==>
                unchanged(player`vx, player`vy, player`dashActive, player`dashStartTime, player`dashDuration, player`dashAngle)
    {
      player.UseForceDash(now, trig);
    }
  }
}
