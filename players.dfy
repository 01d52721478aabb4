/** `Player`, game.js: the keyboard-driven combatant. Its movement step, health,
    damage gate and the two abilities it triggers. `Date.now()` is the `now`
    parameter; the keys held down are the set of their `KeyboardEvent.code`s. */
module Players {
  import opened Geometry
  import opened ForceAbilities
  import opened Vitality
  import opened Sabers

  const PlayerMaxHealth: real := 200.0
  const PushCooldown: int := 10000
  const DashCooldown: int := 8000
  /** Length of the boost window that follows a dash, in ms. */
  const DashWindow: int := 300
  /** Impulse added to the velocity the moment a dash fires. */
  const DashImpulse: real := 1200.0
  /** Strength of the decaying boost at the start of the window. */
  const DashBoost: real := 400.0
  /** Friction during the boost window (the usual value is 0.85). */
  const DashFriction: real := 0.9
  /** Scale applied to both components of a diagonal move. */
  const Diagonal: real := 0.707

  predicate LeftHeld(keys: set<string>)  { "ArrowLeft" in keys || "KeyA" in keys }
  predicate RightHeld(keys: set<string>) { "ArrowRight" in keys || "KeyD" in keys }
  predicate UpHeld(keys: set<string>)    { "ArrowUp" in keys || "KeyW" in keys }
  predicate DownHeld(keys: set<string>)  { "ArrowDown" in keys || "KeyS" in keys }

  /** The movement direction the held keys ask for (screen y grows downwards).
      Opposite keys cancel, and a diagonal is scaled so that it is no faster than
      a straight move. */
  function MoveIntent(keys: set<string>): (m: (real, real))
    ensures m.0 < 0.0 <==> LeftHeld(keys) && !RightHeld(keys)
    ensures m.0 > 0.0 <==> RightHeld(keys) && !LeftHeld(keys)
    ensures m.1 < 0.0 <==> UpHeld(keys) && !DownHeld(keys)
    ensures m.1 > 0.0 <==> DownHeld(keys) && !UpHeld(keys)
    ensures m.0 != 0.0 && m.1 != 0.0 ==> Abs(m.0) == Diagonal && Abs(m.1) == Diagonal
    ensures m.0 == 0.0 || m.1 == 0.0 ==> Abs(m.0) + Abs(m.1) <= 1.0
  {
    var moveX := (if LeftHeld(keys) then -1.0 else 0.0) + (if RightHeld(keys) then 1.0 else 0.0);
    var moveY := (if UpHeld(keys) then -1.0 else 0.0) + (if DownHeld(keys) then 1.0 else 0.0);
    if moveX != 0.0 && moveY != 0.0 then (moveX * Diagonal, moveY * Diagonal) else (moveX, moveY)
  }

  /** The extra force a dash still adds `elapsed` ms into a window of `duration` ms:
      it falls linearly from its full strength towards zero. */
  function DashForce(elapsed: int, duration: int): (f: real)
    requires duration > 0
    ensures 0 <= elapsed < duration ==> 0.0 < f <= DashBoost
    ensures elapsed == 0 ==> f == DashBoost
  {
    DashBoost * (1.0 - elapsed as real / duration as real)
  }

  /** The dash force weakens as the window goes on. */
  lemma DashForceDecays(e1: int, e2: int, duration: int)
    requires duration > 0 && e1 <= e2
    ensures DashForce(e1, duration) >= DashForce(e2, duration)
  {
    assert e1 as real / duration as real <= e2 as real / duration as real;
  }

  const PlayerSpeed: real := 1000.0
  const PlayerFriction: real := 0.85

  /** The friction factor of a frame: lighter while a dash lasts. */
  function Friction(dashing: bool): real
  {
    if dashing then DashFriction else PlayerFriction
  }

  /** A velocity component after the dash boost of one frame: while the window is open
      (`elapsed` ms into `window`) it is pushed along the dash direction, otherwise it is
      left alone. */
  function Boosted(v: real, dashDir: real, dashing: bool, elapsed: int, window: int, dt: real): real
    requires dashing ==> window > 0
  {
    if dashing then v + dashDir * DashForce(elapsed, window) * dt else v
  }

  /** One velocity component after a frame of `dt` seconds: the dash boost (while the
      window is open, `elapsed` ms into it), the keyboard move, then friction, which is
      lighter while the dash lasts. */
  function SteeredVelocity(v: real, dashDir: real, dashing: bool, elapsed: int, window: int, move: real, dt: real): real
    requires dashing ==> window > 0
  {
    var boosted := Boosted(v, dashDir, dashing, elapsed, window, dt);
    var moved := boosted + move * PlayerSpeed * dt;
    moved * Friction(dashing)
  }

  /** The player's fields, with its abilities' and its blade's, at one moment. */
  datatype PlayerState = PlayerState(x: real, y: real, vx: real, vy: real, health: real, lastDamageTime: int,
                                     isFlashing: bool, damageFlashTime: int,
                                     dashActive: bool, dashStartTime: int, dashDuration: int, dashAngle: real,
                                     push: AbilityState, dash: AbilityState, blade: Blade)

  /** What one `update` makes of the player's state `s`: the dash ends once its window
      has passed, the velocity takes the dash boost, the keys and friction, the position
      one clamped step along it, the blade points at the mouse from there and both
      abilities tick. Nothing else changes. */
  function Step(s: PlayerState, delta: int, keys: set<string>, mouseX: real, mouseY: real, now: int, trig: Trig): PlayerState
    requires s.dashActive ==> s.dashDuration > 0
  {
    var dt := Seconds(delta);
    var dashing := s.dashActive && now - s.dashStartTime < s.dashDuration;
    var vx := SteeredVelocity(s.vx, trig.Cos(s.dashAngle), dashing, now - s.dashStartTime, s.dashDuration, MoveIntent(keys).0, dt);
    var vy := SteeredVelocity(s.vy, trig.Sin(s.dashAngle), dashing, now - s.dashStartTime, s.dashDuration, MoveIntent(keys).1, dt);
    var x := Advance(s.x, vx, dt, ArenaMinX, ArenaMaxX);
    var y := Advance(s.y, vy, dt, ArenaMinY, ArenaMaxY);
    s.(x := x, y := y, vx := vx, vy := vy, dashActive := dashing,
       push := Tick(s.push, delta), dash := Tick(s.dash, delta), blade := Aimed(s.blade, x, y, mouseX, mouseY, trig))
  }

  /** `Step` read off the outcome of `Player.Update`, field by field. */
  twostate lemma StepOfUpdate(pl: Player, new delta: int, new keys: set<string>, new mouseX: real, new mouseY: real, new now: int,
                              new trig: Trig)
    requires old(pl.Valid())
    requires unchanged(pl`health, pl`lastDamageTime, pl`isFlashing, pl`damageFlashTime, pl`dashStartTime, pl`dashDuration, pl`dashAngle)
    requires pl.dashActive == old(pl.DashContinues(now))
    requires pl.vx == SteeredVelocity(old(pl.vx), trig.Cos(pl.dashAngle), pl.dashActive, now - pl.dashStartTime, pl.dashDuration,
                                      MoveIntent(keys).0, Seconds(delta))
    requires pl.vy == SteeredVelocity(old(pl.vy), trig.Sin(pl.dashAngle), pl.dashActive, now - pl.dashStartTime, pl.dashDuration,
                                      MoveIntent(keys).1, Seconds(delta))
    requires pl.x == Advance(old(pl.x), pl.vx, Seconds(delta), ArenaMinX, ArenaMaxX)
    requires pl.y == Advance(old(pl.y), pl.vy, Seconds(delta), ArenaMinY, ArenaMaxY)
    requires pl.lightsaber.State() == Aimed(old(pl.lightsaber.State()), pl.x, pl.y, mouseX, mouseY, trig)
    requires pl.forcePush.State() == Tick(old(pl.forcePush.State()), delta)
    requires pl.forceDash.State() == Tick(old(pl.forceDash.State()), delta)
    ensures old(pl.State()).dashActive ==> old(pl.State()).dashDuration > 0
    ensures pl.State() == Step(old(pl.State()), delta, keys, mouseX, mouseY, now, trig)
  {
  }

  class Player {
    var x: real
    var y: real
    var vx: real
    var vy: real
    const maxHealth: real := PlayerMaxHealth
    var health: real
    var lastDamageTime: int
    const damageCooldown: int := DamageCooldown
    var damageFlashTime: int
    var isFlashing: bool
    const forcePush: ForceAbility
    const forceDash: ForceAbility
    var dashActive: bool
    var dashStartTime: int
    var dashDuration: int
    var dashAngle: real
    const lightsaber: Lightsaber

    /** Besides the ability and health bounds: the blade is lit from construction on
        and nothing puts it out. */
    ghost predicate Valid()
      reads this, forcePush, forceDash, lightsaber
    {
      forcePush != forceDash && forcePush.Valid() && forceDash.Valid() && lightsaber.isActive &&
      forcePush.cooldown == PushCooldown && forceDash.cooldown == DashCooldown &&
      0.0 <= health <= maxHealth &&
      (dashActive ==> dashDuration == DashWindow)
    }

    constructor (x0: real, y0: real)
      ensures Valid() && fresh(forcePush) && fresh(forceDash) && fresh(lightsaber)
      ensures x == x0 && y == y0 && vx == 0.0 && vy == 0.0
      ensures health == maxHealth && lastDamageTime == 0 && !isFlashing && !dashActive
      ensures forcePush.State() == AbilityState(PushCooldown, 0, false, 0, ActiveDuration)
      ensures forceDash.State() == AbilityState(DashCooldown, 0, false, 0, ActiveDuration)
    {
      x, y := x0, y0;
      vx, vy := 0.0, 0.0;
      health := PlayerMaxHealth;
      lastDamageTime := 0;
      damageFlashTime := 0;
      isFlashing := false;
      forcePush := new ForceAbility(PushCooldown);
      forceDash := new ForceAbility(DashCooldown);
      dashActive := false;
      dashStartTime := 0;
      dashDuration := 0;
      dashAngle := 0.0;
      lightsaber := new Lightsaber();
    }

    /** The whole player now. */
    function State(): PlayerState
      reads this, forcePush, forceDash, lightsaber
    {
      PlayerState(x, y, vx, vy, health, lastDamageTime, isFlashing, damageFlashTime,
                  dashActive, dashStartTime, dashDuration, dashAngle, forcePush.State(), forceDash.State(), lightsaber.State())
    }

    /** `isAlive()`. */
    predicate IsAlive()
      reads this
    {
      health > 0.0
    }

    /** `canTakeDamage()`, with the clock reading passed in. */
    predicate CanTakeDamage(now: int)
      reads this
    {
      GateOpen(now, lastDamageTime, damageCooldown)
    }

    /** `takeDamage(damage)`: lose health down to zero, stamp the hit time and start
        the damage flash. */
    method TakeDamage(damage: real, now: int)
      requires Valid()
      modifies this`health, this`lastDamageTime, this`isFlashing, this`damageFlashTime
      ensures health == AfterDamage(old(health), damage)
      ensures damage >= 0.0 ==> Valid() && health <= old(health)
      ensures lastDamageTime == now && isFlashing && damageFlashTime == now
      ensures forall t :: t <= now + damageCooldown ==> !CanTakeDamage(t)
      ensures State() == old(State()).(health := health, lastDamageTime := now, isFlashing := true, damageFlashTime := now)
    {
      health := Max(0.0, health - damage);
      lastDamageTime := now;
      isFlashing := true;
      damageFlashTime := now;
    }

    /** `update(deltaTime, keys, mouse)`: the velocity and position step, then the
        blade and the two abilities. Health, the damage stamps, the flash and the dash's
        start, window and angle lie outside its frame. */
    method Update(delta: int, keys: set<string>, mouseX: real, mouseY: real, now: int, trig: Trig)
      requires Valid()
      modifies this`x, this`y, this`vx, this`vy, this`dashActive, forcePush, forceDash, lightsaber
      ensures Valid()
      ensures InArena(x, y)
      ensures dashActive == old(DashContinues(now))
      ensures vx == SteeredVelocity(old(vx), trig.Cos(dashAngle), dashActive, now - dashStartTime, dashDuration, MoveIntent(keys).0, Seconds(delta))
      ensures vy == SteeredVelocity(old(vy), trig.Sin(dashAngle), dashActive, now - dashStartTime, dashDuration, MoveIntent(keys).1, Seconds(delta))
      ensures x == Advance(old(x), vx, Seconds(delta), ArenaMinX, ArenaMaxX)
      ensures y == Advance(old(y), vy, Seconds(delta), ArenaMinY, ArenaMaxY)
      ensures lightsaber.State() == Aimed(old(lightsaber.State()), x, y, mouseX, mouseY, trig)
      ensures forcePush.State() == Tick(old(forcePush.State()), delta)
      ensures forceDash.State() == Tick(old(forceDash.State()), delta)
      ensures State() == Step(old(State()), delta, keys, mouseX, mouseY, now, trig)
    {
      var dt := Seconds(delta);
      Steer(dt, MoveIntent(keys), now, trig);
      Move(dt);
      lightsaber.Update(x, y, mouseX, mouseY, trig);
      forcePush.Update(delta);
      forceDash.Update(delta);
      StepOfUpdate(this, delta, keys, mouseX, mouseY, now, trig);
    }

    /** Whether the dash boost window is still open at `now`. */
    predicate DashContinues(now: int)
      reads this
    {
      dashActive && now - dashStartTime < dashDuration
    }

    /** The velocity half of `update`: dash boost, keyboard move and friction. */
    method Steer(dt: real, move: (real, real), now: int, trig: Trig)
      requires Valid()
      modifies this`vx, this`vy, this`dashActive
      ensures Valid()
      ensures dashActive == old(DashContinues(now))
      ensures vx == SteeredVelocity(old(vx), trig.Cos(dashAngle), dashActive, now - dashStartTime, dashDuration, move.0, dt)
      ensures vy == SteeredVelocity(old(vy), trig.Sin(dashAngle), dashActive, now - dashStartTime, dashDuration, move.1, dt)
    {
      DashStep(dt, now, trig);
      KeyStep(dt, move);
      var currentFriction := Friction(dashActive);
      vx := vx * currentFriction;
      vy := vy * currentFriction;
    }

    /** The dash part of `update`: while the window is open the boost pushes along the
        dash angle; once it has passed, the dash ends. */
    method DashStep(dt: real, now: int, trig: Trig)
      requires Valid()
      modifies this`vx, this`vy, this`dashActive
      ensures Valid()
      ensures dashActive == old(DashContinues(now))
      ensures vx == Boosted(old(vx), trig.Cos(dashAngle), dashActive, now - dashStartTime, dashDuration, dt)
      ensures vy == Boosted(old(vy), trig.Sin(dashAngle), dashActive, now - dashStartTime, dashDuration, dt)
    {
      if dashActive {
        var dashElapsed := now - dashStartTime;
        if dashElapsed < dashDuration {
          var remainingForce := DashForce(dashElapsed, dashDuration);
          vx := vx + trig.Cos(dashAngle) * remainingForce * dt;
          vy := vy + trig.Sin(dashAngle) * remainingForce * dt;
        } else {
          dashActive := false;
        }
      }
    }

    /** The keyboard part of `update`. */
    method KeyStep(dt: real, move: (real, real))
      modifies this`vx, this`vy
      ensures vx == old(vx) + move.0 * PlayerSpeed * dt
      ensures vy == old(vy) + move.1 * PlayerSpeed * dt
    {
      vx := vx + move.0 * PlayerSpeed * dt;
      vy := vy + move.1 * PlayerSpeed * dt;
    }

    /** The position half of `update`: one step along the velocity, then the arena clamp. */
    method Move(dt: real)
      modifies this`x, this`y
      ensures x == Advance(old(x), vx, dt, ArenaMinX, ArenaMaxX)
      ensures y == Advance(old(y), vy, dt, ArenaMinY, ArenaMaxY)
      ensures InArena(x, y)
    {
      x := x + vx * dt;
      y := y + vy * dt;
      x := Clamp(ArenaMinX, ArenaMaxX, x);
      y := Clamp(ArenaMinY, ArenaMaxY, y);
    }

    /** `useForcePush()`: fire the push if it is off cooldown. */
    method UseForcePush()
      requires Valid()
      modifies forcePush
      ensures Valid()
      ensures forcePush.State() == Activated(old(forcePush.State()))
    {
      if forcePush.CanUse() {
        forcePush.Activate();
      }
    }

    /** `useForceDash()`: if the dash is off cooldown, fire it, throw the player along
        the blade's angle and open the boost window. Otherwise nothing changes. */
    method UseForceDash(now: int, trig: Trig)
      requires Valid()
      modifies this`vx, this`vy, this`dashActive, this`dashStartTime, this`dashDuration, this`dashAngle, forceDash
      ensures Valid()
      ensures forceDash.State() == Activated(old(forceDash.State()))
      ensures old(forceDash.CanUse()) ==>
                dashActive && dashStartTime == now && dashDuration == DashWindow &&
                dashAngle == lightsaber.angle &&
                vx == old(vx) + trig.Cos(lightsaber.angle) * DashImpulse &&
                vy == old(vy) + trig.Sin(lightsaber.angle) * DashImpulse
      ensures !old(forceDash.CanUse()) ==>
                unchanged(this`vx, this`vy, this`dashActive, this`dashStartTime, this`dashDuration, this`dashAngle)
    {
      if forceDash.CanUse() {
        forceDash.Activate();
        var angle := lightsaber.angle;
        vx := vx + trig.Cos(angle) * DashImpulse;
        vy := vy + trig.Sin(angle) * DashImpulse;
        dashActive := true;
        dashStartTime := now;
        dashDuration := DashWindow;
        dashAngle := angle;
      }
    }
  }
}
