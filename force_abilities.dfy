/** The cooldown and active-window state machine behind force push and force dash
    (`ForceAbility`, game.js). Times are milliseconds. */
module ForceAbilities {

  /** Every ability stays active for this long after it fires. */
  const ActiveDuration: int := 500

  /** The value of one ability: what the object's fields hold at one moment. */
  datatype AbilityState = AbilityState(
    cooldown: int,
    currentCooldown: int,
    isActive: bool,
    activeTime: int,
    duration: int)
  {
    /** `canUse()`: the cooldown has run out. */
    predicate CanUse()
    {
      currentCooldown <= 0
    }

    /** The active window never reaches its full duration while the flag is set. */
    predicate WindowOpen()
    {
      isActive ==> activeTime < duration
    }
  }

  /** `update(delta)`: the cooldown counts down while it is positive, and an active
      ability accumulates active time until it reaches the duration, when it
      switches off and its active time is reset. */
  function Tick(s: AbilityState, delta: int): (r: AbilityState)
    ensures r.cooldown == s.cooldown && r.duration == s.duration
    ensures delta >= 0 ==> r.currentCooldown <= s.currentCooldown
    ensures s.currentCooldown <= 0 ==> r.currentCooldown == s.currentCooldown
    ensures s.currentCooldown > 0 ==> r.currentCooldown == s.currentCooldown - delta
    ensures r.WindowOpen()
    ensures r.isActive ==> s.isActive && r.activeTime == s.activeTime + delta
    ensures s.isActive && !r.isActive ==> r.activeTime == 0 && s.activeTime + delta >= s.duration
    ensures !s.isActive ==> !r.isActive && r.activeTime == s.activeTime
  {
    var cooled := if s.currentCooldown > 0 then s.currentCooldown - delta else s.currentCooldown;
    if !s.isActive then
      s.(currentCooldown := cooled)
    else if s.activeTime + delta >= s.duration then
      s.(currentCooldown := cooled, isActive := false, activeTime := 0)
    else
      s.(currentCooldown := cooled, activeTime := s.activeTime + delta)
  }

  /** `activate()`: a usable ability fires, opening its active window and starting
      its full cooldown at once; an unusable one is left exactly as it was. */
  function Activated(s: AbilityState): (r: AbilityState)
    ensures s.CanUse() ==> r.isActive && r.activeTime == 0 && r.currentCooldown == s.cooldown
    ensures r.cooldown == s.cooldown && r.duration == s.duration
    ensures s.CanUse() && s.cooldown > 0 ==> !r.CanUse()
    ensures !s.CanUse() ==> r == s
    ensures s.WindowOpen() && s.duration > 0 ==> r.WindowOpen()
  {
    if s.CanUse() then s.(isActive := true, activeTime := 0, currentCooldown := s.cooldown) else s
  }

  /** Firing twice in a row is the same as firing once, whenever the cooldown is positive. */
  lemma ActivateIdempotent(s: AbilityState)
    requires s.cooldown > 0
    ensures Activated(Activated(s)) == Activated(s)
  {
  }

  /** The state after a run of frames with the given deltas. */
  function Run(s: AbilityState, deltas: seq<int>): AbilityState
    decreases |deltas|
  {
    if deltas == [] then s else Run(Tick(s, deltas[0]), deltas[1..])
  }

  function Sum(deltas: seq<int>): int
    decreases |deltas|
  {
    if deltas == [] then 0 else deltas[0] + Sum(deltas[1..])
  }

  predicate AllNonNegative(deltas: seq<int>)
  {
    forall i :: 0 <= i < |deltas| ==> deltas[i] >= 0
  }

  /** How many of the frames end with the ability active, i.e. how many collision
      checks that follow those frames see `isActive`. */
  function ActiveFrames(s: AbilityState, deltas: seq<int>): nat
    decreases |deltas|
  {
    if deltas == [] then 0
    else
      var next := Tick(s, deltas[0]);
      (if next.isActive then 1 else 0) + ActiveFrames(next, deltas[1..])
  }

  lemma {:induction false} SumNonNegative(deltas: seq<int>)
    requires AllNonNegative(deltas)
    ensures Sum(deltas) >= 0
    decreases |deltas|
  {
    if deltas != [] {
      assert AllNonNegative(deltas[1..]) by {
        forall i | 0 <= i < |deltas[1..]| ensures deltas[1..][i] >= 0 {
          assert deltas[1..][i] == deltas[i + 1];
        }
      }
      SumNonNegative(deltas[1..]);
    }
  }

  /** Once the cooldown has run out, further frames leave it where it is. */
  lemma {:induction false} SpentCooldownStays(s: AbilityState, deltas: seq<int>)
    requires s.CanUse()
    ensures Run(s, deltas).currentCooldown == s.currentCooldown
    decreases |deltas|
  {
    if deltas != [] {
      SpentCooldownStays(Tick(s, deltas[0]), deltas[1..]);
    }
  }

  /** A cooling-down ability becomes usable again exactly when the frames that
      follow add up to at least the remaining cooldown. */
  lemma {:induction false} CooldownRecovers(s: AbilityState, deltas: seq<int>)
    requires AllNonNegative(deltas)
    ensures Run(s, deltas).CanUse() <==> s.CanUse() || Sum(deltas) >= s.currentCooldown
    decreases |deltas|
  {
    if deltas == [] {
    } else if s.CanUse() {
      SpentCooldownStays(s, deltas);
    } else {
      var next := Tick(s, deltas[0]);
      assert AllNonNegative(deltas[1..]) by {
        forall i | 0 <= i < |deltas[1..]| ensures deltas[1..][i] >= 0 {
          assert deltas[1..][i] == deltas[i + 1];
        }
      }
      CooldownRecovers(next, deltas[1..]);
      if next.CanUse() {
        SumNonNegative(deltas[1..]);
      }
    }
  }

  /** An ability that is not active stays inactive: only `activate()` switches it on. */
  lemma {:induction false} IdleStaysIdle(s: AbilityState, deltas: seq<int>)
    requires !s.isActive
    ensures ActiveFrames(s, deltas) == 0
    decreases |deltas|
  {
    if deltas != [] {
      IdleStaysIdle(Tick(s, deltas[0]), deltas[1..]);
    }
  }

  /** At 100 ms frames an ability that has been active for `100 * done` ms stays
      active at the end of `4 - done` more frames. */
  lemma {:induction false} ActiveWindowAt100(s: AbilityState, deltas: seq<int>, done: nat)
    requires s.isActive && s.duration == ActiveDuration && done <= 4 && s.activeTime == 100 * done
    requires forall i :: 0 <= i < |deltas| ==> deltas[i] == 100
    requires |deltas| >= 5 - done
    ensures ActiveFrames(s, deltas) == 4 - done
    decreases 4 - done
  {
    var next := Tick(s, deltas[0]);
    assert forall i :: 0 <= i < |deltas[1..]| ==> deltas[1..][i] == deltas[i + 1];
    if done == 4 {
      IdleStaysIdle(next, deltas[1..]);
    } else {
      ActiveWindowAt100(next, deltas[1..], done + 1);
    }
  }

  /** An ability fired between frames (as the player's push is, from a key event)
      is seen as active by the collision checks of exactly four 100 ms frames. */
  lemma FiredAbilityCoversFourFrames(s: AbilityState, deltas: seq<int>)
    requires s.CanUse() && s.duration == ActiveDuration
    requires forall i :: 0 <= i < |deltas| ==> deltas[i] == 100
    requires |deltas| >= 5
    ensures ActiveFrames(Activated(s), deltas) == 4
  {
    ActiveWindowAt100(Activated(s), deltas, 0);
  }

  /** An ability fired inside a frame, after that frame's tick and before the collision
      check (as the enemy's push is), is seen active by that check as well: five checks
      at 100 ms frames. `CannotRefireInWindow` shows that a cooldown longer than the
      window keeps it from firing again meanwhile. */
  lemma FiredInFrameCoversFiveFrames(s: AbilityState, deltas: seq<int>)
    requires s.CanUse() && s.duration == ActiveDuration
    requires forall i :: 0 <= i < |deltas| ==> deltas[i] == 100
    requires |deltas| >= 5
    ensures (if Activated(s).isActive then 1 else 0) + ActiveFrames(Activated(s), deltas) == 5
  {
    FiredAbilityCoversFourFrames(s, deltas);
  }

  /** `k` frames of 100 ms add up to `100 * k` ms. */
  lemma {:induction false} SumOfHundreds(deltas: seq<int>)
    requires forall i :: 0 <= i < |deltas| ==> deltas[i] == 100
    ensures Sum(deltas) == 100 * |deltas|
    decreases |deltas|
  {
    if deltas != [] {
      assert forall i :: 0 <= i < |deltas[1..]| ==> deltas[1..][i] == deltas[i + 1];
      SumOfHundreds(deltas[1..]);
    }
  }

  /** An ability with a cooldown longer than its 500 ms window, fired and then ticked
      by up to five 100 ms frames, is not usable after any of them: it cannot fire
      again while its window is still seen. */
  lemma CannotRefireInWindow(s: AbilityState, deltas: seq<int>, k: nat)
    requires s.CanUse() && s.cooldown > ActiveDuration
    requires forall i :: 0 <= i < |deltas| ==> deltas[i] == 100
    requires k <= 5 && k <= |deltas|
    ensures !Run(Activated(s), deltas[..k]).CanUse()
  {
    var elapsed := deltas[..k];
    assert forall i :: 0 <= i < |elapsed| ==> elapsed[i] == 100;
    SumOfHundreds(elapsed);
    CooldownRecovers(Activated(s), elapsed);
  }

  /** `ForceAbility`: one ability's cooldown and active window, updated in place. */
  class ForceAbility {
    const cooldown: int
    const duration: int := ActiveDuration
    var currentCooldown: int
    var isActive: bool
    var activeTime: int

    /** The abstract value of this ability. */
    function State(): AbilityState
      reads this
    {
      AbilityState(cooldown, currentCooldown, isActive, activeTime, duration)
    }

    ghost predicate Valid()
      reads this
    {
      State().WindowOpen()
    }

    constructor (cooldown: int)
      ensures Valid()
      ensures State() == AbilityState(cooldown, 0, false, 0, ActiveDuration)
    {
      this.cooldown := cooldown;
      currentCooldown := 0;
      isActive := false;
      activeTime := 0;
    }

    /** `update(deltaTime)`. */
    method Update(delta: int)
      modifies this
      ensures Valid()
      ensures State() == Tick(old(State()), delta)
    {
      if currentCooldown > 0 {
        currentCooldown := currentCooldown - delta;
      }
      if isActive {
        activeTime := activeTime + delta;
        if activeTime >= duration {
          isActive := false;
          activeTime := 0;
        }
      }
    }

    /** `canUse()`. */
    predicate CanUse()
      reads this
    {
      State().CanUse()
    }

    /** `activate()`. */
    method Activate()
      requires Valid()
      modifies this
      ensures Valid()
      ensures State() == Activated(old(State()))
    {
      if CanUse() {
        isActive := true;
        activeTime := 0;
        currentCooldown := cooldown;
      }
    }
  }
}
