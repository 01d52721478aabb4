/** Arena geometry shared by every combatant: the JavaScript `Math` helpers the
    game uses, the arena bounds, and the transcendental functions (which Dafny
    does not have) as an explicit record of function values supplied by the host. */
module Geometry {

  /** `Math.hypot`, `Math.atan2`, `Math.cos` and `Math.sin`, as the host computes them.
      Every property of this model holds whatever these functions return. */
  datatype Trig = Trig(
    hypot: (real, real) -> real,
    atan2: (real, real) -> real,
    cos: real -> real,
    sin: real -> real)
  {
    /** The host's functions applied. Written as members, their results visibly do not
        depend on the heap. */
    function Hypot(dx: real, dy: real): real { hypot(dx, dy) }
    function Atan2(dy: real, dx: real): real { atan2(dy, dx) }
    function Cos(a: real): real { cos(a) }
    function Sin(a: real): real { sin(a) }
  }

  /** `Math.PI / 2` as a double. */
  const HalfPi: real := 1.5707963267948966

  /** Where a combatant's centre may be after a movement step. */
  const ArenaMinX: real := 20.0
  const ArenaMaxX: real := 780.0
  const ArenaMinY: real := 20.0
  const ArenaMaxY: real := 580.0

  /** Where the opponent's patrol, retreat and flank targets may lie. */
  const TargetMinX: real := 50.0
  const TargetMaxX: real := 750.0
  const TargetMinY: real := 50.0
  const TargetMaxY: real := 550.0

  function Max(a: real, b: real): (r: real)
    ensures r >= a && r >= b && (r == a || r == b)
  {
    if a >= b then a else b
  }

  function Min(a: real, b: real): (r: real)
    ensures r <= a && r <= b && (r == a || r == b)
  {
    if a <= b then a else b
  }

  function Abs(v: real): (r: real)
    ensures r >= 0.0 && (r == v || r == -v)
  {
    if v < 0.0 then -v else v
  }

  /** `Math.max(lo, Math.min(hi, v))`: the nearest point of [lo, hi] to v. */
  function Clamp(lo: real, hi: real, v: real): (r: real)
    ensures lo <= hi ==> lo <= r <= hi
    ensures lo <= v <= hi ==> r == v
    ensures lo <= hi && v < lo ==> r == lo
    ensures lo <= hi && v > hi ==> r == hi
  {
    Max(lo, Min(hi, v))
  }

  predicate InArena(x: real, y: real)
  {
    ArenaMinX <= x <= ArenaMaxX && ArenaMinY <= y <= ArenaMaxY
  }

  predicate InTargetBox(x: real, y: real)
  {
    TargetMinX <= x <= TargetMaxX && TargetMinY <= y <= TargetMaxY
  }

  /** A frame's `deltaTime / 1000`: its length in seconds. */
  function Seconds(delta: int): real
  {
    delta as real / 1000.0
  }

  /** One coordinate after moving at velocity `v` for `dt` seconds and being clamped
      back into [lo, hi]. */
  function Advance(p: real, v: real, dt: real, lo: real, hi: real): (r: real)
    ensures lo <= hi ==> lo <= r <= hi
  {
    Clamp(lo, hi, p + v * dt)
  }
}
