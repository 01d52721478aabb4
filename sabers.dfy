/** `Lightsaber`, game.js: a blade of fixed reach whose angle follows an aim point.
    The owner back-reference is replaced by passing the owner's position in. */
module Sabers {
  import opened Geometry

  const BladeLength: real := 80.0

  /** A lightsaber's fields at one moment. */
  datatype Blade = Blade(angle: real, isActive: bool, tipX: real, tipY: real)

  /** The blade `b`, held at (`ownerX`, `ownerY`), turned to point at (`aimX`, `aimY`)
      with its tip one blade length along that direction. Whether it is lit is kept. */
  function Aimed(b: Blade, ownerX: real, ownerY: real, aimX: real, aimY: real, trig: Trig): Blade
  {
    var angle := trig.Atan2(aimY - ownerY, aimX - ownerX);
    b.(angle := angle, tipX := ownerX + trig.Cos(angle) * BladeLength, tipY := ownerY + trig.Sin(angle) * BladeLength)
  }

  class Lightsaber {
    const length: real := BladeLength
    var angle: real
    var isActive: bool
    var tipX: real
    var tipY: real

    constructor ()
      ensures angle == 0.0 && isActive && tipX == 0.0 && tipY == 0.0
    {
      angle := 0.0;
      isActive := true;
      tipX := 0.0;
      tipY := 0.0;
    }

    /** The blade now. */
    function State(): Blade
      reads this
    {
      Blade(angle, isActive, tipX, tipY)
    }

    /** `update(deltaTime, mouse)`: point from the owner at the aim point and put
        the tip one blade length along that direction. */
    method Update(ownerX: real, ownerY: real, aimX: real, aimY: real, trig: Trig)
      modifies this
      ensures angle == trig.Atan2(aimY - ownerY, aimX - ownerX)
      ensures tipX == ownerX + trig.Cos(angle) * length
      ensures tipY == ownerY + trig.Sin(angle) * length
      ensures isActive == old(isActive)
      ensures State() == Aimed(old(State()), ownerX, ownerY, aimX, aimY, trig)
    {
      var dx := aimX - ownerX;
      var dy := aimY - ownerY;
      angle := trig.Atan2(dy, dx);
      tipX := ownerX + trig.Cos(angle) * length;
      tipY := ownerY + trig.Sin(angle) * length;
    }
  }
}
