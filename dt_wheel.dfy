/** A stand-in for the barrel's children, the DT wheels. Only what the barrel
    uses of a wheel is modelled: its global position, the twists it is given,
    its own dump and its deletion. */
module DTWheel {
  import opened Geometry
  import opened Diagnostics

  class Wheel {
    /** The wheel's global position, as `globalPosition()` reports it. */
    var position: Vector3
    /** Every twist angle the wheel has received, oldest first. */
    var twists: seq<real>
    /** Set once the wheel's owner has deleted it. */
    var released: bool

    constructor (p: Vector3)
      ensures position == p && twists == [] && !released
    {
      position, twists, released := p, [], false;
    }

    /** Rotates the wheel by `rad`. How this moves the wheel is the wheel's
        own business: the contract promises nothing about its position. */
    method Twist(rad: real)
      requires !released
      modifies this
      ensures twists == old(twists) + [rad]
      ensures !released
    {
      twists := twists + [rad];
    }

    /** The wheel's own diagnostic printout. */
    method Dump(out: Trace)
      requires !released
      modifies out
      ensures out.events == old(out.events) + [UnitDump(this)]
    {
      out.Write(UnitDump(this));
    }

    /** `delete`: a live wheel becomes released; deleting twice is refused. */
    method Release()
      requires !released
      modifies this
      ensures released
      ensures position == old(position) && twists == old(twists)
    {
      released := true;
    }
  }
}
