/** The diagnostic sink that `dump` writes to, as a list of output events
    rather than formatted text. */
module Diagnostics {
  import opened Geometry

  /** One piece of diagnostic output. */
  datatype Event =
    | WheelCount(count: nat)         // "This MuBarrel contains <n> Barrel wheels"
    | PositionLine(position: Vector3) // the "(phi, r, z)" line
    | OrientationLine(rotation: Rotation)
    | UnitDump(unit: object)         // everything one child's own dump writes

  /** An output stream: the events written to it so far, oldest first. */
  class Trace {
    var events: seq<Event>

    constructor ()
      ensures events == []
    {
      events := [];
    }

    method Write(e: Event)
      modifies this
      ensures events == old(events) + [e]
    {
      events := events + [e];
    }
  }
}
