/** A client of the barrel: three wheels at z = 1, 2 and 3. */
module Scenarios {
  import opened Geometry
  import opened Diagnostics
  import opened DTWheel
  import opened MuBarrel

  /** The mean z of three points, written out. */
  lemma MeanZOfThree(a: Vector3, b: Vector3, c: Vector3)
    ensures MeanZ([a, b, c]) == (a.z + b.z + c.z) / 3.0
  {
    var ps := [a, b, c];
    assert ps[..2] == [a, b] && ps[..2][..1] == [a] && [a][..0] == [];
    assert SumZ([a]) == a.z;
    assert SumZ([a, b]) == a.z + b.z;
    assert SumZ(ps) == a.z + b.z + c.z;
  }

  /** The surface sits on the axis at the mean z; index 3 is out of range. */
  method SurfaceAndIndexing() {
    var w1 := new Wheel(Vector3(5.0, 5.0, 1.0));
    var w2 := new Wheel(Vector3(5.0, 5.0, 2.0));
    var w3 := new Wheel(Vector3(5.0, 5.0, 3.0));
    var b := new Barrel([w1, w2, w3]);
    assert Positions([w1, w2, w3]) == [w1.position, w2.position, w3.position];
    MeanZOfThree(w1.position, w2.position, w3.position);
    assert b.surface == Surface(Vector3(0.0, 0.0, 2.0), Identity);
    assert b.WheelAt(3) == Err(LogicError(3));
    assert b.WheelAt(2) == Ok(w3);
  }

  /** A twist reaches every wheel and leaves the stored surface alone. */
  method TwistKeepsSurface() {
    var w1 := new Wheel(Vector3(5.0, 5.0, 1.0));
    var w2 := new Wheel(Vector3(5.0, 5.0, 2.0));
    var w3 := new Wheel(Vector3(5.0, 5.0, 3.0));
    var b := new Barrel([w1, w2, w3]);
    var before := b.surface;
    b.Twist(0.1);
    assert b.wheels[0] == w1 && b.wheels[1] == w2 && b.wheels[2] == w3;
    assert w1.twists == [0.1] && w2.twists == [0.1] && w3.twists == [0.1];
    assert b.surface == before && b.surface.rotation == Identity;
  }

  /** The dump lists the summary, then the wheels in order; destroying
      the barrel releases every wheel. */
  method DumpThenDestroy() {
    var w1 := new Wheel(Vector3(5.0, 5.0, 1.0));
    var w2 := new Wheel(Vector3(5.0, 5.0, 2.0));
    var w3 := new Wheel(Vector3(5.0, 5.0, 3.0));
    var b := new Barrel([w1, w2, w3]);
    var out := new Trace();
    b.Dump(out);
    WheelDumpsAt(b.wheels);
    assert out.events[0] == WheelCount(3);
    assert out.events[3..] == [UnitDump(w1), UnitDump(w2), UnitDump(w3)];
    b.Destroy();
    assert b.wheels[0] == w1 && b.wheels[1] == w2 && b.wheels[2] == w3;
    assert w1.released && w2.released && w3.released;
  }
}
