/** The muon barrel: a composite alignable that owns an ordered list of DT
    wheels, derives its surface from them once, passes twists on to them,
    prints itself and them, and deletes them when it goes. */
module MuBarrel {
  import opened Geometry
  import opened Diagnostics
  import opened DTWheel

  /** The exception `wheel(i)` throws: category "LogicError", carrying `i`. */
  datatype Error = LogicError(index: int)

  datatype Result<T> = Ok(value: T) | Err(error: Error)

  /** No wheel appears twice: each child has exactly one place in its owner. */
  ghost predicate Distinct(ws: seq<Wheel>)
  {
    forall i, j :: 0 <= i < j < |ws| ==> ws[i] != ws[j]
  }

  /** The global positions of the wheels, in wheel order. */
  ghost function Positions(ws: seq<Wheel>): (ps: seq<Vector3>)
    reads ws
    ensures |ps| == |ws|
    ensures forall i :: 0 <= i < |ws| ==> ps[i] == ws[i].position
  {
    seq(|ws|, i requires 0 <= i < |ws| reads ws => ws[i].position)
  }

  /** The surface rule of the barrel, on the wheels' positions: on the axis
      (x = y = 0) at the mean z, with the default orientation. */
  ghost function AggregateSurface(ps: seq<Vector3>): Surface
    requires |ps| > 0
  {
    Surface(Vector3(0.0, 0.0, MeanZ(ps)), Identity)
  }

  /** What one `dump` of the given wheels, in order, writes. */
  function WheelDumps(ws: seq<Wheel>): seq<Event>
  {
    if ws == [] then [] else WheelDumps(ws[..|ws| - 1]) + [UnitDump(ws[|ws| - 1])]
  }

  /** The k-th event of the wheels' dumps is the k-th wheel's dump. */
  lemma {:induction false} WheelDumpsAt(ws: seq<Wheel>)
    ensures |WheelDumps(ws)| == |ws|
    ensures forall k :: 0 <= k < |ws| ==> WheelDumps(ws)[k] == UnitDump(ws[k])
  {
    if ws != [] {
      var init := ws[..|ws| - 1];
      WheelDumpsAt(init);
      assert forall k :: 0 <= k < |init| ==> init[k] == ws[k];
    }
  }

  /** Of distinct wheels each one is dumped exactly once, and no other unit is. */
  lemma {:induction false} WheelDumpedOnce(ws: seq<Wheel>, u: object)
    requires Distinct(ws)
    ensures multiset(WheelDumps(ws))[UnitDump(u)] == if u in ws then 1 else 0
  {
    if ws != [] {
      var init := ws[..|ws| - 1];
      var last := ws[|ws| - 1];
      assert Distinct(init) by {
        forall i, j | 0 <= i < j < |init| ensures init[i] != init[j] {
          assert init[i] == ws[i] && init[j] == ws[j];
        }
      }
      WheelDumpedOnce(init, u);
      assert ws == init + [last];
      assert last !in init by {
        forall k | 0 <= k < |init| ensures init[k] != last {
          assert init[k] == ws[k];
        }
      }
      assert multiset(WheelDumps(ws)) == multiset(WheelDumps(init)) + multiset{UnitDump(last)};
      assert u in ws <==> u in init || u == last;
    }
  }

  class Barrel {
    /** The wheels, in the order given at construction (`theDTWheels`). */
    var wheels: seq<Wheel>
    /** The surface stored by the constructor. */
    var surface: Surface
    /** The wheels' positions at construction, from which `surface` was computed. */
    ghost const initialPositions: seq<Vector3>

    /** The barrel owns at least one distinct, live wheel, and its surface is
        the surface rule applied to the positions the wheels had when it was built. */
    ghost predicate Valid()
      reads this, wheels
    {
      && |wheels| > 0
      && Distinct(wheels)
      && (forall i :: 0 <= i < |wheels| ==> !wheels[i].released)
      && |initialPositions| == |wheels|
      && surface == AggregateSurface(initialPositions)
    }

    /** Copies the wheels in order and stores the surface computed from them. */
    constructor (dtWheels: seq<Wheel>)
      requires |dtWheels| > 0
      requires Distinct(dtWheels)
      requires forall i :: 0 <= i < |dtWheels| ==> !dtWheels[i].released
      ensures Valid()
      ensures wheels == dtWheels
      ensures initialPositions == Positions(dtWheels)
      ensures surface.position == Vector3(0.0, 0.0, MeanZ(Positions(dtWheels)))
      ensures surface.rotation == Identity
    {
      wheels := dtWheels;
      initialPositions := Positions(dtWheels);
      new;
      surface := ComputeSurface();
      assert Positions(wheels) == initialPositions;
    }

    /** Number of wheels. */
    function Size(): nat
      reads this
    {
      |wheels|
    }

    /** `wheel(i)`: the i-th wheel, or a LogicError carrying `i` past the end.
        A negative index is not checked by the barrel and is not allowed. */
    function WheelAt(i: int): (r: Result<Wheel>)
      requires 0 <= i
      reads this
      ensures r.Err? <==> i >= |wheels|
      ensures r.Err? ==> r.error == LogicError(i)
      ensures r.Ok? ==> i < |wheels| && r.value == wheels[i]
    {
      if i >= Size() then Err(LogicError(i)) else Ok(wheels[i])
    }

    /** Position on the axis at the mean z of the wheels' current positions. */
    method ComputePosition() returns (p: Vector3)
      requires |wheels| > 0
      ensures p == Vector3(0.0, 0.0, MeanZ(Positions(wheels)))
    {
      ghost var ps := Positions(wheels);
      var zz := 0.0;
      var i := 0;
      while i < |wheels|
        invariant 0 <= i <= |wheels|
        invariant zz == SumZ(ps[..i])
      {
        assert ps[..i + 1][..i] == ps[..i];
        zz := zz + wheels[i].position.z;
        i := i + 1;
      }
      assert ps[..i] == ps;
      zz := zz / (|wheels| as real);
      p := Vector3(0.0, 0.0, zz);
    }

    /** The default orientation, whatever the wheels are: it moves no vector. */
    function ComputeOrientation(): (r: Rotation)
      ensures forall v :: Rotate(r, v) == v
    {
      Identity
    }

    /** The surface rule applied to the wheels' current positions. */
    method ComputeSurface() returns (s: Surface)
      requires |wheels| > 0
      ensures s == AggregateSurface(Positions(wheels))
      ensures s.position.x == 0.0 && s.position.y == 0.0
      ensures forall v :: Rotate(s.rotation, v) == v
    {
      var p := ComputePosition();
      s := Surface(p, ComputeOrientation());
    }

    /** Twists every wheel by `rad`, once each; the stored surface is not
        recomputed, whatever the twists did to the wheels. */
    method Twist(rad: real)
      requires Valid()
      modifies wheels
      ensures Valid()
      ensures wheels == old(wheels) && surface == old(surface)
      ensures forall i :: 0 <= i < |wheels| ==> wheels[i].twists == old(wheels[i].twists) + [rad]
    {
      var i := 0;
      while i < |wheels|
        invariant 0 <= i <= |wheels|
        invariant forall j :: 0 <= j < i ==> wheels[j].twists == old(wheels[j].twists) + [rad]
        invariant forall j :: i <= j < |wheels| ==> wheels[j].twists == old(wheels[j].twists)
        invariant forall j :: 0 <= j < |wheels| ==> !wheels[j].released
      {
        wheels[i].Twist(rad);
        i := i + 1;
      }
    }

    /** What `operator<<` writes for the barrel: the wheel count, then the
        barrel's position, then its orientation. */
    function SummaryLines(): seq<Event>
      reads this
    {
      [WheelCount(|wheels|), PositionLine(surface.position), OrientationLine(surface.rotation)]
    }

    /** `operator<<`: writes the summary to `out`. */
    method WriteSummary(out: Trace)
      modifies out
      ensures out.events == old(out.events) + SummaryLines()
    {
      out.Write(WheelCount(|wheels|));
      out.Write(PositionLine(surface.position));
      out.Write(OrientationLine(surface.rotation));
    }

    /** Writes the barrel's summary, then each wheel's own dump, in wheel order. */
    method Dump(out: Trace)
      requires Valid()
      modifies out
      ensures out.events == old(out.events) + SummaryLines() + WheelDumps(wheels)
    {
      WriteSummary(out);
      var i := 0;
      while i < |wheels|
        invariant 0 <= i <= |wheels|
        invariant out.events == old(out.events) + SummaryLines() + WheelDumps(wheels[..i])
      {
        assert wheels[..i + 1][..i] == wheels[..i];
        wheels[i].Dump(out);
        i := i + 1;
      }
      assert wheels[..i] == wheels;
    }

    /** The destructor: deletes every wheel, each exactly once. Afterwards the
        barrel is no longer valid to use. */
    method Destroy()
      requires Valid()
      modifies wheels
      ensures forall i :: 0 <= i < |wheels| ==> wheels[i].released
      ensures !Valid()
    {
      var i := 0;
      while i < |wheels|
        invariant 0 <= i <= |wheels|
        invariant forall j :: 0 <= j < i ==> wheels[j].released
        invariant forall j :: i <= j < |wheels| ==> !wheels[j].released
      {
        wheels[i].Release();
        i := i + 1;
      }
      assert wheels[0].released;
    }
  }
}
