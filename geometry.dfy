/** Value types of the alignable geometry: global positions, rotations and the
    surface (position plus orientation) that every alignable node exposes. */
module Geometry {

  /** A point in global Cartesian coordinates. */
  datatype Vector3 = Vector3(x: real, y: real, z: real)

  /** A rotation, stored as the rows of a 3x3 matrix. */
  datatype Rotation = Rotation(xx: real, xy: real, xz: real,
                               yx: real, yy: real, yz: real,
                               zx: real, zy: real, zz: real)

  /** The surface of an alignable: where it is and how it is turned. */
  datatype Surface = Surface(position: Vector3, rotation: Rotation)

  /** The image of `v` under the rotation `r`. */
  function Rotate(r: Rotation, v: Vector3): Vector3
  {
    Vector3(r.xx * v.x + r.xy * v.y + r.xz * v.z,
            r.yx * v.x + r.yy * v.y + r.yz * v.z,
            r.zx * v.x + r.zy * v.y + r.zz * v.z)
  }

  /** What a default-constructed rotation is: no rotation at all. */
  const Identity: Rotation := Rotation(1.0, 0.0, 0.0,
                                       0.0, 1.0, 0.0,
                                       0.0, 0.0, 1.0)

  /** Sum of the z coordinates, accumulated from the first point to the last. */
  function SumZ(ps: seq<Vector3>): real
  {
    if ps == [] then 0.0 else SumZ(ps[..|ps| - 1]) + ps[|ps| - 1].z
  }

  /** Arithmetic mean of the z coordinates of a non-empty list of points. */
  function MeanZ(ps: seq<Vector3>): real
    requires |ps| > 0
  {
    SumZ(ps) / (|ps| as real)
  }

  /** If every z lies in [lo, hi], the sum of n of them lies in [n * lo, n * hi]. */
  lemma {:induction false} SumZBounds(ps: seq<Vector3>, lo: real, hi: real)
    requires forall i :: 0 <= i < |ps| ==> lo <= ps[i].z <= hi
    ensures (|ps| as real) * lo <= SumZ(ps) <= (|ps| as real) * hi
  {
    if ps != [] {
      var init := ps[..|ps| - 1];
      assert forall i :: 0 <= i < |init| ==> init[i] == ps[i];
      SumZBounds(init, lo, hi);
      assert (|ps| as real) * lo == (|init| as real) * lo + lo;
      assert (|ps| as real) * hi == (|init| as real) * hi + hi;
    }
  }

  /** The mean z of a non-empty list lies between its smallest and largest z. */
  lemma MeanZBounds(ps: seq<Vector3>, lo: real, hi: real)
    requires |ps| > 0
    requires forall i :: 0 <= i < |ps| ==> lo <= ps[i].z <= hi
    ensures lo <= MeanZ(ps) <= hi
  {
    SumZBounds(ps, lo, hi);
    var n := |ps| as real;
    assert SumZ(ps) == MeanZ(ps) * n;
  }

  /** Points that all sit at the same z have exactly that z as their mean. */
  lemma MeanZOfCommonZ(ps: seq<Vector3>, c: real)
    requires |ps| > 0
    requires forall i :: 0 <= i < |ps| ==> ps[i].z == c
    ensures MeanZ(ps) == c
  {
    MeanZBounds(ps, c, c);
  }

  /** The z sum of a concatenation is the z sum of the first part plus that of the second. */
  lemma {:induction false} SumZAppend(a: seq<Vector3>, b: seq<Vector3>)
    ensures SumZ(a + b) == SumZ(a) + SumZ(b)
  {
    if b != [] {
      var b' := b[..|b| - 1];
      assert (a + b)[..|a + b| - 1] == a + b';
      SumZAppend(a, b');
    } else {
      assert a + b == a;
    }
  }
}
