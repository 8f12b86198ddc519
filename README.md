# Muon barrel alignable, modelled in Dafny

`AlignableMuBarrel` is the composite alignable for the muon barrel of a
detector's alignment geometry. It owns an ordered list of DT wheels, derives
its own surface (position and orientation) from them once, when it is built,
hands every twist on to its wheels, prints a recursive diagnostic dump, and
deletes its wheels when it is destroyed.

The model has five modules:

- `Geometry` (`geometry.dfy`): positions (`Vector3`), rotations as 3x3 real
  matrices, `Surface`, the identity rotation, and the z sum and mean that the
  surface rule uses, with lemmas about them.
- `Diagnostics` (`diagnostics.dfy`): the output stream as a `Trace` object
  that records a list of `Event`s instead of text.
- `DTWheel` (`dt_wheel.dfy`): a stand-in for the wheel class. Its real code is
  not part of this model. The stand-in has a global position, a log of the
  twist angles it has received, a release flag that stands for `delete`, and
  a dump that writes one event naming the wheel. Its `Twist` promises nothing
  about the wheel's position, so the barrel's proofs cannot assume a twist
  leaves a wheel where it was.
- `MuBarrel` (`mu_barrel.dfy`): the `Barrel` class with fields `wheels`
  (`theDTWheels`) and `surface`. A ghost field `initialPositions` records the
  wheel positions the surface was computed from. `Valid()` keeps five facts:
  there is at least one wheel, the wheels are distinct, none is released,
  `initialPositions` has one entry per wheel, and the stored surface is the
  surface rule applied to `initialPositions`.
- `Scenarios` (`scenarios.dfy`): three client methods. They build barrels from
  three wheels at z = 1, 2 and 3 and asserts five things. The surface is
  (0, 0, 2). `WheelAt(3)` fails and `WheelAt(2)` is the third wheel. A twist
  reaches every wheel and leaves the surface as it was. The dump lists the
  wheels in order. Destroying the barrel releases every wheel.

The key property is an asymmetry. `Twist` changes every wheel, yet the
stored surface stays exactly what the constructor computed.

## Model

| member | source | states |
|---|---|---|
| `MuBarrel.Barrel.constructor` | src/AlignableMuBarrel.cc:5-12 | the wheel list is the given list, same length and order; the stored surface is at (0, 0, mean z of the given wheels) with the identity orientation; the barrel is valid (non-empty, distinct, live wheels) |
| `MuBarrel.Barrel.ComputePosition` | src/AlignableMuBarrel.cc:48-61 | the loop's accumulated z, divided by the wheel count, is the exact mean of the wheels' z; x and y are 0 |
| `MuBarrel.Barrel.ComputeOrientation` | src/AlignableMuBarrel.cc:65-68 | the orientation is the default rotation, which maps every vector to itself, whatever the wheels are |
| `MuBarrel.Barrel.ComputeSurface` | src/AlignableMuBarrel.cc:38-43 | the surface pairs the computed position (on the axis, x = y = 0) with an orientation that moves no vector |
| `MuBarrel.Barrel.WheelAt` | src/AlignableMuBarrel.cc:25-33 | fails with a LogicError carrying `i` exactly when `i >= size()`; otherwise returns the i-th wheel, which is the i-th wheel given at construction |
| `MuBarrel.Barrel.Twist` | src/AlignableMuBarrel.cc:72-79 | every wheel receives the angle exactly once; the wheel list and the stored surface are unchanged; the barrel stays valid |
| `MuBarrel.Barrel.WriteSummary` | src/AlignableMuBarrel.cc:85-94 | writes the wheel count, then the barrel's position, then its orientation |
| `MuBarrel.Barrel.Dump` | src/AlignableMuBarrel.cc:98-106 | writes the barrel's summary first, then each wheel's own dump in wheel order |
| `MuBarrel.WheelDumpsAt` | src/AlignableMuBarrel.cc:102-104 | the k-th event after the summary is the k-th wheel's dump, and there is one per wheel |
| `MuBarrel.WheelDumpedOnce` | src/AlignableMuBarrel.cc:102-104 | for distinct wheels, each wheel's dump occurs exactly once and no other unit's occurs |
| `MuBarrel.Barrel.Destroy` | src/AlignableMuBarrel.cc:16-22 | every wheel is released; none is released twice (releasing needs a live wheel); afterwards the barrel is no longer valid |
| `Geometry.SumZBounds` | src/AlignableMuBarrel.cc:51-55 | if every z lies in [lo, hi], the accumulated sum of n of them lies in [n*lo, n*hi] |
| `Geometry.MeanZBounds` | src/AlignableMuBarrel.cc:51-57 | the barrel's z lies between the smallest and the largest wheel z |
| `Geometry.MeanZOfCommonZ` | src/AlignableMuBarrel.cc:51-57 | if all wheels sit at the same z, the barrel sits at that z |
| `Geometry.SumZAppend` | src/AlignableMuBarrel.cc:53-55 | the accumulated sum over a concatenation is the sum of the parts' sums |

## Left out

- Empty wheel list: the source divides by `size()` with nothing to stop a zero count, which gives a float NaN. The model makes at least one wheel a constructor precondition: callers must pass at least one wheel, since the mean divides by the count.
- Distinct, live wheels are also constructor preconditions. The barrel takes ownership of them, and a wheel listed twice would be deleted twice by the destructor.
- `MuBarrel.Barrel.WheelAt`: a negative index is a precondition. The source does not check it, and indexing the vector with it is undefined behaviour.
- Single-precision rounding in the z accumulation is not modelled. Positions are `real`, and the mean is stated exactly.
- The `phi()`/`perp()` rendering and the text formatting of `operator<<` are left out. Only the order and content of the output events are modelled. The position event carries the barrel's position vector.
- The barrel's `globalPosition()` and `globalRotation()` come from a base class that is not part of this model. They are taken to be the stored surface's position and rotation.
- Wheel internals are not part of this model: `twist`, `dump`, `globalPosition` and deletion of its own children. The stand-in wheel records the twist angle and promises nothing about its position.
- `MuBarrel.Barrel.Twist`: the model does not record the order in which the wheels are twisted. Wheels share no state in the model, so only "each wheel exactly once" is observable.
- `MuBarrel.Barrel.Destroy`: the model does not record the order in which the wheels are deleted; it states only that every wheel ends up released, and that none is released twice.
- Memory management is modelled as a release flag, not as freeing heap objects.
- No operation recomputes the surface after a twist, because the source has none.
- The database copy module and the analyzer module (with its tree output) are not part of this model.
