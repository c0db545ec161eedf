# Barnes–Hut octree geometry and the visualisation transforms, in Dafny

This project models the discrete part of a small Barnes–Hut N-body code and
of its two plotting scripts, and proves what their comments promise.

- **Vectors** (`vectors.dfy`): the `Vec3` value with the by-value operators
  `+`, `-`, scalar `*` on either side, `norm2` and `cross`, and a `Vec3Var`
  class for the in-place `+=`, `-=`, `*=`, which update the receiver's three
  fields and return the receiver. The other operand of `+=`/`-=` is a
  reference, so `a += a` is modelled too.
- **Regions** (`regions.dfy`): a cube given by its center and half-size,
  closed-interval `Contains`, and `ChildRegion(i)`, which reads the three
  8-entry direction tables. The default region is the constant
  `DefaultRegion` (center at the origin, half-size 0).
- **Octree** (`octree.dfy`): `GetChildIndex`, which picks the octant for a
  point with three `>=` tests; `ComputeRootRegion`, a sweep that keeps six
  running extremes starting at plus and minus infinity and then builds the
  bounding cube; and the `OctreeNode` class, whose eight child slots are an
  array, with its constructor and `IsLeaf`.
- **Simulation table** (`sim_table.dfy`, `csv_util.dfy`,
  `visualize_pcd.dfy`): the CSV is taken as already parsed, a sequence of
  `Row(step, body, x, y, z)`. `CsvToPcd` reshapes the coordinate columns into
  a `[step][body]` grid of points. `FramePoints` selects one frame.
  `FlipAxes` applies the axis flip in place on an `(N, 3)` `array2<real>`.

Doubles are modelled as exact reals. The infinities that start the min/max
sweep are modelled explicitly by the `Extended` datatype.

The flip's two column assignments first negate z and then swap the y and z
columns, so a point `(x, y, z)` becomes `(x, -z, y)`. Despite its name, this
is a quarter turn about the x axis, and it keeps orientation (`Flip`,
`FlipQuarterTurn`).

## Model

| member | source | states |
|---|---|---|
| `Vectors.ComponentwiseOperators` | src/vec3.cpp:2-12 | `a + b`, `a - b` and `a * s` act on each axis separately: every component of the result is the sum, difference or product of the operands' components on that axis |
| `Vectors.AddSubInverse` | src/vec3.cpp:2-8 | subtracting `b` undoes adding `b`, and adding `b` undoes subtracting it |
| `Vectors.ScaleCommutes` | src/vec3.cpp:10-16 | `s * a` equals `a * s` |
| `Vectors.Norm2NonNegative` | src/vec3.cpp:18-20 | the squared length is never negative |
| `Vectors.Norm2Scale` | src/vec3.cpp:10-20 | scaling a vector by `s` multiplies its squared length by `s * s` |
| `Vectors.CrossSelfZero` | src/vec3.cpp:26-32 | `cross(a, a)` is the zero vector |
| `Vectors.CrossAntiCommutative` | src/vec3.cpp:26-32 | `cross(a, b)` is `cross(b, a)` scaled by -1 |
| `Vectors.CrossOrthogonal` | src/vec3.cpp:26-32 | `cross(a, b)` has dot product 0 with `a` and with `b` |
| `Vectors.Vec3Var.constructor` | src/vec3.hpp:9-13 | a default-constructed vector holds (0, 0, 0) |
| `Vectors.Vec3Var.Of` | src/vec3.hpp:15 | the three-argument constructor stores x, y, z unchanged |
| `Vectors.Vec3Var.AddAssign` | src/vec3.hpp:17-23 | the receiver becomes the componentwise sum of its old value and the operand's old value; the receiver is returned; a different operand object is left unchanged |
| `Vectors.Vec3Var.SubAssign` | src/vec3.hpp:25-31 | the receiver becomes the componentwise difference; the receiver is returned; a different operand object is left unchanged |
| `Vectors.Vec3Var.MulAssign` | src/vec3.hpp:33-39 | the receiver becomes its old value scaled by the scalar; the receiver is returned |
| `Vectors.AddThenSubtract` | src/vec3.hpp:17-31 | `a += b; a -= b;` restores `a` and leaves `b` as it was when `b` is a different object |
| `Vectors.AddThenSubtractSelf` | src/vec3.hpp:17-31 | when both operands are the same object, `a += a; a -= a;` leaves zero rather than `a` |
| `Regions.ContainsIffWithinDistance` | src/region.hpp:19-23 | a point is contained exactly when its largest per-axis distance to the center is at most the half-size, so boundary points are inside |
| `Regions.ContainsNeedsNonNegativeSize` | src/region.hpp:19-23 | a region that contains any point has a non-negative half-size and contains its center |
| `Regions.ChildGeometry` | src/region.hpp:45-73 | child `i` has half the parent's half-size, and its center moves by that amount along each axis: positive along x exactly when bit 0 of `i` is set, along y exactly when bit 1 is set, along z exactly when bit 2 is set |
| `Regions.ChildWithinParent` | src/region.hpp:55-74 | every point of a child octant lies in the parent, for every region, every index and every point |
| `Regions.ChildCentersDistinct` | src/region.hpp:46-70 | for a parent with positive half-size, different octant indices give different child centers |
| `Octree.GetChildIndex` | src/octree_node.cpp:72-114 | the index equals (x >= cx) + 2·(y >= cy) + 4·(z >= cz), so it lies in 0..7 and a coordinate equal to the center goes right, top or front |
| `Octree.ChildIndexContainsPoint` | src/octree_node.cpp:55-114 | for a point inside a region, the child region chosen for it contains it: octant selection and `childRegion` share one numbering |
| `Octree.ChildIndexUnique` | src/octree_node.cpp:72-114 | for a point on none of the three mid-planes, the chosen octant is the only child that contains the point |
| `Octree.MinCoord` | src/octree_node.cpp:18-29 | the running minimum along an axis is at most every body's coordinate and equals some body's coordinate |
| `Octree.MaxCoord` | src/octree_node.cpp:18-29 | the running maximum along an axis is at least every body's coordinate and equals some body's coordinate |
| `Octree.Max3` | src/octree_node.cpp:43 | `std::max` of the three spans is at least each of them and is one of them |
| `Octree.RunningStep` | src/octree_node.cpp:18-29 | each body updates a running extreme exactly when it lies strictly beyond it; the first body always replaces the infinite start value |
| `Octree.RootRegionContainsAll` | src/octree_node.hpp:47-52 | the root cube of a non-empty list contains every body's position and has positive half-size |
| `Octree.RootRegionTight` | src/octree_node.cpp:31-52 | unless all bodies coincide, no smaller cube with the same center contains every body |
| `Octree.RootRegionCoincident` | src/octree_node.cpp:45-50 | when all bodies share one position, the root cube is centred there with half-size 0.5 |
| `Octree.ComputeRootRegion` | src/octree_node.cpp:9-53 | the sweep returns the cube centred on the per-axis midpoint of the extreme coordinates with half the largest span as half-size (`RootRegion`); that cube contains every body and has positive half-size |
| `Octree.OctreeNode.constructor` | src/octree_node.hpp:22-29 | a new node's bounds are the given region; it has no body, mass 0, center of mass (0, 0, 0) and eight empty child slots, which satisfies the node-shape invariant |
| `Octree.OctreeNode.IsLeaf` | src/octree_node.hpp:31-42 | the result is true exactly when all eight child slots are empty; no field changes |
| `Octree.NewNodeIsLeaf` | src/octree_node.hpp:8-42 | a freshly built node satisfies the shape invariant and `IsLeaf` reports it as a leaf |
| `SimTable.CoordColumns` | visualisation/utils/csv_util.py:6 | defined as the `x, y, z` selection: one point per row, in file order, with the coordinates unchanged (the reference that `CsvToPcdFlattens` and `FramePointsAllMatch` are proved against) |
| `CsvUtil.MaxOf` | visualisation/utils/csv_util.py:7 | `max` of a non-empty column is at least every entry and is one of them |
| `CsvUtil.Reshape` | visualisation/utils/csv_util.py:7 | reshaping `steps * bodies` points gives `steps` rows of `bodies` points each |
| `CsvUtil.FlattenReshape` | visualisation/utils/csv_util.py:7 | flattening the reshaped grid in row-major order gives the original list back |
| `CsvUtil.ReshapeAt` | visualisation/utils/csv_util.py:7 | entry `[s][b]` of the reshaped grid is element `s * bodies + b` of the list |
| `CsvUtil.CsvToPcd` | visualisation/utils/csv_util.py:4-8 | an empty table fails with `EmptyTable`; otherwise it succeeds exactly when the row count is (max step + 1)·(max body + 1), and the grid then has that shape |
| `CsvUtil.CsvToPcdFlattens` | visualisation/utils/csv_util.py:6-7 | reading the grid back in row-major order gives the coordinate columns in file order: nothing is sorted, dropped or changed |
| `CsvUtil.CsvToPcdAt` | visualisation/utils/csv_util.py:6-7 | with B bodies per step, entry `[s][b]` holds the coordinates of the row at file position `s·B + b`, whatever that row's step and body say |
| `CsvUtil.CsvToPcdGrid` | visualisation/utils/csv_util.py:5-7 | for a table in step-major, body-minor order, the entry at a row's `[step][body]` holds that row's coordinates |
| `VisualizePcd.FramePoints` | visualisation/utils/visualize_pcd.py:18-19 | a point is in the frame exactly when some row with that step has those coordinates; the frame has no more points than the table has rows |
| `VisualizePcd.FramePointsAppend` | visualisation/utils/visualize_pcd.py:18-19 | selecting from two tables joined is the same as joining their selections, so file order is kept |
| `VisualizePcd.FramePointsSingle` | visualisation/utils/visualize_pcd.py:18-19 | one row is kept, as its coordinates, exactly when its step equals the frame index |
| `VisualizePcd.FramePointsNoMatch` | visualisation/utils/visualize_pcd.py:18-19 | a frame index that no row has gives zero points rather than an error |
| `VisualizePcd.FramePointsAllMatch` | visualisation/utils/visualize_pcd.py:18-19 | when every row has the frame's step, the result is the whole coordinate column in order |
| `VisualizePcd.FlipInverse` | visualisation/utils/visualize_pcd.py:9-10 | the flip `(x, y, z) -> (x, -z, y)` has the inverse `(x, y, z) -> (x, z, -y)` |
| `VisualizePcd.FlipQuarterTurn` | visualisation/utils/visualize_pcd.py:9-10 | two flips negate y and z and four flips are the identity: the flip is a quarter turn about the x axis |
| `VisualizePcd.FlipExample` | visualisation/utils/visualize_pcd.py:9-10 | (1, 2, 3) becomes (1, -3, 2) |
| `VisualizePcd.FlipAll` | visualisation/utils/visualize_pcd.py:9-10 | defined as the pointwise flip: the same number of points, each transformed on its own (the reference that `FlipAxes` is proved against) |
| `VisualizePcd.FlipAxes` | visualisation/utils/visualize_pcd.py:9-10 | after the two column assignments, the caller's array holds, row by row, the flip of its old rows |
| `VisualizePcd.VisualizePointcloud` | visualisation/utils/visualize_pcd.py:6-14 | with the flag set, the caller's array is flipped in place; without it, the array is unchanged; the plotted positions are the array's rows |
| `VisualizePcd.VisualizeSimFrame` | visualisation/utils/visualize_pcd.py:16-20 | the plotted positions are exactly the selected frame's points, unflipped |

## Left out

- `norm` and `normalize` (src/vec3.cpp:22-24, 34-40): they use a square root and narrow to `float`.
- Floating point: rounding, NaN, infinities in the input and overflow are not modelled; doubles are exact reals.
- `Octree.ComputeRootRegion`: requires a non-empty list. On an empty list the source's extremes stay infinite and the result is a NaN center with a negative infinite half-size, which reals cannot express.
- `OctreeNode::insert` is empty in the source, and `buildOctree` and `computeForceFromNode` are declared but never defined, so there is nothing to model.
- `Octree.OctreeNode`: the `Body*` field is modelled as an optional `Body` value, so pointer identity and the body's later updates are not captured.
- The simulation itself (src/simulation.cpp, src/simulation.hpp), the random initial conditions (src/initial_conditions.cpp) and the drivers (src/main.cpp, unit_test/test_naive.cpp) are not part of this model: they are numerics, foreign random-number generation, timing and printing.
- CSV parsing (`pd.read_csv`) is not modelled: the table is given as parsed rows. The step and body columns are natural numbers, as the file format requires; numpy's treatment of negative reshape dimensions is therefore not modelled.
- `VisualizePcd.VisualizePointcloud`: the plot itself (grid, colour, point size, shader, name, display) and the cast to single precision are not modelled; the method returns the positions handed to the plot. Arrays whose second dimension is not 3 are excluded by a precondition.
- `Vectors.Norm2NonNegative`: states only non-negativity, not that the squared length is zero exactly for the zero vector.
