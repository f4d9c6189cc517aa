# Voxel space carving: a verified model

This project models the core of a shape-from-silhouette reconstructor. It has
three parts. `form_initial_voxels` builds a regular lattice of voxel centres
over an axis-aligned prism. `carve` keeps only the voxels whose projection
through one camera lands on a set pixel of that camera's silhouette.
`get_voxel_bounds` derives the prism from the camera positions, and can
refine it with a coarse carve.

Modules, one per component:

- `Geometry` (`geometry.dfy`): points, intervals, the 3x4 projection matrix,
  truncation toward zero and the 32-bit integer cast. `Span` is the source's
  `diff`.
- `Cameras` (`cameras.dfy`): the camera record (projection `P`, position `T`,
  viewing direction, silhouette), the pixel a voxel projects to, the per-voxel
  keep test `Survives`, and the colour heuristic `estimate_silhouette`.
- `Carving` (`carving.dfy`): `Carve` (one camera) and `CarveEach` (every
  camera in turn). Both are loops proved against the filter functions
  `Carved` and `CarveAll`, with lemmas about those functions.
- `VoxelGrid` (`voxel_grid.dfy`): `FormInitialVoxels`, whose three nested
  loops are `BuildGrid`, `AppendSlab` and `AppendColumn`, one loop each. They
  are proved against the lattice function `Lattice`, with lemmas on its
  layout, count and membership.
- `VoxelBounds` (`voxel_bounds.dfy`): `GetVoxelBounds` and its two stages,
  `HeuristicVoxelBounds` and `RefineBounds`, plus the z-widening loop
  `WidenZ`.

Each voxel list is a `seq<Point>` over `real` coordinates. A silhouette is a
rectangular `seq<seq<int>>` indexed `[row][col]`. Its height is the number of
rows (`shape[0]`) and its width the length of a row (`shape[1]`). Cameras are
immutable values.

Two square-root-like quantities come from the caller, stated by the
relations they satisfy:

- the cube root of the voxel volume (`side`, `coarseSide`), with
  `side * side * side * numVoxels == volume`;
- the camera range (`cameraRange`), with `range >= 0` and
  `range * range == 0.6^2 * (dx^2 + dy^2)`.

The constants 0.6 (`RangeFactor`), 1/4 (`Inset`) and the default coarse
voxel count 4000 (`CoarseVoxelCount`) are kept as named constants.

## Model

| member | source | states |
|---|---|---|
| `Geometry.Span` | main.py:10-11 | `diff` of a limit pair: upper minus lower, non-negative exactly when the pair is ordered |
| `Geometry.TruncateTowardZero` | main.py:145 | the integer is the real with its fraction dropped: `t <= r < t+1` for `r >= 0`, `t-1 < r <= t` for `r < 0` |
| `Geometry.CastToInt32` | main.py:145 | there is a result exactly when the truncated value is in the 32-bit range, and it is that value; in particular any real in `[-2^31, 2^31)` has one |
| `Cameras.ImagePixel` | main.py:144-145 | a zero depth gives no pixel; otherwise the column and row are `u/w` and `v/w` truncated toward zero, both are in the 32-bit range, and they are always defined when both real coordinates lie in `[-2^31, 2^31)` |
| `Cameras.Survives` | main.py:144-149 | the keep test: the voxel has a pixel, the column is in `[0, width)`, the row in `[0, height)`, and the mask value there is above 0 |
| `Cameras.SilhouetteEdges` | main.py:147-149 | a voxel projecting to pixel (0,0) of a set mask is kept; column -1, column `width`, row -1 or row `height` is always rejected |
| `Cameras.SurvivesInImageCoordinates` | main.py:144-149 | on the real image coordinates, a voxel is kept iff `-1 < u/w < width`, `-1 < v/w < height` and the mask is set at the truncated pixel, so coordinates in (-1, 0) still reach pixel 0 |
| `Cameras.FullSilhouetteIsFrameTest` | main.py:147-149 | with a mask set everywhere, a voxel is kept iff its pixel is inside the image frame |
| `Cameras.EmptySilhouetteRejects` | main.py:147-149 | with a mask that is zero everywhere, no voxel is kept |
| `Cameras.EstimateSilhouette` | main.py:167-168 | the mask has the image's shape and is set exactly where red exceeds both blue and green |
| `Cameras.SurvivesEstimated` | main.py:168 | carving against a heuristic mask keeps a voxel iff it projects inside the image onto a red-dominant pixel |
| `Carving.Carved` | main.py:142-150 | the filtered list is no longer than the input, and each of its voxels is an input voxel that survives |
| `Carving.Carve` | main.py:130-152 | the loop returns exactly `Carved(voxels, camera)`, the survivors in input order |
| `Carving.CarvedMembership` | main.py:142-150 | a voxel is in the result iff it is in the input and survives the camera |
| `Carving.CarvedMultiplicity` | main.py:142-150 | nothing is invented or duplicated: a survivor occurs as often as in the input, any other voxel zero times |
| `Carving.SurvivorPositionsPick` | main.py:142-150 | there is one listed position per carved voxel, and each carved voxel is the input voxel at its position |
| `Carving.SurvivorPositionsIncreasing` | main.py:142-150 | the listed positions lie inside the input and strictly increase |
| `Carving.SurvivorPositionsExact` | main.py:142-150 | an input position is listed iff the voxel there survives |
| `Carving.CarvedPositions` | main.py:142-151 | the result is a subsequence of the input; it is taken from increasing input positions, which are exactly the positions of the surviving voxels |
| `Carving.CarveIdempotent` | main.py:142-150 | carving twice with one camera equals carving once |
| `Carving.CarveCommutes` | main.py:142-150 | carving with A then B equals carving with B then A |
| `Carving.EmptySilhouetteCarvesAll` | main.py:147-150 | a camera whose silhouette is zero everywhere carves every voxel away |
| `Carving.CarveEach` | main.py:104-105 | the per-camera loop returns `CarveAll(voxels, cameras)`, each carve fed the previous result |
| `Carving.CarveAll` | main.py:104-105 | carving with each camera of the list in order, first to last; the result is no longer than the input and holds only input voxels |
| `Carving.KeptByAllMembership` | main.py:104-105 | a voxel survives the joint filter iff it is an input voxel that every camera keeps |
| `Carving.CarveAllKeepsJointSurvivors` | main.py:104-105 | carving with a camera list in sequence keeps exactly the input voxels every camera keeps, in input order |
| `Carving.CarveOrderIrrelevant` | main.py:209-210 | two camera lists holding the same cameras, in any order or with repeats, give the same result |
| `Carving.CarveAllShrinks` | main.py:209-210 | along the loop over cameras the number of surviving voxels never increases |
| `VoxelGrid.StepCount` | main.py:51-53 | the length of `np.arange(lo, hi, step)`, `ceil((hi - lo) / step)` or 0; positive exactly when `lo < hi` |
| `VoxelGrid.Axis` | main.py:51-53 | the values `lo, lo + step, ...` of `np.arange(lo, hi, step)`; their properties are `AxisExact` and `AxisRange` |
| `VoxelGrid.AxisExact` | main.py:51-53 | the i-th step `lo + i*side` is produced iff it lies below `hi` |
| `VoxelGrid.AxisRange` | main.py:51-53 | every axis value is `lo + i*side` and lies in `[lo, hi)`; one more step would reach `hi` |
| `VoxelGrid.Lattice` | main.py:50-54 | the voxel list of the three nested loops over the three axes, x outermost and z innermost; its layout and count are the `Lattice*` lemmas |
| `VoxelGrid.FormInitialVoxels` | main.py:42-56 | the returned edge satisfies `edge^3 * numVoxels == volume`, and the voxel list is the x-outer, y-middle, z-inner lattice of the prism |
| `VoxelGrid.BuildGrid` | main.py:50-54 | the outer loop over x values returns `Grid(xs, ys, zs)` |
| `VoxelGrid.AppendSlab` | main.py:52-54 | the middle loop over y values appends exactly the slab at `x` |
| `VoxelGrid.AppendColumn` | main.py:53-54 | the inner loop over z values appends exactly the column at `(x, y)` |
| `VoxelGrid.GridShape` | main.py:50-54 | the voxel from `xs[i]`, `ys[j]`, `zs[k]` sits at position `(i*|ys| + j)*|zs| + k` |
| `VoxelGrid.GridMembership` | main.py:50-54 | a point is in the grid iff each coordinate is one of its axis's values |
| `VoxelGrid.LatticeCount` | main.py:50-54 | the voxel count is `nx * ny * nz`, the product of the three axis step counts |
| `VoxelGrid.LatticeAt` | main.py:50-54 | the voxel at position `(i*ny + j)*nz + k` is `(xlo + i*side, ylo + j*side, zlo + k*side)` |
| `VoxelGrid.LatticeInPrism` | main.py:51-54 | every voxel lies in the half-open prism, with each coordinate an axis lattice value |
| `VoxelGrid.LatticeComplete` | main.py:51-54 | every lattice point `(xlo + i*side, ...)` below all three upper limits is a voxel |
| `VoxelGrid.LatticeStartsAtCorner` | main.py:51-54 | with positive spans the first voxel is `(xmin, ymin, zmin)` |
| `VoxelGrid.LatticeCountAtLeastRequested` | main.py:44-54 | with positive spans the lattice has at least `numVoxels` voxels, because the axis counts round up |
| `VoxelGrid.UnitCubeExample` | main.py:44-54 | the prism `[-1,1]^3` with 8 voxels has edge 1 (`1^3 * 8` equals its volume), 8 voxels, and first voxel `(-1,-1,-1)` |
| `VoxelBounds.MinOf` | main.py:87-89 | the result is at most every element and equal to one of them |
| `VoxelBounds.MaxOf` | main.py:87-89 | the result is at least every element and equal to one of them |
| `VoxelBounds.CameraBox` | main.py:86-89 | the per-axis `[min, max]` of the camera positions; each limit pair is ordered |
| `VoxelBounds.CameraBoxTight` | main.py:86-89 | the initial limits hold every camera position, each limit is some camera's coordinate, and `min <= max` on each axis |
| `VoxelBounds.Viewpoint` | main.py:94 | the camera position minus the camera range times the viewing direction |
| `VoxelBounds.CoverViewpoints` | main.py:93-96 | `zlim` after the loop over cameras, each widening it by min and max to its viewpoint's z; it contains the original `zlim` |
| `VoxelBounds.WidenZ` | main.py:93-96 | the loop returns `CoverViewpoints(zlim, cameras, range)` |
| `VoxelBounds.CoverViewpointsSpan` | main.py:93-96 | the widened z contains the old z and every viewpoint's z, and each end is the old end or some viewpoint's z |
| `VoxelBounds.ShrinkQuarter` | main.py:99-100 | the span is halved, the midpoint is kept, and a proper interval stays proper and inside the original |
| `VoxelBounds.IsCameraRange` | main.py:92 | the camera range is non-negative and its square is `0.6^2` times the sum of the squared x and y extents |
| `VoxelBounds.HeuristicBounds` | main.py:86-100 | camera box, z widened to the viewpoints, x and y shrunk by a quarter on each side; all three limit pairs are ordered |
| `VoxelBounds.HeuristicBoundsShape` | main.py:86-100 | all three limits are proper intervals; x and y are the middle half of the camera extent; z covers every camera z and viewpoint z, and each end is one of them |
| `VoxelBounds.HeuristicVoxelBounds` | main.py:86-100 | the first stage returns `HeuristicBounds(cameras, range)` |
| `VoxelBounds.RefineBounds` | main.py:102-109 | a flat prism fails; otherwise an empty coarse carve fails, and any other coarse carve gives the survivors' extent padded by one voxel edge |
| `VoxelBounds.GetVoxelBounds` | main.py:85-114 | no cameras fails; without refinement the result is the heuristic bounds; with refinement it is `RefineBounds` applied to them |
| `VoxelBounds.BoxAround` | main.py:107-109 | the per-axis min and max of the voxels, widened by `pad` on both sides, so each limit pair is at least `2*pad` apart |
| `VoxelBounds.BoxAroundMargin` | main.py:107-109 | every voxel lies at least `pad` inside the padded box on every side, and on every side some voxel lies exactly `pad` inside |
| `VoxelBounds.RefinedBoundsKeepMargin` | main.py:102-109 | after refinement the bounds are proper, and every coarse survivor lies at least one voxel edge inside them on every side |
| `VoxelBounds.CoarseSurvivorsInPrism` | main.py:102-105 | every coarse survivor lies in the heuristic prism and is kept by every camera |

## Left out

- Loading camera data, argument parsing, plotting and the `__main__` driver
  (main.py:171-211) are I/O and orchestration. Only the driver's per-camera
  loop is modelled, by `CarveEach`.
- The `Camera` class and `get_camera_direction` are in `camera.py`, which is
  not part of this model. A camera is an immutable record, and its viewing
  direction is a field supplied by the caller.
- The `Tmat`/`Rmat`/`P` construction at main.py:136-140 is computed and never
  used, so it is not modelled. Carving uses the camera's `P`.
- All arithmetic is exact real arithmetic, not float64. `np.arange`
  accumulation error, rounding in the perspective division, and NaN or
  infinity values are not modelled.
- `np.cbrt` and `np.sqrt` are replaced by caller-supplied values that satisfy
  exact relations (`side`, `coarseSide`, `cameraRange`).
- `Cameras.ImagePixel`: a zero depth, or a coordinate whose truncation has no
  32-bit value, gives no pixel, so the voxel is rejected. numpy's cast of such
  values is platform-defined. On x86 it gives -2^31, which the bounds test
  also rejects.
- `VoxelGrid.FormInitialVoxels` requires a positive edge whose cube times
  `numVoxels` is the prism volume. A zero or negative volume would give a step
  that is not positive, and that case is not modelled.
- `VoxelBounds.GetVoxelBounds` has no default arguments. Callers pass
  `estimateBetterBounds` (default false in the source) and `numVoxels`
  (default 4000 in the source, kept as the constant `CoarseVoxelCount`).
- `numVoxels` is a positive integer. The source also accepts a float such as
  `6e6`.
- `VoxelBounds.GetVoxelBounds` returns a `Failure` value in three cases where
  the source raises an exception:
  - an empty camera list, whose positions have no minimum;
  - a coarse prism with a zero-span axis, where `np.arange` gets a zero step;
  - an empty coarse carve, whose voxel array cannot be indexed by column.
- `VoxelBounds.HeuristicVoxelBounds` and `VoxelBounds.GetVoxelBounds` take the
  camera range as an input. Their `requires` ties it to the camera extent
  through its square.
- Conversions to float64 and int32 ndarrays are not modelled. Results are
  sequences of exact points.
