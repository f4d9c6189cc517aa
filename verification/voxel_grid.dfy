/** The initial lattice of voxels over an axis-aligned prism. */
module VoxelGrid {
  import opened Geometry

  /** The smallest integer not below `r`. */
  function Ceiling(r: real): (n: int)
    ensures r <= n as real < r + 1.0
  {
    -((-r).Floor)
  }

  /** How many values `np.arange(lo, hi, step)` yields: none when `hi <= lo`,
      otherwise `ceil((hi - lo) / step)`. */
  function StepCount(lo: real, hi: real, step: real): (n: nat)
    requires step > 0.0
    ensures n > 0 <==> lo < hi
  {
    if hi <= lo then 0 else Ceiling((hi - lo) / step)
  }

  /** The values `lo, lo + step, lo + 2*step, ...` below `hi`. */
  function Axis(lo: real, hi: real, step: real): (xs: seq<real>)
    requires step > 0.0
  {
    seq(StepCount(lo, hi, step), i requires 0 <= i => lo + (i as real) * step)
  }

  /** The i-th lattice value is produced exactly when it lies below `hi`. */
  lemma AxisExact(lo: real, hi: real, step: real, i: nat)
    requires step > 0.0
    ensures i < StepCount(lo, hi, step) <==> lo + (i as real) * step < hi
  {
    var ir := i as real;
    if lo < hi {
      var q := (hi - lo) / step;
      assert q * step == hi - lo;
      if ir < q {
        assert ir * step < q * step;
      } else {
        assert ir * step >= q * step;
      }
    } else {
      assert ir * step >= 0.0;
    }
  }

  /** Every produced value lies in `[lo, hi)` and is `lo` plus a whole number
      of steps; the next lattice value would reach `hi`. */
  lemma AxisRange(lo: real, hi: real, step: real)
    requires step > 0.0
    ensures var xs := Axis(lo, hi, step);
      (forall i :: 0 <= i < |xs| ==> xs[i] == lo + (i as real) * step && lo <= xs[i] < hi)
      && hi <= lo + (|xs| as real) * step
  {
    var xs := Axis(lo, hi, step);
    forall i | 0 <= i < |xs|
      ensures lo <= xs[i] < hi
    {
      AxisExact(lo, hi, step, i);
      assert (i as real) * step >= 0.0;
    }
    AxisExact(lo, hi, step, |xs|);
  }

  /** The voxels `(x, y, z)` for each `z` of `zs`, in order. */
  function Column(x: real, y: real, zs: seq<real>): seq<Point>
  {
    seq(|zs|, k requires 0 <= k < |zs| => Point(x, y, zs[k]))
  }

  /** For each `y` of `ys` in turn, the column at `(x, y)`. */
  function Slab(x: real, ys: seq<real>, zs: seq<real>): seq<Point>
  {
    if ys == [] then []
    else Slab(x, ys[..|ys| - 1], zs) + Column(x, ys[|ys| - 1], zs)
  }

  /** For each `x` of `xs` in turn, the slab at `x`: x outermost, z innermost. */
  function Grid(xs: seq<real>, ys: seq<real>, zs: seq<real>): seq<Point>
  {
    if xs == [] then []
    else Grid(xs[..|xs| - 1], ys, zs) + Slab(xs[|xs| - 1], ys, zs)
  }

  function Volume(xlim: Interval, ylim: Interval, zlim: Interval): real
  {
    Span(xlim) * Span(ylim) * Span(zlim)
  }

  /** The lattice of the prism `xlim x ylim x zlim` with spacing `step`. */
  function Lattice(xlim: Interval, ylim: Interval, zlim: Interval, step: real): seq<Point>
    requires step > 0.0
  {
    Grid(Axis(xlim.lo, xlim.hi, step), Axis(ylim.lo, ylim.hi, step), Axis(zlim.lo, zlim.hi, step))
  }

  /** Builds the voxel lattice over the prism: the voxel volume is the prism
      volume over `numVoxels`, the edge `side` is its cube root (supplied by the
      caller), and x, y, z each step from the lower limit while below the
      upper one, x in the outer loop and z in the inner one. */
  method FormInitialVoxels(xlim: Interval, ylim: Interval, zlim: Interval, numVoxels: nat, side: real)
    returns (voxels: seq<Point>, voxelSize: real)
    requires numVoxels > 0
    requires side > 0.0 && side * side * side * (numVoxels as real) == Volume(xlim, ylim, zlim)
    ensures voxelSize == side
    ensures voxelSize * voxelSize * voxelSize * (numVoxels as real) == Volume(xlim, ylim, zlim)
    ensures voxels == Lattice(xlim, ylim, zlim, voxelSize)
  {
    var gridVolume := Volume(xlim, ylim, zlim);
    var voxelVolume := gridVolume / (numVoxels as real);
    DivideShare(side * side * side, numVoxels as real, gridVolume);
    voxelSize := side;
    assert voxelSize * voxelSize * voxelSize == voxelVolume;
    voxels := BuildGrid(Axis(xlim.lo, xlim.hi, voxelSize), Axis(ylim.lo, ylim.hi, voxelSize),
      Axis(zlim.lo, zlim.hi, voxelSize));
  }

  /** The three nested loops of the lattice construction: x outermost, z
      innermost, one voxel appended per innermost step. The two inner loops
      are `AppendSlab` and `AppendColumn`. */
  method BuildGrid(xs: seq<real>, ys: seq<real>, zs: seq<real>) returns (voxels: seq<Point>)
    ensures voxels == Grid(xs, ys, zs)
  {
    voxels := [];
    for i := 0 to |xs|
      invariant voxels == Grid(xs[..i], ys, zs)
    {
      voxels := AppendSlab(voxels, xs[i], ys, zs);
      GridSnoc(xs, ys, zs, i);
    }
    assert xs[..|xs|] == xs;
  }

  /** The middle loop: for each `y`, the innermost loop over `zs`. */
  method AppendSlab(prefix: seq<Point>, x: real, ys: seq<real>, zs: seq<real>) returns (voxels: seq<Point>)
    ensures voxels == prefix + Slab(x, ys, zs)
  {
    voxels := prefix;
    for j := 0 to |ys|
      invariant voxels == prefix + Slab(x, ys[..j], zs)
    {
      voxels := AppendColumn(voxels, x, ys[j], zs);
      SlabSnoc(x, ys, zs, j);
    }
    assert ys[..|ys|] == ys;
  }

  /** The innermost loop: one voxel `(x, y, z)` appended for each `z`. */
  method AppendColumn(prefix: seq<Point>, x: real, y: real, zs: seq<real>) returns (voxels: seq<Point>)
    ensures voxels == prefix + Column(x, y, zs)
  {
    voxels := prefix;
    for k := 0 to |zs|
      invariant voxels == prefix + Column(x, y, zs[..k])
    {
      ColumnSnoc(x, y, zs, k);
      voxels := voxels + [Point(x, y, zs[k])];
    }
    assert zs[..|zs|] == zs;
  }

  lemma ColumnSnoc(x: real, y: real, zs: seq<real>, k: nat)
    requires k < |zs|
    ensures Column(x, y, zs[..k + 1]) == Column(x, y, zs[..k]) + [Point(x, y, zs[k])]
  {
  }

  lemma SlabSnoc(x: real, ys: seq<real>, zs: seq<real>, j: nat)
    requires j < |ys|
    ensures Slab(x, ys[..j + 1], zs) == Slab(x, ys[..j], zs) + Column(x, ys[j], zs)
  {
    assert ys[..j + 1][..j] == ys[..j];
  }

  lemma GridSnoc(xs: seq<real>, ys: seq<real>, zs: seq<real>, i: nat)
    requires i < |xs|
    ensures Grid(xs[..i + 1], ys, zs) == Grid(xs[..i], ys, zs) + Slab(xs[i], ys, zs)
  {
    assert xs[..i + 1][..i] == xs[..i];
  }

  lemma DivideShare(c: real, n: real, v: real)
    requires n > 0.0 && c * n == v
    ensures c == v / n
  {
  }

  lemma {:induction false} SlabAt(x: real, ys: seq<real>, zs: seq<real>, j: nat, k: nat)
    requires j < |ys| && k < |zs|
    ensures Pos(j, |zs|, k) < |Slab(x, ys, zs)|
    ensures Slab(x, ys, zs)[Pos(j, |zs|, k)] == Point(x, ys[j], zs[k])
    decreases |ys|
  {
    var n := |ys| - 1;
    var init := ys[..n];
    var nz := |zs|;
    SlabLength(x, init, zs);
    MulSucc(j, nz);
    if j < n {
      SlabAt(x, init, zs, j, k);
      MulMonotone(j + 1, n, nz);
    } else {
      assert Column(x, ys[n], zs)[k] == Point(x, ys[n], zs[k]);
    }
  }

  lemma {:induction false} SlabLength(x: real, ys: seq<real>, zs: seq<real>)
    ensures |Slab(x, ys, zs)| == |ys| * |zs|
    decreases |ys|
  {
    if ys != [] {
      SlabLength(x, ys[..|ys| - 1], zs);
      MulSucc(|ys| - 1, |zs|);
    }
  }

  lemma {:induction false} GridLength(xs: seq<real>, ys: seq<real>, zs: seq<real>)
    ensures |Grid(xs, ys, zs)| == |xs| * (|ys| * |zs|)
    decreases |xs|
  {
    if xs != [] {
      GridLength(xs[..|xs| - 1], ys, zs);
      SlabLength(xs[|xs| - 1], ys, zs);
      MulSucc(|xs| - 1, |ys| * |zs|);
    }
  }

  lemma MulSucc(n: nat, m: nat)
    ensures (n + 1) * m == n * m + m
  {
  }

  lemma MulMonotone(a: nat, b: nat, m: nat)
    requires a <= b
    ensures a * m <= b * m
  {
  }

  /** Position `i * (|ys| * |zs|) + off` of the grid is position `off` of the
      slab built from `xs[i]`. */
  lemma {:induction false} GridAt(xs: seq<real>, ys: seq<real>, zs: seq<real>, i: nat, off: nat)
    requires i < |xs| && off < |ys| * |zs|
    ensures |Slab(xs[i], ys, zs)| == |ys| * |zs|
    ensures Pos(i, |ys| * |zs|, off) < |Grid(xs, ys, zs)|
    ensures Grid(xs, ys, zs)[Pos(i, |ys| * |zs|, off)] == Slab(xs[i], ys, zs)[off]
    decreases |xs|
  {
    var n := |xs| - 1;
    var init := xs[..n];
    var m := |ys| * |zs|;
    GridLength(init, ys, zs);
    SlabLength(xs[n], ys, zs);
    SlabLength(xs[i], ys, zs);
    MulSucc(i, m);
    if i < n {
      GridAt(init, ys, zs, i, off);
      MulMonotone(i + 1, n, m);
    }
  }

  /** The voxel built from `xs[i]`, `ys[j]`, `zs[k]` sits at position
      `(i * |ys| + j) * |zs| + k`: x outermost, y in the middle, z innermost. */
  lemma GridShape(xs: seq<real>, ys: seq<real>, zs: seq<real>, i: nat, j: nat, k: nat)
    requires i < |xs| && j < |ys| && k < |zs|
    ensures Offset(i, j, k, |ys|, |zs|) < |Grid(xs, ys, zs)|
    ensures Grid(xs, ys, zs)[Offset(i, j, k, |ys|, |zs|)] == Point(xs[i], ys[j], zs[k])
  {
    var ny, nz := |ys|, |zs|;
    SlabAt(xs[i], ys, zs, j, k);
    SlabLength(xs[i], ys, zs);
    IndexForm(i, j, k, ny, nz);
    GridAt(xs, ys, zs, i, Pos(j, nz, k));
  }

  /** Position `off` within the i-th of consecutive blocks of length `m`. */
  function Pos(i: nat, m: nat, off: nat): nat
  {
    i * m + off
  }

  /** The position `(i * ny + j) * nz + k` of the voxel built from the i-th x,
      the j-th y and the k-th z value, when there are `ny` y and `nz` z values. */
  function Offset(i: nat, j: nat, k: nat, ny: nat, nz: nat): nat
  {
    (i * ny + j) * nz + k
  }

  lemma IndexForm(i: nat, j: nat, k: nat, ny: nat, nz: nat)
    ensures Offset(i, j, k, ny, nz) == Pos(i, ny * nz, Pos(j, nz, k))
  {
  }

  lemma {:induction false} SlabMembership(x: real, ys: seq<real>, zs: seq<real>, p: Point)
    ensures p in Slab(x, ys, zs) <==> p.x == x && p.y in ys && p.z in zs
    decreases |ys|
  {
    if ys != [] {
      var init := ys[..|ys| - 1];
      SlabMembership(x, init, zs, p);
      assert ys == init + [ys[|ys| - 1]];
      if p.z in zs {
        var k :| 0 <= k < |zs| && zs[k] == p.z;
        assert Column(x, ys[|ys| - 1], zs)[k] == Point(x, ys[|ys| - 1], p.z);
      }
    }
  }

  /** A point belongs to the grid exactly when each coordinate is one of the
      values of its axis. */
  lemma {:induction false} GridMembership(xs: seq<real>, ys: seq<real>, zs: seq<real>, p: Point)
    ensures p in Grid(xs, ys, zs) <==> p.x in xs && p.y in ys && p.z in zs
    decreases |xs|
  {
    if xs != [] {
      var init := xs[..|xs| - 1];
      GridMembership(init, ys, zs, p);
      SlabMembership(xs[|xs| - 1], ys, zs, p);
      assert xs == init + [xs[|xs| - 1]];
    }
  }

  /** The lattice holds as many voxels as the three axis counts multiplied. */
  lemma LatticeCount(xlim: Interval, ylim: Interval, zlim: Interval, side: real)
    requires side > 0.0
    ensures |Lattice(xlim, ylim, zlim, side)|
      == StepCount(xlim.lo, xlim.hi, side) * StepCount(ylim.lo, ylim.hi, side) * StepCount(zlim.lo, zlim.hi, side)
  {
    var xs := Axis(xlim.lo, xlim.hi, side);
    var ys := Axis(ylim.lo, ylim.hi, side);
    var zs := Axis(zlim.lo, zlim.hi, side);
    GridLength(xs, ys, zs);
    MulAssoc(|xs|, |ys|, |zs|);
  }

  lemma MulAssoc(a: nat, b: nat, c: nat)
    ensures a * (b * c) == a * b * c
  {
  }

  /** The voxel at position `(i * ny + j) * nz + k` is
      `(xlo + i*side, ylo + j*side, zlo + k*side)`: the voxels come in x, y, z
      nesting order, each axis stepping up from its lower limit. */
  lemma LatticeAt(xlim: Interval, ylim: Interval, zlim: Interval, side: real, i: nat, j: nat, k: nat)
    requires side > 0.0
    requires i < StepCount(xlim.lo, xlim.hi, side)
    requires j < StepCount(ylim.lo, ylim.hi, side)
    requires k < StepCount(zlim.lo, zlim.hi, side)
    ensures var ny, nz := StepCount(ylim.lo, ylim.hi, side), StepCount(zlim.lo, zlim.hi, side);
      Offset(i, j, k, ny, nz) < |Lattice(xlim, ylim, zlim, side)|
      && Lattice(xlim, ylim, zlim, side)[Offset(i, j, k, ny, nz)]
         == Point(xlim.lo + (i as real) * side, ylim.lo + (j as real) * side, zlim.lo + (k as real) * side)
  {
    var xs := Axis(xlim.lo, xlim.hi, side);
    var ys := Axis(ylim.lo, ylim.hi, side);
    var zs := Axis(zlim.lo, zlim.hi, side);
    assert |ys| == StepCount(ylim.lo, ylim.hi, side) && |zs| == StepCount(zlim.lo, zlim.hi, side);
    assert xs[i] == xlim.lo + (i as real) * side;
    assert ys[j] == ylim.lo + (j as real) * side;
    assert zs[k] == zlim.lo + (k as real) * side;
    GridShape(xs, ys, zs, i, j, k);
  }

  /** Every lattice voxel lies in the half-open prism `[lo, hi)` on each axis,
      and each of its coordinates is its axis's lower limit plus a whole number
      of steps. */
  lemma LatticeInPrism(xlim: Interval, ylim: Interval, zlim: Interval, side: real, p: Point)
    requires side > 0.0
    requires p in Lattice(xlim, ylim, zlim, side)
    ensures xlim.lo <= p.x < xlim.hi && ylim.lo <= p.y < ylim.hi && zlim.lo <= p.z < zlim.hi
    ensures exists i: nat :: i < StepCount(xlim.lo, xlim.hi, side) && p.x == Axis(xlim.lo, xlim.hi, side)[i]
    ensures exists j: nat :: j < StepCount(ylim.lo, ylim.hi, side) && p.y == Axis(ylim.lo, ylim.hi, side)[j]
    ensures exists k: nat :: k < StepCount(zlim.lo, zlim.hi, side) && p.z == Axis(zlim.lo, zlim.hi, side)[k]
  {
    var xs := Axis(xlim.lo, xlim.hi, side);
    var ys := Axis(ylim.lo, ylim.hi, side);
    var zs := Axis(zlim.lo, zlim.hi, side);
    GridMembership(xs, ys, zs, p);
    AxisRange(xlim.lo, xlim.hi, side);
    AxisRange(ylim.lo, ylim.hi, side);
    AxisRange(zlim.lo, zlim.hi, side);
  }

  /** Conversely, every point whose coordinates are lattice values below the
      upper limits is a voxel of the lattice. */
  lemma LatticeComplete(xlim: Interval, ylim: Interval, zlim: Interval, side: real, i: nat, j: nat, k: nat)
    requires side > 0.0
    requires xlim.lo + (i as real) * side < xlim.hi
    requires ylim.lo + (j as real) * side < ylim.hi
    requires zlim.lo + (k as real) * side < zlim.hi
    ensures Point(xlim.lo + (i as real) * side, ylim.lo + (j as real) * side, zlim.lo + (k as real) * side)
            in Lattice(xlim, ylim, zlim, side)
  {
    AxisMember(xlim.lo, xlim.hi, side, i);
    AxisMember(ylim.lo, ylim.hi, side, j);
    AxisMember(zlim.lo, zlim.hi, side, k);
    GridMembership(Axis(xlim.lo, xlim.hi, side), Axis(ylim.lo, ylim.hi, side), Axis(zlim.lo, zlim.hi, side),
      Point(xlim.lo + (i as real) * side, ylim.lo + (j as real) * side, zlim.lo + (k as real) * side));
  }

  lemma AxisMember(lo: real, hi: real, step: real, i: nat)
    requires step > 0.0 && lo + (i as real) * step < hi
    ensures lo + (i as real) * step in Axis(lo, hi, step)
  {
    AxisExact(lo, hi, step, i);
    assert Axis(lo, hi, step)[i] == lo + (i as real) * step;
  }

  /** With positive spans the first voxel is the prism's lower corner. */
  lemma LatticeStartsAtCorner(xlim: Interval, ylim: Interval, zlim: Interval, side: real)
    requires side > 0.0
    requires xlim.lo < xlim.hi && ylim.lo < ylim.hi && zlim.lo < zlim.hi
    ensures |Lattice(xlim, ylim, zlim, side)| > 0
    ensures Lattice(xlim, ylim, zlim, side)[0] == Point(xlim.lo, ylim.lo, zlim.lo)
  {
    var xs := Axis(xlim.lo, xlim.hi, side);
    var ys := Axis(ylim.lo, ylim.hi, side);
    var zs := Axis(zlim.lo, zlim.hi, side);
    AxisExact(xlim.lo, xlim.hi, side, 0);
    AxisExact(ylim.lo, ylim.hi, side, 0);
    AxisExact(zlim.lo, zlim.hi, side, 0);
    assert xs[0] == xlim.lo && ys[0] == ylim.lo && zs[0] == zlim.lo;
    GridShape(xs, ys, zs, 0, 0, 0);
  }

  /** Because each axis count is rounded up, a prism with positive spans never
      gets fewer voxels than requested. */
  lemma LatticeCountAtLeastRequested(xlim: Interval, ylim: Interval, zlim: Interval, numVoxels: nat, side: real)
    requires numVoxels > 0
    requires side > 0.0 && side * side * side * (numVoxels as real) == Volume(xlim, ylim, zlim)
    requires xlim.lo < xlim.hi && ylim.lo < ylim.hi && zlim.lo < zlim.hi
    ensures |Lattice(xlim, ylim, zlim, side)| >= numVoxels
  {
    LatticeCount(xlim, ylim, zlim, side);
    StepCountsCover(xlim, ylim, zlim, numVoxels, side);
  }

  lemma StepCountsCover(xlim: Interval, ylim: Interval, zlim: Interval, numVoxels: nat, side: real)
    requires side > 0.0 && side * side * side * (numVoxels as real) == Volume(xlim, ylim, zlim)
    requires xlim.lo < xlim.hi && ylim.lo < ylim.hi && zlim.lo < zlim.hi
    ensures StepCount(xlim.lo, xlim.hi, side) * StepCount(ylim.lo, ylim.hi, side) * StepCount(zlim.lo, zlim.hi, side) >= numVoxels
  {
    AxisCovers(xlim, side);
    AxisCovers(ylim, side);
    AxisCovers(zlim, side);
    CountFromCover(StepCount(xlim.lo, xlim.hi, side), StepCount(ylim.lo, ylim.hi, side), StepCount(zlim.lo, zlim.hi, side),
      side, Span(xlim), Span(ylim), Span(zlim), numVoxels);
  }

  lemma CountFromCover(nx: nat, ny: nat, nz: nat, side: real, dx: real, dy: real, dz: real, n: nat)
    requires side > 0.0 && 0.0 < dx && 0.0 < dy && 0.0 < dz
    requires dx <= nx as real * side && dy <= ny as real * side && dz <= nz as real * side
    requires side * side * side * (n as real) == dx * dy * dz
    ensures nx * ny * nz >= n
  {
    var cube := side * side * side;
    ProductMonotone(dx, dy, dz, nx as real * side, ny as real * side, nz as real * side);
    Rearrange(nx, ny, nz, side);
    assert ((nx * ny * nz) as real) * cube >= (n as real) * cube;
    CancelPositive((nx * ny * nz) as real, n as real, cube);
  }

  lemma Rearrange(nx: nat, ny: nat, nz: nat, s: real)
    ensures (nx as real * s) * (ny as real * s) * (nz as real * s) == ((nx * ny * nz) as real) * (s * s * s)
  {
    assert (nx * ny * nz) as real == nx as real * ny as real * nz as real;
  }

  lemma AxisCovers(iv: Interval, step: real)
    requires step > 0.0 && iv.lo < iv.hi
    ensures 0.0 < Span(iv) <= StepCount(iv.lo, iv.hi, step) as real * step
  {
    AxisExact(iv.lo, iv.hi, step, StepCount(iv.lo, iv.hi, step));
  }

  lemma ProductMonotone(x: real, y: real, z: real, a: real, b: real, c: real)
    requires 0.0 < x <= a && 0.0 < y <= b && 0.0 < z <= c
    ensures x * y * z <= a * b * c
  {
    assert x * y <= a * y <= a * b;
    assert x * y * z <= a * b * z <= a * b * c;
  }

  lemma CancelPositive(m: real, n: real, k: real)
    requires k > 0.0 && m * k >= n * k
    ensures m >= n
  {
  }

  /** The prism `[-1, 1]` on every axis with 8 requested voxels and edge 1
      gives the 8 points of the unit lattice, starting at `(-1, -1, -1)`. */
  lemma UnitCubeExample()
    ensures 1.0 * 1.0 * 1.0 * 8.0 == Volume(Interval(-1.0, 1.0), Interval(-1.0, 1.0), Interval(-1.0, 1.0))
    ensures |Lattice(Interval(-1.0, 1.0), Interval(-1.0, 1.0), Interval(-1.0, 1.0), 1.0)| == 8
    ensures Lattice(Interval(-1.0, 1.0), Interval(-1.0, 1.0), Interval(-1.0, 1.0), 1.0)[0] == Point(-1.0, -1.0, -1.0)
  {
    var iv := Interval(-1.0, 1.0);
    assert StepCount(-1.0, 1.0, 1.0) == 2;
    LatticeCount(iv, iv, iv, 1.0);
    LatticeStartsAtCorner(iv, iv, iv, 1.0);
  }
}
