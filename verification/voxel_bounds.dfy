/** The bounding box the carving starts from: the extent of the camera
    positions, widened in z to the cameras' viewpoints, narrowed in x and y,
    and optionally re-derived from a coarse carve. */
module VoxelBounds {
  import opened Geometry
  import opened Cameras
  import opened Carving
  import opened VoxelGrid

  /** Share of the horizontal camera spread by which each camera steps back
      along its viewing direction to find its viewpoint. */
  const RangeFactor: real := 0.6

  /** Each horizontal limit moves inward by this fraction of its span. */
  const Inset: real := 0.25

  /** The number of voxels of the coarse lattice when the caller names none. */
  const CoarseVoxelCount: nat := 4000

  datatype BoundsError =
    | NoCameras             // minimum and maximum of an empty set of positions
    | DegenerateCoarseGrid  // a zero-volume prism gives a zero lattice step
    | EmptyCoarseCarve      // minimum and maximum of an empty set of voxels

  datatype Result<+T> = Success(value: T) | Failure(error: BoundsError)

  function MinOf(s: seq<real>): (m: real)
    requires |s| > 0
    ensures forall i :: 0 <= i < |s| ==> m <= s[i]
    ensures exists i :: 0 <= i < |s| && s[i] == m
  {
    if |s| == 1 then s[0] else Min(MinOf(s[..|s| - 1]), s[|s| - 1])
  }

  function MaxOf(s: seq<real>): (m: real)
    requires |s| > 0
    ensures forall i :: 0 <= i < |s| ==> s[i] <= m
    ensures exists i :: 0 <= i < |s| && s[i] == m
  {
    if |s| == 1 then s[0] else Max(MaxOf(s[..|s| - 1]), s[|s| - 1])
  }

  function Xs(ps: seq<Point>): seq<real>
  {
    seq(|ps|, i requires 0 <= i < |ps| => ps[i].x)
  }

  function Ys(ps: seq<Point>): seq<real>
  {
    seq(|ps|, i requires 0 <= i < |ps| => ps[i].y)
  }

  function Zs(ps: seq<Point>): seq<real>
  {
    seq(|ps|, i requires 0 <= i < |ps| => ps[i].z)
  }

  /** `[min, max]` of some coordinate values. */
  function Extent(s: seq<real>): Interval
    requires |s| > 0
  {
    Interval(MinOf(s), MaxOf(s))
  }

  function Positions(cams: seq<Camera>): seq<Point>
  {
    seq(|cams|, i requires 0 <= i < |cams| => cams[i].T)
  }

  /** The per-axis extent of the camera positions. */
  function CameraBox(cams: seq<Camera>): (b: Bounds)
    requires cams != []
    ensures b.x.lo <= b.x.hi && b.y.lo <= b.y.hi && b.z.lo <= b.z.hi
  {
    var ps := Positions(cams);
    Bounds(Extent(Xs(ps)), Extent(Ys(ps)), Extent(Zs(ps)))
  }

  /** The box holds every camera position, and each of its six limits is a
      coordinate of some camera: it is exactly the min and max per axis. */
  lemma CameraBoxTight(cams: seq<Camera>)
    requires cams != []
    ensures var b := CameraBox(cams);
      b.x.lo <= b.x.hi && b.y.lo <= b.y.hi && b.z.lo <= b.z.hi
      && (forall c :: c in cams ==>
            b.x.lo <= c.T.x <= b.x.hi && b.y.lo <= c.T.y <= b.y.hi && b.z.lo <= c.T.z <= b.z.hi)
      && (exists c :: c in cams && c.T.x == b.x.lo) && (exists c :: c in cams && c.T.x == b.x.hi)
      && (exists c :: c in cams && c.T.y == b.y.lo) && (exists c :: c in cams && c.T.y == b.y.hi)
      && (exists c :: c in cams && c.T.z == b.z.lo) && (exists c :: c in cams && c.T.z == b.z.hi)
  {
    var ps := Positions(cams);
    var b := CameraBox(cams);
    forall c | c in cams
      ensures b.x.lo <= c.T.x <= b.x.hi && b.y.lo <= c.T.y <= b.y.hi && b.z.lo <= c.T.z <= b.z.hi
    {
      var i :| 0 <= i < |cams| && cams[i] == c;
      assert Xs(ps)[i] == c.T.x && Ys(ps)[i] == c.T.y && Zs(ps)[i] == c.T.z;
    }
    var i0 := 0;
    assert Xs(ps)[i0] == cams[i0].T.x;
    ExtentAttained(cams, b);
  }

  lemma ExtentAttained(cams: seq<Camera>, b: Bounds)
    requires cams != [] && b == CameraBox(cams)
    ensures (exists c :: c in cams && c.T.x == b.x.lo) && (exists c :: c in cams && c.T.x == b.x.hi)
    ensures (exists c :: c in cams && c.T.y == b.y.lo) && (exists c :: c in cams && c.T.y == b.y.hi)
    ensures (exists c :: c in cams && c.T.z == b.z.lo) && (exists c :: c in cams && c.T.z == b.z.hi)
  {
    var ps := Positions(cams);
    var a :| 0 <= a < |ps| && Xs(ps)[a] == b.x.lo;
    assert cams[a] in cams;
    var a' :| 0 <= a' < |ps| && Xs(ps)[a'] == b.x.hi;
    assert cams[a'] in cams;
    var e :| 0 <= e < |ps| && Ys(ps)[e] == b.y.lo;
    assert cams[e] in cams;
    var e' :| 0 <= e' < |ps| && Ys(ps)[e'] == b.y.hi;
    assert cams[e'] in cams;
    var f :| 0 <= f < |ps| && Zs(ps)[f] == b.z.lo;
    assert cams[f] in cams;
    var f' :| 0 <= f' < |ps| && Zs(ps)[f'] == b.z.hi;
    assert cams[f'] in cams;
  }

  /** The point a camera looks at from `range` behind: its position minus
      `range` times its viewing direction. */
  function Viewpoint(c: Camera, range: real): Point
  {
    StepBack(c.T, range, c.direction)
  }

  /** `zlim` after visiting the cameras in order, each one widening it to
      its viewpoint's z. */
  function CoverViewpoints(z: Interval, cams: seq<Camera>, range: real): (r: Interval)
    ensures r.lo <= z.lo && z.hi <= r.hi
  {
    if cams == [] then z
    else
      var prev := CoverViewpoints(z, cams[..|cams| - 1], range);
      var vz := Viewpoint(cams[|cams| - 1], range).z;
      Interval(Min(prev.lo, vz), Max(prev.hi, vz))
  }

  /** Widens `zlim` so that it reaches every camera's viewpoint. */
  method WidenZ(zlim: Interval, cameras: seq<Camera>, range: real) returns (z: Interval)
    ensures z == CoverViewpoints(zlim, cameras, range)
  {
    var lo, hi := zlim.lo, zlim.hi;
    for i := 0 to |cameras|
      invariant Interval(lo, hi) == CoverViewpoints(zlim, cameras[..i], range)
    {
      assert cameras[..i + 1][..i] == cameras[..i];
      var viewpoint := Viewpoint(cameras[i], range);
      lo := Min(lo, viewpoint.z);
      hi := Max(hi, viewpoint.z);
    }
    assert cameras[..|cameras|] == cameras;
    z := Interval(lo, hi);
  }

  /** The widened interval contains the original one and every viewpoint z,
      and each end is either the original end or some viewpoint's z. */
  lemma {:induction false} CoverViewpointsSpan(z: Interval, cams: seq<Camera>, range: real)
    ensures var r := CoverViewpoints(z, cams, range);
      r.lo <= z.lo && z.hi <= r.hi
      && (forall c :: c in cams ==> r.lo <= Viewpoint(c, range).z <= r.hi)
      && (r.lo == z.lo || exists c :: c in cams && r.lo == Viewpoint(c, range).z)
      && (r.hi == z.hi || exists c :: c in cams && r.hi == Viewpoint(c, range).z)
  {
    if cams != [] {
      var init := cams[..|cams| - 1];
      var last := cams[|cams| - 1];
      CoverViewpointsSpan(z, init, range);
      assert cams == init + [last];
      assert forall c :: c in cams <==> c in init || c == last;
    }
  }

  /** Moves both limits inward by a quarter of the span. */
  function ShrinkQuarter(iv: Interval): (r: Interval)
    ensures Span(r) == Span(iv) / 2.0
    ensures r.lo + r.hi == iv.lo + iv.hi
    ensures iv.lo <= iv.hi ==> iv.lo <= r.lo <= r.hi <= iv.hi
  {
    var d := Span(iv) * Inset;
    Interval(iv.lo + d, iv.hi - d)
  }

  /** `range` is the camera range: 0.6 times the length of the diagonal of
      the camera positions' x/y extent (the square root is supplied by the
      caller, so it is stated by its square). */
  predicate IsCameraRange(cams: seq<Camera>, range: real)
    requires cams != []
  {
    var b := CameraBox(cams);
    range >= 0.0 && range * range == RangeFactor * RangeFactor * (Span(b.x) * Span(b.x) + Span(b.y) * Span(b.y))
  }

  /** The bounds before any refinement: camera extent, z widened to the
      viewpoints, x and y shrunk by a quarter on each side. */
  function HeuristicBounds(cams: seq<Camera>, range: real): (h: Bounds)
    requires cams != []
    ensures h.x.lo <= h.x.hi && h.y.lo <= h.y.hi && h.z.lo <= h.z.hi
  {
    var b := CameraBox(cams);
    Bounds(ShrinkQuarter(b.x), ShrinkQuarter(b.y), CoverViewpoints(b.z, cams, range))
  }

  /** The heuristic bounds are proper intervals; x and y are the middle half
      of the camera extent; z covers every camera's z and every viewpoint's z,
      and reaches no further than they do. */
  lemma HeuristicBoundsShape(cams: seq<Camera>, range: real)
    requires cams != []
    ensures var h := HeuristicBounds(cams, range);
      var b := CameraBox(cams);
      h.x.lo <= h.x.hi && h.y.lo <= h.y.hi && h.z.lo <= h.z.hi
      && Span(h.x) == Span(b.x) / 2.0 && h.x.lo + h.x.hi == b.x.lo + b.x.hi
      && Span(h.y) == Span(b.y) / 2.0 && h.y.lo + h.y.hi == b.y.lo + b.y.hi
      && (forall c :: c in cams ==> h.z.lo <= c.T.z <= h.z.hi && h.z.lo <= Viewpoint(c, range).z <= h.z.hi)
      && (exists c :: c in cams && (h.z.lo == c.T.z || h.z.lo == Viewpoint(c, range).z))
      && (exists c :: c in cams && (h.z.hi == c.T.z || h.z.hi == Viewpoint(c, range).z))
  {
    var b := CameraBox(cams);
    CameraBoxTight(cams);
    CoverViewpointsSpan(b.z, cams, range);
  }

  /** The prism around some voxels: the min and max of each coordinate,
      widened by `pad` on every side. */
  function BoxAround(vs: seq<Point>, pad: real): (b: Bounds)
    requires vs != []
    ensures b.x.lo + pad <= b.x.hi - pad && b.y.lo + pad <= b.y.hi - pad && b.z.lo + pad <= b.z.hi - pad
  {
    Bounds(
      Interval(MinOf(Xs(vs)) - pad, MaxOf(Xs(vs)) + pad),
      Interval(MinOf(Ys(vs)) - pad, MaxOf(Ys(vs)) + pad),
      Interval(MinOf(Zs(vs)) - pad, MaxOf(Zs(vs)) + pad))
  }

  /** Every voxel lies at least `pad` inside the box on every side, and on
      every side some voxel lies exactly `pad` inside. */
  lemma BoxAroundMargin(vs: seq<Point>, pad: real)
    requires vs != []
    ensures var b := BoxAround(vs, pad);
      (forall v :: v in vs ==>
         b.x.lo + pad <= v.x <= b.x.hi - pad
         && b.y.lo + pad <= v.y <= b.y.hi - pad
         && b.z.lo + pad <= v.z <= b.z.hi - pad)
      && (exists v :: v in vs && v.x == b.x.lo + pad) && (exists v :: v in vs && v.x == b.x.hi - pad)
      && (exists v :: v in vs && v.y == b.y.lo + pad) && (exists v :: v in vs && v.y == b.y.hi - pad)
      && (exists v :: v in vs && v.z == b.z.lo + pad) && (exists v :: v in vs && v.z == b.z.hi - pad)
  {
    var b := BoxAround(vs, pad);
    forall v | v in vs
      ensures b.x.lo + pad <= v.x <= b.x.hi - pad
      ensures b.y.lo + pad <= v.y <= b.y.hi - pad
      ensures b.z.lo + pad <= v.z <= b.z.hi - pad
    {
      var i :| 0 <= i < |vs| && vs[i] == v;
      assert Xs(vs)[i] == v.x && Ys(vs)[i] == v.y && Zs(vs)[i] == v.z;
    }
    var a :| 0 <= a < |vs| && Xs(vs)[a] == MinOf(Xs(vs));
    assert vs[a] in vs;
    var a' :| 0 <= a' < |vs| && Xs(vs)[a'] == MaxOf(Xs(vs));
    assert vs[a'] in vs;
    var e :| 0 <= e < |vs| && Ys(vs)[e] == MinOf(Ys(vs));
    assert vs[e] in vs;
    var e' :| 0 <= e' < |vs| && Ys(vs)[e'] == MaxOf(Ys(vs));
    assert vs[e'] in vs;
    var f :| 0 <= f < |vs| && Zs(vs)[f] == MinOf(Zs(vs));
    assert vs[f] in vs;
    var f' :| 0 <= f' < |vs| && Zs(vs)[f'] == MaxOf(Zs(vs));
    assert vs[f'] in vs;
  }

  /** The volume of the prism. */
  function BoxVolume(b: Bounds): real
  {
    Volume(b.x, b.y, b.z)
  }

  /** Some axis of the prism has zero span, so its volume is zero. */
  predicate Flat(b: Bounds)
  {
    Span(b.x) == 0.0 || Span(b.y) == 0.0 || Span(b.z) == 0.0
  }

  /** The coarse lattice over the heuristic bounds, carved by every camera. */
  function CoarseSurvivors(cams: seq<Camera>, range: real, side: real): seq<Point>
    requires cams != [] && side > 0.0
  {
    var h := HeuristicBounds(cams, range);
    CarveAll(Lattice(h.x, h.y, h.z, side), cams)
  }

  /** The bounds from the cameras alone: the extent of their positions, z
      widened to every viewpoint, x and y narrowed by a quarter on each side. */
  method HeuristicVoxelBounds(cameras: seq<Camera>, cameraRange: real) returns (b: Bounds)
    requires cameras != []
    requires IsCameraRange(cameras, cameraRange)
    ensures b == HeuristicBounds(cameras, cameraRange)
  {
    var positions := Positions(cameras);
    var xlim := Extent(Xs(positions));
    var ylim := Extent(Ys(positions));
    var zlim := Extent(Zs(positions));

    zlim := WidenZ(zlim, cameras, cameraRange);

    xlim := ShrinkQuarter(xlim);
    ylim := ShrinkQuarter(ylim);
    b := Bounds(xlim, ylim, zlim);
  }

  /** The refinement pass: a coarse lattice of `numVoxels` voxels over `b`
      (whose edge `side` is the cube root of the coarse voxel volume, supplied
      by the caller) is carved by every camera, and the bounds become the
      survivors' extent padded by one coarse voxel edge. */
  method RefineBounds(b: Bounds, cameras: seq<Camera>, numVoxels: nat, side: real) returns (r: Result<Bounds>)
    requires numVoxels > 0
    requires !Flat(b) ==> side > 0.0 && side * side * side * (numVoxels as real) == BoxVolume(b)
    ensures Flat(b) ==> r == Failure(DegenerateCoarseGrid)
    ensures !Flat(b) ==>
      var survivors := CarveAll(Lattice(b.x, b.y, b.z, side), cameras);
      r == if survivors == [] then Failure(EmptyCoarseCarve) else Success(BoxAround(survivors, side))
  {
    if Span(b.x) == 0.0 || Span(b.y) == 0.0 || Span(b.z) == 0.0 {
      return Failure(DegenerateCoarseGrid);
    }
    var voxels, voxelSize := FormInitialVoxels(b.x, b.y, b.z, numVoxels, side);
    voxels := CarveEach(voxels, cameras);
    if voxels == [] {
      return Failure(EmptyCoarseCarve);
    }
    var xlim := Interval(MinOf(Xs(voxels)) - voxelSize, MaxOf(Xs(voxels)) + voxelSize);
    var ylim := Interval(MinOf(Ys(voxels)) - voxelSize, MaxOf(Ys(voxels)) + voxelSize);
    var zlim := Interval(MinOf(Zs(voxels)) - voxelSize, MaxOf(Zs(voxels)) + voxelSize);
    r := Success(Bounds(xlim, ylim, zlim));
    assert Bounds(xlim, ylim, zlim) == BoxAround(voxels, voxelSize);
  }

  /** The carving bounds: the heuristic bounds, refined by a coarse carve
      when `estimateBetterBounds` is set. `cameraRange` is the camera range and
      `coarseSide` the cube root of the coarse voxel volume, both supplied by
      the caller. */
  method GetVoxelBounds(cameras: seq<Camera>, estimateBetterBounds: bool, numVoxels: nat,
                        cameraRange: real, coarseSide: real)
    returns (r: Result<Bounds>)
    requires numVoxels > 0
    requires cameras != [] ==> IsCameraRange(cameras, cameraRange)
    requires cameras != [] && estimateBetterBounds && !Flat(HeuristicBounds(cameras, cameraRange)) ==>
      coarseSide > 0.0
      && coarseSide * coarseSide * coarseSide * (numVoxels as real) == BoxVolume(HeuristicBounds(cameras, cameraRange))
    ensures cameras == [] ==> r == Failure(NoCameras)
    ensures cameras != [] && !estimateBetterBounds ==> r == Success(HeuristicBounds(cameras, cameraRange))
    ensures cameras != [] && estimateBetterBounds && Flat(HeuristicBounds(cameras, cameraRange)) ==>
      r == Failure(DegenerateCoarseGrid)
    ensures cameras != [] && estimateBetterBounds && !Flat(HeuristicBounds(cameras, cameraRange)) ==>
      var survivors := CoarseSurvivors(cameras, cameraRange, coarseSide);
      r == if survivors == [] then Failure(EmptyCoarseCarve) else Success(BoxAround(survivors, coarseSide))
  {
    if cameras == [] {
      return Failure(NoCameras);
    }
    var b := HeuristicVoxelBounds(cameras, cameraRange);
    if estimateBetterBounds {
      r := RefineBounds(b, cameras, numVoxels, coarseSide);
    } else {
      r := Success(b);
    }
  }

  /** After refinement, every voxel surviving the coarse carve lies inside the
      new bounds with at least one coarse voxel edge to spare on every side,
      and the bounds are proper intervals. */
  lemma RefinedBoundsKeepMargin(cams: seq<Camera>, range: real, side: real)
    requires cams != [] && side > 0.0
    requires CoarseSurvivors(cams, range, side) != []
    ensures var s := CoarseSurvivors(cams, range, side);
      var b := BoxAround(s, side);
      b.x.lo < b.x.hi && b.y.lo < b.y.hi && b.z.lo < b.z.hi
      && forall v :: v in s ==>
           b.x.lo + side <= v.x <= b.x.hi - side
           && b.y.lo + side <= v.y <= b.y.hi - side
           && b.z.lo + side <= v.z <= b.z.hi - side
  {
    var s := CoarseSurvivors(cams, range, side);
    BoxAroundMargin(s, side);
    assert s[0] in s;
  }

  /** Every voxel surviving the coarse carve lies in the heuristic prism and
      projects onto every camera's silhouette. */
  lemma CoarseSurvivorsInPrism(cams: seq<Camera>, range: real, side: real, v: Point)
    requires cams != [] && side > 0.0
    requires v in CoarseSurvivors(cams, range, side)
    ensures var h := HeuristicBounds(cams, range);
      h.x.lo <= v.x < h.x.hi && h.y.lo <= v.y < h.y.hi && h.z.lo <= v.z < h.z.hi
    ensures forall c :: c in cams ==> Survives(v, c)
  {
    var h := HeuristicBounds(cams, range);
    var g := Lattice(h.x, h.y, h.z, side);
    CarveAllKeepsJointSurvivors(g, cams);
    KeptByAllMembership(g, cams, v);
    LatticeInPrism(h.x, h.y, h.z, side, v);
  }
}
