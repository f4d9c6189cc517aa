/** Points, axis intervals, the 3x4 projection matrix and the numeric
    conversions the carving code relies on (truncation toward zero and the
    cast to a 32-bit signed integer). */
module Geometry {

  datatype Option<+T> = None | Some(value: T)

  /** A voxel centre, a camera position or a direction in world space. */
  datatype Point = Point(x: real, y: real, z: real)

  /** One axis limit `[lo, hi]`, written `xlim`, `ylim`, `zlim` in the source. */
  datatype Interval = Interval(lo: real, hi: real)

  /** The three axis limits of a rectangular prism. */
  datatype Bounds = Bounds(x: Interval, y: Interval, z: Interval)

  /** One row of a 3x4 matrix, applied to the homogeneous point (x, y, z, 1). */
  datatype Row = Row(a: real, b: real, c: real, d: real)

  /** A camera's 3x4 projection matrix `P`, row by row. */
  datatype Projection = Projection(r0: Row, r1: Row, r2: Row)

  /** The image of a point under a projection, before perspective division. */
  datatype Homogeneous = Homogeneous(u: real, v: real, w: real)

  const Int32Min: int := -0x8000_0000
  const Int32Max: int := 0x7fff_ffff

  /** The difference between the second and the first limit (`diff`). */
  function Span(iv: Interval): (d: real)
    ensures iv.lo <= iv.hi <==> 0.0 <= d
  {
    iv.hi - iv.lo
  }

  function Min(a: real, b: real): (m: real)
    ensures m <= a && m <= b && (m == a || m == b)
  {
    if b < a then b else a
  }

  function Max(a: real, b: real): (m: real)
    ensures a <= m && b <= m && (m == a || m == b)
  {
    if b > a then b else a
  }

  function Apply(row: Row, p: Point): real
  {
    row.a * p.x + row.b * p.y + row.c * p.z + row.d
  }

  /** `P` times the point with a homogeneous coordinate 1 appended. */
  function Project(P: Projection, p: Point): Homogeneous
  {
    Homogeneous(Apply(P.r0, p), Apply(P.r1, p), Apply(P.r2, p))
  }

  /** `p - k * d`, the point reached by stepping back `k` along `d`. */
  function StepBack(p: Point, k: real, d: Point): Point
  {
    Point(p.x - k * d.x, p.y - k * d.y, p.z - k * d.z)
  }

  /** Conversion of a real to an integer by dropping its fractional part. */
  function TruncateTowardZero(r: real): (t: int)
    ensures 0.0 <= r ==> 0 <= t && t as real <= r < t as real + 1.0
    ensures r < 0.0 ==> t <= 0 && t as real - 1.0 < r <= t as real
  {
    if r >= 0.0 then r.Floor else -((-r).Floor)
  }

  /** The cast to a 32-bit signed integer: the value truncated toward zero,
      or None when the truncated value has no 32-bit representation. */
  function CastToInt32(r: real): (t: Option<int>)
    ensures t.Some? ==> Int32Min <= t.value <= Int32Max
    ensures t.Some? ==> t.value == TruncateTowardZero(r)
    ensures -2147483648.0 <= r < 2147483648.0 ==> t.Some?
    ensures t.None? <==> !(Int32Min <= TruncateTowardZero(r) <= Int32Max)
  {
    var n := TruncateTowardZero(r);
    if Int32Min <= n <= Int32Max then Some(n) else None
  }

  /** A truncated coordinate is non-negative exactly when the real coordinate
      is above -1, and below a bound `n` exactly when the real is below `n`. */
  lemma TruncateBounds(r: real, n: int)
    requires 0 < n
    ensures 0 <= TruncateTowardZero(r) <==> -1.0 < r
    ensures TruncateTowardZero(r) < n <==> r < n as real
  {
  }
}
