/** A calibrated camera as the carving code sees it, the pixel a voxel
    projects to, and the per-voxel silhouette test. */
module Cameras {
  import opened Geometry

  /** Every row has the length of the first one, as in a 2-D array. */
  predicate Rectangular<T>(rows: seq<seq<T>>)
  {
    forall r :: 0 <= r < |rows| ==> |rows[r]| == |rows[0]|
  }

  /** A silhouette mask indexed `[row][col]`; a value above 0 marks the object. */
  type Silhouette = s: seq<seq<int>> | Rectangular(s) witness []

  /** `shape[0]` of the mask. */
  function Height(s: Silhouette): nat
  {
    |s|
  }

  /** `shape[1]` of the mask. */
  function Width(s: Silhouette): nat
  {
    if |s| == 0 then 0 else |s[0]|
  }

  /** A camera, read-only for the whole computation: its projection matrix,
      its position `T`, its unit viewing direction and its silhouette. */
  datatype Camera = Camera(P: Projection, T: Point, direction: Point, silhouette: Silhouette)

  /** An integer pixel position: column first, then row. */
  datatype Pixel = Pixel(col: int, row: int)

  /** The pixel a voxel projects to: perspective division by the depth term,
      then the 32-bit cast of the column and the row. A zero depth, or a
      coordinate with no 32-bit value, gives no pixel. */
  function ImagePixel(P: Projection, v: Point): (px: Option<Pixel>)
    ensures Project(P, v).w == 0.0 ==> px.None?
    ensures px.Some? ==> px.value.col == TruncateTowardZero(Project(P, v).u / Project(P, v).w)
    ensures px.Some? ==> px.value.row == TruncateTowardZero(Project(P, v).v / Project(P, v).w)
    ensures px.Some? ==> Int32Min <= px.value.col <= Int32Max && Int32Min <= px.value.row <= Int32Max
    ensures (Project(P, v).w != 0.0 && -2147483648.0 <= Project(P, v).u / Project(P, v).w < 2147483648.0
             && -2147483648.0 <= Project(P, v).v / Project(P, v).w < 2147483648.0) ==> px.Some?
  {
    var h := Project(P, v);
    if h.w == 0.0 then None
    else
      var col := CastToInt32(h.u / h.w);
      var row := CastToInt32(h.v / h.w);
      if col.Some? && row.Some? then Some(Pixel(col.value, row.value)) else None
  }

  predicate InFrame(px: Pixel, s: Silhouette)
  {
    0 <= px.col < Width(s) && 0 <= px.row < Height(s)
  }

  /** The carving test: the voxel's pixel lies inside the mask and the mask is
      set there. */
  predicate Survives(v: Point, cam: Camera)
  {
    match ImagePixel(cam.P, v)
    case None => false
    case Some(px) => InFrame(px, cam.silhouette) && cam.silhouette[px.row][px.col] > 0
  }

  /** A pixel at column 0, row 0 of a set mask is kept; a pixel one column to
      the left of the image or one column past its right edge never is. */
  lemma SilhouetteEdges(v: Point, cam: Camera)
    requires ImagePixel(cam.P, v).Some?
    ensures var px := ImagePixel(cam.P, v).value;
      (px == Pixel(0, 0) && 0 < Width(cam.silhouette) && 0 < Height(cam.silhouette)
       && cam.silhouette[0][0] > 0) ==> Survives(v, cam)
    ensures var px := ImagePixel(cam.P, v).value;
      px.col == -1 || px.col == Width(cam.silhouette) ==> !Survives(v, cam)
    ensures var px := ImagePixel(cam.P, v).value;
      px.row == -1 || px.row == Height(cam.silhouette) ==> !Survives(v, cam)
  {
  }

  /** The test restated on the real image coordinates `(u/w, v/w)`: since the
      cast truncates toward zero, a coordinate in (-1, 0) still lands on pixel
      0, so the admitted range is open at -1 rather than closed at 0. */
  lemma SurvivesInImageCoordinates(v: Point, cam: Camera)
    requires Project(cam.P, v).w != 0.0
    requires 0 < Width(cam.silhouette) <= Int32Max && 0 < Height(cam.silhouette) <= Int32Max
    ensures var h := Project(cam.P, v);
      var s := cam.silhouette;
      Survives(v, cam) <==>
        -1.0 < h.u / h.w < Width(s) as real && -1.0 < h.v / h.w < Height(s) as real
        && s[TruncateTowardZero(h.v / h.w)][TruncateTowardZero(h.u / h.w)] > 0
  {
    var h := Project(cam.P, v);
    TruncateBounds(h.u / h.w, Width(cam.silhouette));
    TruncateBounds(h.v / h.w, Height(cam.silhouette));
  }

  /** With a mask that is set everywhere, carving is the bare frame test. */
  lemma FullSilhouetteIsFrameTest(v: Point, cam: Camera)
    requires forall r, c :: 0 <= r < |cam.silhouette| && 0 <= c < |cam.silhouette[r]| ==> cam.silhouette[r][c] > 0
    ensures Survives(v, cam) <==> ImagePixel(cam.P, v).Some? && InFrame(ImagePixel(cam.P, v).value, cam.silhouette)
  {
  }

  /** With a mask that is zero everywhere, no voxel is kept. */
  lemma EmptySilhouetteRejects(v: Point, cam: Camera)
    requires forall r, c :: 0 <= r < |cam.silhouette| && 0 <= c < |cam.silhouette[r]| ==> cam.silhouette[r][c] <= 0
    ensures !Survives(v, cam)
  {
  }

  /** A pixel colour of an image (red, green, blue channels). */
  datatype Colour = Colour(red: int, green: int, blue: int)

  type Image = im: seq<seq<Colour>> | Rectangular(im) witness []

  /** The colour heuristic: red strictly above both blue and green. */
  predicate IsObjectColour(c: Colour)
  {
    c.red > c.blue && c.red > c.green
  }

  /** The heuristic mask of an image: 1 where the colour is object-like, 0
      elsewhere, with the image's shape. */
  function EstimateSilhouette(image: Image): (s: Silhouette)
    ensures Height(s) == |image| && forall r :: 0 <= r < |s| ==> |s[r]| == |image[r]|
    ensures forall r, c :: 0 <= r < |s| && 0 <= c < |s[r]| ==> (s[r][c] > 0 <==> IsObjectColour(image[r][c]))
  {
    seq(|image|, r requires 0 <= r < |image| =>
      seq(|image[r]|, c requires 0 <= c < |image[r]| => if IsObjectColour(image[r][c]) then 1 else 0))
  }

  /** Carving against a heuristic mask keeps a voxel exactly when it projects
      into the image onto an object-coloured pixel. */
  lemma SurvivesEstimated(v: Point, cam: Camera, image: Image)
    requires cam.silhouette == EstimateSilhouette(image)
    ensures Survives(v, cam) <==>
      var px := ImagePixel(cam.P, v);
      px.Some? && 0 <= px.value.row < |image| && 0 <= px.value.col < |image[0]|
      && IsObjectColour(image[px.value.row][px.value.col])
  {
  }
}
