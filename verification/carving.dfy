/** Carving a sequence of voxels against one camera, and against a list of
    cameras one after the other. */
module Carving {
  import opened Geometry
  import opened Cameras

  /** The voxels of `vs` that survive `cam`, in their input order. */
  function Carved(vs: seq<Point>, cam: Camera): (r: seq<Point>)
    ensures |r| <= |vs|
    ensures forall v :: v in r ==> v in vs && Survives(v, cam)
  {
    if vs == [] then []
    else Carved(vs[..|vs| - 1], cam) + (if Survives(vs[|vs| - 1], cam) then [vs[|vs| - 1]] else [])
  }

  /** Filters a voxel list against one camera: each voxel is projected and
      kept exactly when it lands on a set pixel of the camera's silhouette.
      The input sequence is left as it was; the result is a new sequence. */
  method Carve(voxels: seq<Point>, camera: Camera) returns (carved: seq<Point>)
    ensures carved == Carved(voxels, camera)
  {
    carved := [];
    for i := 0 to |voxels|
      invariant carved == Carved(voxels[..i], camera)
    {
      var voxel := voxels[i];
      var px := ImagePixel(camera.P, voxel);
      assert voxels[..i + 1][..i] == voxels[..i];
      if px.Some? && 0 <= px.value.col < Width(camera.silhouette)
         && 0 <= px.value.row < Height(camera.silhouette)
         && camera.silhouette[px.value.row][px.value.col] > 0
      {
        carved := carved + [voxel];
      }
    }
    assert voxels[..|voxels|] == voxels;
  }

  /** Carving distributes over concatenation. */
  lemma {:induction false} CarvedAppend(a: seq<Point>, b: seq<Point>, cam: Camera)
    ensures Carved(a + b, cam) == Carved(a, cam) + Carved(b, cam)
    decreases |b|
  {
    if b == [] {
      assert a + b == a;
    } else {
      var b' := b[..|b| - 1];
      assert (a + b)[..|a + b| - 1] == a + b';
      CarvedAppend(a, b', cam);
    }
  }

  /** A voxel is in the result exactly when it is in the input and survives. */
  lemma {:induction false} CarvedMembership(vs: seq<Point>, cam: Camera, v: Point)
    ensures v in Carved(vs, cam) <==> v in vs && Survives(v, cam)
  {
    if vs != [] {
      var init := vs[..|vs| - 1];
      assert vs == init + [vs[|vs| - 1]];
      CarvedMembership(init, cam, v);
    }
  }

  /** No voxel is invented or duplicated: a surviving voxel occurs as often
      as in the input, any other voxel not at all. */
  lemma {:induction false} CarvedMultiplicity(vs: seq<Point>, cam: Camera, v: Point)
    ensures multiset(Carved(vs, cam))[v] == if Survives(v, cam) then multiset(vs)[v] else 0
  {
    if vs != [] {
      var init := vs[..|vs| - 1];
      assert vs == init + [vs[|vs| - 1]];
      CarvedMultiplicity(init, cam, v);
    }
  }

  /** The input positions of the voxels that survive `cam`, in increasing order. */
  function SurvivorPositions(vs: seq<Point>, cam: Camera): seq<nat>
  {
    if vs == [] then []
    else SurvivorPositions(vs[..|vs| - 1], cam) + (if Survives(vs[|vs| - 1], cam) then [|vs| - 1] else [])
  }

  /** There is one position per carved voxel, each inside the input, and the
      carved voxel is the input voxel at that position. */
  lemma {:induction false} SurvivorPositionsPick(vs: seq<Point>, cam: Camera)
    ensures |SurvivorPositions(vs, cam)| == |Carved(vs, cam)|
    ensures forall i :: 0 <= i < |SurvivorPositions(vs, cam)| ==>
      SurvivorPositions(vs, cam)[i] < |vs| && Carved(vs, cam)[i] == vs[SurvivorPositions(vs, cam)[i]]
  {
    if vs != [] {
      var n := |vs| - 1;
      var init := vs[..n];
      SurvivorPositionsPick(init, cam);
      var idx, prev := SurvivorPositions(vs, cam), SurvivorPositions(init, cam);
      var r, r0 := Carved(vs, cam), Carved(init, cam);
      assert |idx| == |r| && |prev| == |r0|;
      forall i | 0 <= i < |idx|
        ensures idx[i] < |vs| && r[i] == vs[idx[i]]
      {
        if i < |prev| {
          assert idx[i] == prev[i] && r[i] == r0[i] && vs[prev[i]] == init[prev[i]];
        }
      }
    }
  }

  /** The positions strictly increase and all lie inside the input. */
  lemma {:induction false} SurvivorPositionsIncreasing(vs: seq<Point>, cam: Camera)
    ensures forall i :: 0 <= i < |SurvivorPositions(vs, cam)| ==> SurvivorPositions(vs, cam)[i] < |vs|
    ensures forall i, j :: 0 <= i < j < |SurvivorPositions(vs, cam)| ==>
      SurvivorPositions(vs, cam)[i] < SurvivorPositions(vs, cam)[j]
  {
    if vs != [] {
      SurvivorPositionsIncreasing(vs[..|vs| - 1], cam);
    }
  }

  /** A position is listed exactly when the voxel there survives. */
  lemma {:induction false} SurvivorPositionsExact(vs: seq<Point>, cam: Camera)
    ensures forall k :: 0 <= k < |vs| ==> (k in SurvivorPositions(vs, cam) <==> Survives(vs[k], cam))
  {
    if vs != [] {
      var n := |vs| - 1;
      var init := vs[..n];
      SurvivorPositionsIncreasing(init, cam);
      SurvivorPositionsExact(init, cam);
      forall k | 0 <= k < |vs|
        ensures k in SurvivorPositions(vs, cam) <==> Survives(vs[k], cam)
      {
        if k < n {
          assert vs[k] == init[k];
        }
      }
    }
  }

  /** The result is a subsequence of the input: it is taken from increasing
      input positions, and these are precisely the positions of the surviving
      voxels. */
  lemma CarvedPositions(vs: seq<Point>, cam: Camera) returns (idx: seq<nat>)
    ensures |idx| == |Carved(vs, cam)|
    ensures forall i :: 0 <= i < |idx| ==> idx[i] < |vs| && Carved(vs, cam)[i] == vs[idx[i]]
    ensures forall i, j :: 0 <= i < j < |idx| ==> idx[i] < idx[j]
    ensures forall k :: 0 <= k < |vs| ==> (k in idx <==> Survives(vs[k], cam))
  {
    idx := SurvivorPositions(vs, cam);
    SurvivorPositionsPick(vs, cam);
    SurvivorPositionsIncreasing(vs, cam);
    SurvivorPositionsExact(vs, cam);
  }

  /** Carving twice with the same camera changes nothing the second time. */
  lemma {:induction false} CarveIdempotent(vs: seq<Point>, cam: Camera)
    ensures Carved(Carved(vs, cam), cam) == Carved(vs, cam)
  {
    if vs != [] {
      var init := vs[..|vs| - 1];
      var last := vs[|vs| - 1];
      CarveIdempotent(init, cam);
      CarvedAppend(Carved(init, cam), if Survives(last, cam) then [last] else [], cam);
    }
  }

  /** Carving with camera `a` then `b` equals carving with `b` then `a`. */
  lemma {:induction false} CarveCommutes(vs: seq<Point>, a: Camera, b: Camera)
    ensures Carved(Carved(vs, a), b) == Carved(Carved(vs, b), a)
  {
    if vs != [] {
      var init := vs[..|vs| - 1];
      var last := vs[|vs| - 1];
      CarveCommutes(init, a, b);
      CarvedAppend(Carved(init, a), if Survives(last, a) then [last] else [], b);
      CarvedAppend(Carved(init, b), if Survives(last, b) then [last] else [], a);
    }
  }

  /** A camera whose silhouette is zero everywhere carves every voxel away. */
  lemma {:induction false} EmptySilhouetteCarvesAll(vs: seq<Point>, cam: Camera)
    requires forall r, c :: 0 <= r < |cam.silhouette| && 0 <= c < |cam.silhouette[r]| ==> cam.silhouette[r][c] <= 0
    ensures Carved(vs, cam) == []
  {
    if vs != [] {
      EmptySilhouetteCarvesAll(vs[..|vs| - 1], cam);
      EmptySilhouetteRejects(vs[|vs| - 1], cam);
    }
  }

  /** Carving with each camera of `cams` in turn, first to last. */
  function CarveAll(vs: seq<Point>, cams: seq<Camera>): (r: seq<Point>)
    ensures |r| <= |vs|
    ensures forall v :: v in r ==> v in vs
  {
    if cams == [] then vs
    else Carved(CarveAll(vs, cams[..|cams| - 1]), cams[|cams| - 1])
  }

  /** Applies `carve` for every camera, feeding each result into the next. */
  method CarveEach(voxels: seq<Point>, cameras: seq<Camera>) returns (carved: seq<Point>)
    ensures carved == CarveAll(voxels, cameras)
  {
    carved := voxels;
    for i := 0 to |cameras|
      invariant carved == CarveAll(voxels, cameras[..i])
    {
      assert cameras[..i + 1][..i] == cameras[..i];
      carved := Carve(carved, cameras[i]);
    }
    assert cameras[..|cameras|] == cameras;
  }

  predicate SurvivesAll(v: Point, cams: seq<Camera>)
  {
    forall c :: c in cams ==> Survives(v, c)
  }

  /** The voxels of `vs` that survive every camera of `cams`, in input order. */
  function KeptByAll(vs: seq<Point>, cams: seq<Camera>): seq<Point>
  {
    if vs == [] then []
    else KeptByAll(vs[..|vs| - 1], cams) + (if SurvivesAll(vs[|vs| - 1], cams) then [vs[|vs| - 1]] else [])
  }

  /** A voxel is kept by all cameras exactly when it is an input voxel that
      every camera keeps. */
  lemma {:induction false} KeptByAllMembership(vs: seq<Point>, cams: seq<Camera>, v: Point)
    ensures v in KeptByAll(vs, cams) <==> v in vs && SurvivesAll(v, cams)
  {
    if vs != [] {
      var init := vs[..|vs| - 1];
      assert vs == init + [vs[|vs| - 1]];
      KeptByAllMembership(init, cams, v);
    }
  }

  lemma {:induction false} KeptByAllExtend(vs: seq<Point>, cams: seq<Camera>, c: Camera)
    ensures Carved(KeptByAll(vs, cams), c) == KeptByAll(vs, cams + [c])
  {
    if vs != [] {
      var init := vs[..|vs| - 1];
      var last := vs[|vs| - 1];
      KeptByAllExtend(init, cams, c);
      CarvedAppend(KeptByAll(init, cams), if SurvivesAll(last, cams) then [last] else [], c);
      assert SurvivesAll(last, cams + [c]) <==> SurvivesAll(last, cams) && Survives(last, c) by {
        assert c in cams + [c];
        assert forall d :: d in cams + [c] <==> d in cams || d == c;
      }
    }
  }

  /** Carving with a list of cameras in sequence keeps exactly the voxels that
      every camera keeps, in input order. */
  lemma {:induction false} CarveAllKeepsJointSurvivors(vs: seq<Point>, cams: seq<Camera>)
    ensures CarveAll(vs, cams) == KeptByAll(vs, cams)
  {
    if cams == [] {
      KeptByAllNoCameras(vs);
    } else {
      var init := cams[..|cams| - 1];
      CarveAllKeepsJointSurvivors(vs, init);
      KeptByAllExtend(vs, init, cams[|cams| - 1]);
      assert init + [cams[|cams| - 1]] == cams;
    }
  }

  lemma {:induction false} KeptByAllNoCameras(vs: seq<Point>)
    ensures KeptByAll(vs, []) == vs
  {
    if vs != [] {
      KeptByAllNoCameras(vs[..|vs| - 1]);
      assert vs[..|vs| - 1] + [vs[|vs| - 1]] == vs;
    }
  }

  lemma {:induction false} KeptByAllSameCameras(vs: seq<Point>, cams1: seq<Camera>, cams2: seq<Camera>)
    requires forall c :: c in cams1 <==> c in cams2
    ensures KeptByAll(vs, cams1) == KeptByAll(vs, cams2)
  {
    if vs != [] {
      KeptByAllSameCameras(vs[..|vs| - 1], cams1, cams2);
    }
  }

  /** The order in which the cameras are applied does not matter: two camera
      lists holding the same cameras carve any voxel list identically. */
  lemma CarveOrderIrrelevant(vs: seq<Point>, cams1: seq<Camera>, cams2: seq<Camera>)
    requires forall c :: c in cams1 <==> c in cams2
    ensures CarveAll(vs, cams1) == CarveAll(vs, cams2)
  {
    CarveAllKeepsJointSurvivors(vs, cams1);
    CarveAllKeepsJointSurvivors(vs, cams2);
    KeptByAllSameCameras(vs, cams1, cams2);
  }

  /** Across the loop over cameras the number of surviving voxels never grows. */
  lemma {:induction false} CarveAllShrinks(vs: seq<Point>, cams: seq<Camera>, i: nat, j: nat)
    requires i <= j <= |cams|
    ensures |CarveAll(vs, cams[..j])| <= |CarveAll(vs, cams[..i])|
    decreases j
  {
    if i < j {
      var before := CarveAll(vs, cams[..j - 1]);
      CarveAllShrinks(vs, cams, i, j - 1);
      CarveAllStep(vs, cams, j);
      assert |Carved(before, cams[j - 1])| <= |before|;
    }
  }

  /** The j-th round of the loop carves the result of the first j - 1 rounds
      with the j-th camera. */
  lemma CarveAllStep(vs: seq<Point>, cams: seq<Camera>, j: nat)
    requires 0 < j <= |cams|
    ensures CarveAll(vs, cams[..j]) == Carved(CarveAll(vs, cams[..j - 1]), cams[j - 1])
  {
    assert cams[..j][..j - 1] == cams[..j - 1];
  }
}
