/** The vision side of the server: the region of interest cropped from each camera frame, and
    the centroids of the confident "front" detections in the latest inference result. The
    capture thread that produces those results is outside the model; each query sees whatever
    result it has stored. */
module Camera {
  import opened Options
  import opened Plant
  import opened Numbers

  /** The ROI the controller starts with: `[x, y, w, h]`. */
  const InitialRoi: seq<int> := [684, 421, 1256, 978]

  /** The lowest confidence a detection may have and still be used. */
  const MinConfidence: real := 0.8

  /** The class number of the "front" (green) side of a brick. */
  const FrontClass := 1

  /** A detection that `get_front_centroids` keeps: confident enough and of class 1. */
  predicate Front(d: Detection) {
    !(d.conf < MinConfidence) && Trunc(d.cls) == FrontClass
  }

  /** The centre of a box after truncating its corners to integers, with floor division. */
  function Centroid(d: Detection): (p: (int, int))
    ensures Trunc(d.x1) + Trunc(d.x2) - 1 <= 2 * p.0 <= Trunc(d.x1) + Trunc(d.x2)
    ensures Trunc(d.y1) + Trunc(d.y2) - 1 <= 2 * p.1 <= Trunc(d.y1) + Trunc(d.y2)
  {
    ((Trunc(d.x1) + Trunc(d.x2)) / 2, (Trunc(d.y1) + Trunc(d.y2)) / 2)
  }

  /** The centroids of the front detections of `ds`, in detection order. */
  function FrontCentroids(ds: seq<Detection>): seq<(int, int)> {
    if ds == [] then []
    else
      var d := ds[|ds| - 1];
      FrontCentroids(ds[..|ds| - 1]) + (if Front(d) then [Centroid(d)] else [])
  }

  /** `get_front_centroids()` on the stored result: empty when there is no result yet or the
      result has no boxes. */
  function Centroids(latest: Option<Inference>): (r: seq<(int, int)>)
    ensures latest.None? || latest.value.boxes.None? ==> r == []
  {
    match latest
    case None => []
    case Some(result) =>
      match result.boxes
      case None => []
      case Some(ds) => FrontCentroids(ds)
  }

  /** One query: the stored result is read and filtered. */
  function AfterFrontCentroids(e: Env): (r: (Env, seq<(int, int)>))
    ensures r.0 == Observe(e).0
  {
    var (e1, latest) := Observe(e);
    (e1, Centroids(latest))
  }

  /** Filtering distributes over concatenation. */
  lemma {:induction false} FrontCentroidsAppend(a: seq<Detection>, b: seq<Detection>)
    ensures FrontCentroids(a + b) == FrontCentroids(a) + FrontCentroids(b)
    decreases |b|
  {
    if b == [] {
      assert a + b == a;
    } else {
      assert (a + b)[..|a + b| - 1] == a + b[..|b| - 1];
      FrontCentroidsAppend(a, b[..|b| - 1]);
    }
  }

  /** At most one centroid per detection. */
  lemma {:induction false} FrontCentroidsBound(ds: seq<Detection>)
    ensures |FrontCentroids(ds)| <= |ds|
  {
    if ds != [] {
      FrontCentroidsBound(ds[..|ds| - 1]);
    }
  }

  /** A point is reported exactly when some front detection has it as its centroid. */
  lemma {:induction false} FrontCentroidsMembers(ds: seq<Detection>, p: (int, int))
    ensures p in FrontCentroids(ds) <==> exists i :: 0 <= i < |ds| && Front(ds[i]) && Centroid(ds[i]) == p
  {
    if ds != [] {
      var init := ds[..|ds| - 1];
      FrontCentroidsMembers(init, p);
      if exists i :: 0 <= i < |init| && Front(init[i]) && Centroid(init[i]) == p {
        var i :| 0 <= i < |init| && Front(init[i]) && Centroid(init[i]) == p;
        assert ds[i] == init[i];
      }
      if exists i :: 0 <= i < |ds| && Front(ds[i]) && Centroid(ds[i]) == p {
        var i :| 0 <= i < |ds| && Front(ds[i]) && Centroid(ds[i]) == p;
        if i < |init| {
          assert init[i] == ds[i];
        }
      }
    }
  }

  /** Detections that are not confident enough, or not of the front class, change nothing. */
  lemma DroppedDetection(ds: seq<Detection>, d: Detection)
    requires !Front(d)
    ensures FrontCentroids(ds + [d]) == FrontCentroids(ds)
  {
    assert (ds + [d])[..|ds|] == ds;
  }

  /** The camera controller: the ROI list, mutated in place, and the world its queries read. */
  class CameraController {
    const world: World
    const roi: array<int>

    constructor (w: World)
      ensures world == w && fresh(roi) && roi[..] == InitialRoi
    {
      world := w;
      roi := new int[4] [684, 421, 1256, 978];
    }

    /** `set_roi(x, y)`: moves the ROI's corner and keeps its size. */
    method SetRoi(x: int, y: int)
      requires roi.Length == 4
      modifies roi
      ensures roi[..] == [x, y, old(roi[2]), old(roi[3])]
    {
      roi[0] := x;
      roi[1] := y;
    }

    /** `get_front_centroids()`: the append loop over the stored result's boxes. */
    method GetFrontCentroids() returns (centroids: seq<(int, int)>)
      modifies world
      ensures (world.env, centroids) == AfterFrontCentroids(old(world.env))
    {
      var latest := world.Look();
      centroids := [];
      if latest.None? || latest.value.boxes.None? {
        return;
      }
      var boxes := latest.value.boxes.value;
      var i := 0;
      while i < |boxes|
        invariant 0 <= i <= |boxes|
        invariant centroids == FrontCentroids(boxes[..i])
      {
        var d := boxes[i];
        assert boxes[..i + 1][..i] == boxes[..i];
        if !(d.conf < MinConfidence) && Trunc(d.cls) == FrontClass {
          centroids := centroids + [Centroid(d)];
        }
        i := i + 1;
      }
      assert boxes[..i] == boxes;
    }
  }

  /** `get_frame()`: nothing until the capture thread has stored a frame, then that frame (its
      JPEG encoding is not part of this model). */
  function GetFrame<F>(current: Option<F>): (r: Option<F>)
    ensures r.Some? <==> current.Some?
    ensures r.Some? ==> r.value == current.value
  {
    if current.Some? then Some(current.value) else None
  }
}
