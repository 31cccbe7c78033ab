/**
 * The CCTV monitoring page: every tick the faces of the frame are compared with
 * a history of recently captured descriptors; a face further than 0.6 from all
 * of them is captured as a snapshot and its descriptor is remembered. The
 * snapshot list only grows; the gallery shows its last twenty entries.
 */
module Cctv {
  import opened Common

  type Distance = (Descriptor, Descriptor) -> real

  /** A face closer than this to a remembered descriptor is a duplicate. */
  const DuplicateThreshold: real := 0.6
  /** Capacity of the remembered-descriptor history. */
  const HistoryCapacity: nat := 20
  /** Number of snapshots the gallery shows. */
  const GallerySize: nat := 20

  /**
   * One detected face. `image` and `time` are what capturing it produces: the
   * data URL of its cropped region and the clock reading at that moment.
   */
  datatype Sighting = Sighting(box: Box, descriptor: Descriptor, image: string, time: string)

  /** One entry of `faceSnapshots`. */
  datatype Snapshot = Snapshot(src: string, timestamp: string)

  /** What one frame leaves behind: the history and the snapshots captured, in order. */
  datatype Scan = Scan(history: seq<Descriptor>, captured: seq<Snapshot>)

  /** One face of a frame: capture it unless a remembered descriptor is within 0.6. */
  function Observe(st: Scan, s: Sighting, dist: Distance): Scan
  {
    if !NearAny(st.history, s.descriptor, DuplicateThreshold, dist) then
      Scan(PushBounded(st.history, s.descriptor, HistoryCapacity), st.captured + [Snapshot(s.image, s.time)])
    else st
  }

  function ObserveAll(st: Scan, sightings: seq<Sighting>, dist: Distance): Scan
    decreases |sightings|
  {
    if sightings == [] then st else ObserveAll(Observe(st, sightings[0], dist), sightings[1..], dist)
  }

  /**
   * A face is captured exactly when no remembered descriptor is within 0.6 of
   * it: its image and time are appended and its descriptor becomes the newest
   * remembered one. Otherwise history and snapshots stay as they were.
   */
  lemma CaptureRule(st: Scan, s: Sighting, dist: Distance)
    ensures
      var r := ObserveAll(st, [s], dist);
      (|r.captured| == |st.captured| + 1) <==> !NearAny(st.history, s.descriptor, DuplicateThreshold, dist)
    ensures
      var r := ObserveAll(st, [s], dist);
      && (!NearAny(st.history, s.descriptor, DuplicateThreshold, dist) ==>
        && r.captured == st.captured + [Snapshot(s.image, s.time)]
        && r.history != [] && r.history[|r.history| - 1] == s.descriptor
        && r.history[..|r.history| - 1] == (if |st.history| < HistoryCapacity then st.history else st.history[1..]))
      && (NearAny(st.history, s.descriptor, DuplicateThreshold, dist) ==> r == st)
  {
    assert [s][1..] == [];
  }

  /** The history never holds more than twenty descriptors. */
  lemma {:induction false} HistoryStaysBounded(st: Scan, sightings: seq<Sighting>, dist: Distance)
    requires |st.history| <= HistoryCapacity
    ensures |ObserveAll(st, sightings, dist).history| <= HistoryCapacity
    decreases |sightings|
  {
    if sightings != [] {
      HistoryStaysBounded(Observe(st, sightings[0], dist), sightings[1..], dist);
    }
  }

  /** Captures extend the earlier ones, at most one per face. */
  lemma {:induction false} CapturesAppend(st: Scan, sightings: seq<Sighting>, dist: Distance)
    ensures
      var r := ObserveAll(st, sightings, dist).captured;
      |st.captured| <= |r| <= |st.captured| + |sightings| && r[..|st.captured|] == st.captured
    decreases |sightings|
  {
    if sightings != [] {
      var st' := Observe(st, sightings[0], dist);
      CapturesAppend(st', sightings[1..], dist);
      var r := ObserveAll(st, sightings, dist).captured;
      assert r[..|st.captured|] == r[..|st'.captured|][..|st.captured|];
    }
  }

  /** Two faces of one frame within 0.6 of each other give at most one capture, because the first is remembered before the second is compared. */
  lemma NearTwinsCapturedOnce(st: Scan, a: Sighting, b: Sighting, dist: Distance)
    requires dist(b.descriptor, a.descriptor) < DuplicateThreshold
    ensures |ObserveAll(st, [a, b], dist).captured| <= |st.captured| + 1
  {
    var afterA := Observe(st, a, dist);
    assert [a, b][1..] == [b] && [b][1..] == [];
    assert ObserveAll(st, [a, b], dist) == ObserveAll(afterA, [b], dist);
    assert ObserveAll(afterA, [b], dist) == ObserveAll(Observe(afterA, b, dist), [], dist);
    if |afterA.captured| > |st.captured| {
      var h := afterA.history;
      assert h[|h| - 1] == a.descriptor;
      assert NearAny(h, b.descriptor, DuplicateThreshold, dist);
    }
  }

  /** `faceSnapshots.slice(-20)`: the last twenty snapshots, or all of them when there are fewer. */
  function Gallery(snapshots: seq<Snapshot>): (view: seq<Snapshot>)
    ensures |view| == if |snapshots| < GallerySize then |snapshots| else GallerySize
    ensures forall i :: 0 <= i < |view| ==> view[i] == snapshots[|snapshots| - |view| + i]
  {
    if |snapshots| <= GallerySize then snapshots else snapshots[|snapshots| - GallerySize..]
  }

  /** Appending a snapshot to a full gallery drops its oldest entry and shows the new one last. */
  lemma GalleryAfterAppend(snapshots: seq<Snapshot>, x: Snapshot)
    ensures Gallery(snapshots + [x]) == if |snapshots| < GallerySize then snapshots + [x] else Gallery(snapshots)[1..] + [x]
  {
    var after := Gallery(snapshots + [x]);
    if |snapshots| >= GallerySize {
      var expected := Gallery(snapshots)[1..] + [x];
      assert |after| == |expected|;
      forall i | 0 <= i < |after|
        ensures after[i] == expected[i]
      {
        if i < |after| - 1 {
          assert expected[i] == Gallery(snapshots)[i + 1];
        }
      }
    }
  }

  /** The CCTV page's state: the model flag, the descriptor ref and the snapshot list. */
  class Monitor {
    var modelsLoaded: bool
    var lastDescriptors: seq<Descriptor>
    var faceSnapshots: seq<Snapshot>

    ghost predicate Valid()
      reads this
    {
      |lastDescriptors| <= HistoryCapacity
    }

    constructor ()
      ensures Valid() && !modelsLoaded && lastDescriptors == [] && faceSnapshots == []
    {
      modelsLoaded := false;
      lastDescriptors := [];
      faceSnapshots := [];
    }

    /** The end of model loading: the flag is set on success and left unset on failure. */
    method FinishLoading(succeeded: bool)
      requires Valid()
      modifies this
      ensures Valid()
      ensures modelsLoaded == (old(modelsLoaded) || succeeded)
      ensures lastDescriptors == old(lastDescriptors) && faceSnapshots == old(faceSnapshots)
    {
      if succeeded {
        modelsLoaded := true;
      }
    }

    /**
     * detectFaces: nothing happens without a webcam and loaded models or on a
     * zero-sized frame; otherwise every face of the frame is checked in order.
     */
    method DetectFaces(webcamPresent: bool, videoWidth: nat, videoHeight: nat, sightings: seq<Sighting>, dist: Distance)
      requires Valid()
      modifies this
      ensures Valid()
      ensures modelsLoaded == old(modelsLoaded)
      ensures !(webcamPresent && modelsLoaded) || videoWidth == 0 || videoHeight == 0 ==>
        lastDescriptors == old(lastDescriptors) && faceSnapshots == old(faceSnapshots)
      ensures webcamPresent && modelsLoaded && videoWidth != 0 && videoHeight != 0 ==>
        var r := ObserveAll(Scan(old(lastDescriptors), []), sightings, dist);
        lastDescriptors == r.history && faceSnapshots == old(faceSnapshots) + r.captured
    {
      if !(webcamPresent && modelsLoaded) || videoWidth == 0 || videoHeight == 0 {
        return;
      }
      ghost var start := Scan(lastDescriptors, []);
      ghost var captured: seq<Snapshot> := [];
      var i := 0;
      while i < |sightings|
        invariant 0 <= i <= |sightings|
        invariant Valid()
        invariant modelsLoaded == old(modelsLoaded)
        invariant faceSnapshots == old(faceSnapshots) + captured
        invariant ObserveAll(Scan(lastDescriptors, captured), sightings[i..], dist) == ObserveAll(start, sightings, dist)
      {
        var s := sightings[i];
        assert sightings[i..][1..] == sightings[i + 1..];
        var isDuplicate := NearAny(lastDescriptors, s.descriptor, DuplicateThreshold, dist);
        if !isDuplicate {
          CaptureFaceSnapshot(webcamPresent, s);
          captured := captured + [Snapshot(s.image, s.time)];
          lastDescriptors := lastDescriptors + [s.descriptor];
          if |lastDescriptors| > HistoryCapacity {
            lastDescriptors := lastDescriptors[1..];
          }
        }
        i := i + 1;
      }
    }

    /** captureFaceSnapshot: with a webcam, append the face's snapshot and keep every earlier one. */
    method CaptureFaceSnapshot(webcamPresent: bool, s: Sighting)
      modifies this`faceSnapshots
      ensures faceSnapshots == if webcamPresent then old(faceSnapshots) + [Snapshot(s.image, s.time)] else old(faceSnapshots)
    {
      if webcamPresent {
        faceSnapshots := faceSnapshots + [Snapshot(s.image, s.time)];
      }
    }
  }
}
