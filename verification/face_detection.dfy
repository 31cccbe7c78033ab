/**
 * The face-tracking rules of the detection utility: the nearest-label lookup over
 * the persistent label store and the session map, the novelty filter over a
 * bounded history of recently reported descriptors, the padded snapshot region
 * and the snapshot post-processing.
 *
 * Euclidean distance is a parameter `dist`: every property below holds for every
 * distance function, so nothing depends on floating-point arithmetic.
 */
module FaceDetection {
  import opened Common
  import opened DataUrl

  type Distance = (Descriptor, Descriptor) -> real

  /** A stored descriptor is a match when it is closer than this. */
  const MatchThreshold: real := 0.6
  /** A detection is a repeat of a recent one when it is closer than this. */
  const NoveltyThreshold: real := 0.5
  /** Capacity of the recent-descriptor history. */
  const HistoryCapacity: nat := 10
  /** The label of a face that matched nothing. */
  const Unknown: string := "Detecting..."

  /** One entry of an insertion-ordered descriptor -> label map. */
  datatype Entry = Entry(key: Descriptor, name: string)

  /** The running best match of the lookup. */
  datatype Candidate = Candidate(name: string, distance: real)

  const Start: Candidate := Candidate(Unknown, 1.0)

  predicate DistinctKeys(m: seq<Entry>)
  {
    forall i, j :: 0 <= i < j < |m| ==> m[i].key != m[j].key
  }

  predicate HasKey(m: seq<Entry>, k: Descriptor)
  {
    exists i :: 0 <= i < |m| && m[i].key == k
  }

  /** `faceNameMap.current` may be null; the lookup then scans no session entries. */
  function SessionOf(session: Option<seq<Entry>>): seq<Entry>
  {
    if session.Some? then session.value else []
  }

  // ---------------------------------------------------------------------------
  // findBestMatch

  /** Entry `e` replaces the running best: it is under the threshold and strictly closer. */
  predicate Improves(q: Descriptor, e: Entry, best: Candidate, dist: Distance)
  {
    dist(q, e.key) < MatchThreshold && dist(q, e.key) < best.distance
  }

  /** The running best after scanning `entries` in order from `best`. */
  function Scan(q: Descriptor, entries: seq<Entry>, best: Candidate, dist: Distance): Candidate
    decreases |entries|
  {
    if entries == [] then best
    else
      var e := entries[0];
      Scan(q, entries[1..], if Improves(q, e, best, dist) then Candidate(e.name, dist(q, e.key)) else best, dist)
  }

  /** The persistent store after scanning the session map: each session entry that becomes the running best is copied in if its key is absent. */
  function Promote(q: Descriptor, session: seq<Entry>, best: Candidate, store: seq<Entry>, dist: Distance): seq<Entry>
    decreases |session|
  {
    if session == [] then store
    else
      var e := session[0];
      if Improves(q, e, best, dist) then
        Promote(q, session[1..], Candidate(e.name, dist(q, e.key)), if HasKey(store, e.key) then store else store + [e], dist)
      else
        Promote(q, session[1..], best, store, dist)
  }

  /** The label `findBestMatch` returns: the persistent store is scanned first, then the session map. */
  function MatchLabel(q: Descriptor, persistent: seq<Entry>, session: seq<Entry>, dist: Distance): string
  {
    Scan(q, session, Scan(q, persistent, Start, dist), dist).name
  }

  /** The persistent store after `findBestMatch`. */
  function PromotedStore(q: Descriptor, persistent: seq<Entry>, session: seq<Entry>, dist: Distance): seq<Entry>
  {
    Promote(q, session, Scan(q, persistent, Start, dist), persistent, dist)
  }

  /** Reference definition: index `k` holds the first of the nearest entries under the threshold. */
  predicate FirstNearest(q: Descriptor, s: seq<Entry>, k: int, dist: Distance)
  {
    && 0 <= k < |s|
    && dist(q, s[k].key) < MatchThreshold
    && (forall j :: 0 <= j < k ==> !(dist(q, s[j].key) < MatchThreshold && dist(q, s[j].key) <= dist(q, s[k].key)))
    && (forall j :: k < j < |s| ==> !(dist(q, s[j].key) < MatchThreshold && dist(q, s[j].key) < dist(q, s[k].key)))
  }

  predicate AnyClose(q: Descriptor, s: seq<Entry>, dist: Distance)
  {
    exists j :: 0 <= j < |s| && dist(q, s[j].key) < MatchThreshold
  }

  /** `k` is the entry a scan from `b` settles on: it improves on `b`, no earlier improving entry is as close, no later one closer. */
  predicate Selected(q: Descriptor, s: seq<Entry>, b: Candidate, k: int, dist: Distance)
  {
    && 0 <= k < |s|
    && Improves(q, s[k], b, dist)
    && (forall j :: 0 <= j < k ==> !(Improves(q, s[j], b, dist) && dist(q, s[j].key) <= dist(q, s[k].key)))
    && (forall j :: k < j < |s| ==> !(Improves(q, s[j], b, dist) && dist(q, s[j].key) < dist(q, s[k].key)))
  }

  lemma {:induction false} ScanAppend(q: Descriptor, a: seq<Entry>, b: seq<Entry>, best: Candidate, dist: Distance)
    ensures Scan(q, a + b, best, dist) == Scan(q, b, Scan(q, a, best, dist), dist)
  {
    if a == [] {
      assert a + b == b;
    } else {
      assert (a + b)[0] == a[0];
      assert (a + b)[1..] == a[1..] + b;
      var e := a[0];
      ScanAppend(q, a[1..], b, if Improves(q, e, best, dist) then Candidate(e.name, dist(q, e.key)) else best, dist);
    }
  }

  /** A scan either keeps its starting candidate, because nothing improves on it, or ends on the selected entry. */
  lemma {:induction false} ScanSelects(q: Descriptor, s: seq<Entry>, b: Candidate, dist: Distance)
    ensures
      var r := Scan(q, s, b, dist);
      || (r == b && forall j :: 0 <= j < |s| ==> !Improves(q, s[j], b, dist))
      || exists k :: Selected(q, s, b, k, dist) && r == Candidate(s[k].name, dist(q, s[k].key))
  {
    if s != [] {
      var e, t := s[0], s[1..];
      var b' := if Improves(q, e, b, dist) then Candidate(e.name, dist(q, e.key)) else b;
      var r := Scan(q, s, b, dist);
      assert r == Scan(q, t, b', dist);
      ScanSelects(q, t, b', dist);
      if r == b' && forall j :: 0 <= j < |t| ==> !Improves(q, t[j], b', dist) {
        if Improves(q, e, b, dist) {
          forall j | 0 < j < |s|
            ensures !(Improves(q, s[j], b, dist) && dist(q, s[j].key) < dist(q, s[0].key))
          {
            assert s[j] == t[j - 1];
          }
          assert Selected(q, s, b, 0, dist);
        } else {
          forall j | 0 <= j < |s|
            ensures !Improves(q, s[j], b, dist)
          {
            if j > 0 { assert s[j] == t[j - 1]; }
          }
        }
      } else {
        var k :| Selected(q, t, b', k, dist) && r == Candidate(t[k].name, dist(q, t[k].key));
        var dk := dist(q, t[k].key);
        assert s[k + 1] == t[k];
        forall j | 0 <= j < k + 1
          ensures !(Improves(q, s[j], b, dist) && dist(q, s[j].key) <= dk)
        {
          if j > 0 { assert s[j] == t[j - 1]; }
        }
        forall j | k + 1 < j < |s|
          ensures !(Improves(q, s[j], b, dist) && dist(q, s[j].key) < dk)
        {
          assert s[j] == t[j - 1];
        }
        assert Selected(q, s, b, k + 1, dist);
      }
    }
  }

  /**
   * The lookup returns "Detecting..." exactly when no entry of the persistent
   * store or the session map is under the threshold; otherwise it returns the
   * label of the first nearest such entry, persistent entries counting as earlier.
   */
  lemma BestMatchIsFirstNearest(q: Descriptor, persistent: seq<Entry>, session: seq<Entry>, dist: Distance)
    ensures
      var all := persistent + session;
      var name := MatchLabel(q, persistent, session, dist);
      && (!AnyClose(q, all, dist) ==> name == Unknown)
      && (AnyClose(q, all, dist) ==> exists k :: FirstNearest(q, all, k, dist) && name == all[k].name)
  {
    var all := persistent + session;
    ScanAppend(q, persistent, session, Start, dist);
    ScanSelects(q, all, Start, dist);
    var r := Scan(q, all, Start, dist);
    if exists k :: Selected(q, all, Start, k, dist) && r == Candidate(all[k].name, dist(q, all[k].key)) {
      var k :| Selected(q, all, Start, k, dist) && r == Candidate(all[k].name, dist(q, all[k].key));
      assert FirstNearest(q, all, k, dist);
    } else {
      forall j | 0 <= j < |all|
        ensures dist(q, all[j].key) >= MatchThreshold
      {
        assert !Improves(q, all[j], Start, dist);
      }
    }
  }

  /**
   * The persistent store only grows: old entries keep their place and label,
   * keys stay distinct, and every added entry is a session entry whose key was
   * absent from the store.
   */
  lemma {:induction false} PromoteGrows(q: Descriptor, session: seq<Entry>, best: Candidate, store: seq<Entry>, dist: Distance)
    requires DistinctKeys(store)
    ensures
      var r := Promote(q, session, best, store, dist);
      && |store| <= |r| && r[..|store|] == store
      && DistinctKeys(r)
      && forall i :: |store| <= i < |r| ==> r[i] in session && !HasKey(store, r[i].key)
  {
    if session != [] {
      var e := session[0];
      if Improves(q, e, best, dist) {
        var store' := if HasKey(store, e.key) then store else store + [e];
        PromoteGrows(q, session[1..], Candidate(e.name, dist(q, e.key)), store', dist);
        var r := Promote(q, session, best, store, dist);
        assert r[..|store'|] == store';
        assert r[..|store|] == store'[..|store|] == store;
        forall i | |store| <= i < |r|
          ensures r[i] in session && !HasKey(store, r[i].key)
        {
          if i < |store'| {
            assert r[i] == store'[i] == e;
          } else {
            assert r[i] in session[1..];
          }
        }
      } else {
        PromoteGrows(q, session[1..], best, store, dist);
      }
    }
  }

  /** The module-level persistent label store (`labeledFaceDescriptors`). */
  class LabelStore {
    var entries: seq<Entry>

    ghost predicate Valid()
      reads this
    {
      DistinctKeys(entries)
    }

    constructor ()
      ensures Valid() && entries == []
    {
      entries := [];
    }

    /** findBestMatch: scan the store, then the session map, copying improving session entries into the store. */
    method FindBestMatch(q: Descriptor, faceNameMap: Option<seq<Entry>>, dist: Distance) returns (name: string)
      requires Valid()
      modifies this
      ensures Valid()
      ensures name == MatchLabel(q, old(entries), SessionOf(faceNameMap), dist)
      ensures entries == PromotedStore(q, old(entries), SessionOf(faceNameMap), dist)
    {
      var best := Start;
      var i := 0;
      while i < |entries|
        invariant 0 <= i <= |entries| && entries == old(entries)
        invariant Scan(q, entries[i..], best, dist) == Scan(q, entries, Start, dist)
      {
        var d := dist(q, entries[i].key);
        assert entries[i..][1..] == entries[i + 1..];
        if d < MatchThreshold && d < best.distance {
          best := Candidate(entries[i].name, d);
        }
        i := i + 1;
      }
      if faceNameMap.Some? {
        var session := faceNameMap.value;
        ghost var fromStore := best;
        var j := 0;
        while j < |session|
          invariant 0 <= j <= |session|
          invariant DistinctKeys(entries)
          invariant Scan(q, session[j..], best, dist) == Scan(q, session, fromStore, dist)
          invariant Promote(q, session[j..], best, entries, dist) == Promote(q, session, fromStore, old(entries), dist)
        {
          var d := dist(q, session[j].key);
          assert session[j..][1..] == session[j + 1..];
          if d < MatchThreshold && d < best.distance {
            best := Candidate(session[j].name, d);
            if !HasKey(entries, session[j].key) {
              entries := entries + [session[j]];
            }
          }
          j := j + 1;
        }
      }
      name := best.name;
    }
  }

  // ---------------------------------------------------------------------------
  // detectFacesInVideo: the novelty filter

  datatype Video = Video(videoWidth: nat, videoHeight: nat)

  /** A detection after resizing: its box and its descriptor. */
  datatype Detection = Detection(box: Box, descriptor: Descriptor)

  /** Tracking state threaded through one frame: history, persistent store, and the detections reported so far. */
  datatype Tracking = Tracking(history: seq<Descriptor>, store: seq<Entry>, reported: seq<Detection>)

  predicate Playable(video: Option<Video>)
  {
    video.Some? && video.value.videoWidth != 0 && video.value.videoHeight != 0
  }

  /** One detection of a frame: look up its label, then report it and remember it if it is new. */
  function Track(st: Tracking, d: Detection, session: seq<Entry>, dist: Distance): Tracking
  {
    var name := MatchLabel(d.descriptor, st.store, session, dist);
    var store := PromotedStore(d.descriptor, st.store, session, dist);
    if !NearAny(st.history, d.descriptor, NoveltyThreshold, dist) && name == Unknown then
      Tracking(PushBounded(st.history, d.descriptor, HistoryCapacity), store, st.reported + [d])
    else
      Tracking(st.history, store, st.reported)
  }

  /** The detections of one frame, in the order the detector returned them. */
  function TrackFrame(st: Tracking, detections: seq<Detection>, session: seq<Entry>, dist: Distance): Tracking
    decreases |detections|
  {
    if detections == [] then st
    else TrackFrame(Track(st, detections[0], session, dist), detections[1..], session, dist)
  }

  /** A detection is reported exactly when no recent descriptor is within 0.5 and its label is "Detecting...". */
  lemma NoveltyRule(st: Tracking, d: Detection, session: seq<Entry>, dist: Distance)
    ensures
      var novel := !NearAny(st.history, d.descriptor, NoveltyThreshold, dist)
                   && MatchLabel(d.descriptor, st.store, session, dist) == Unknown;
      var r := TrackFrame(st, [d], session, dist);
      && (novel ==> r.reported == st.reported + [d] && r.history == PushBounded(st.history, d.descriptor, HistoryCapacity))
      && (!novel ==> r.reported == st.reported && r.history == st.history)
  {
    assert [d][1..] == [];
  }

  /** Within one frame the history holds at most ten descriptors, provided it did before. */
  lemma {:induction false} HistoryStaysBounded(st: Tracking, detections: seq<Detection>, session: seq<Entry>, dist: Distance)
    requires |st.history| <= HistoryCapacity
    ensures |TrackFrame(st, detections, session, dist).history| <= HistoryCapacity
    decreases |detections|
  {
    if detections != [] {
      HistoryStaysBounded(Track(st, detections[0], session, dist), detections[1..], session, dist);
    }
  }

  /** Reported detections extend what was reported before, in the order of the frame's detections. */
  lemma {:induction false} ReportedInFrameOrder(st: Tracking, detections: seq<Detection>, session: seq<Entry>, dist: Distance)
    ensures
      var r := TrackFrame(st, detections, session, dist).reported;
      |st.reported| <= |r| && r[..|st.reported|] == st.reported && IsSubseq(r[|st.reported|..], detections)
    decreases |detections|
  {
    if detections != [] {
      var d := detections[0];
      var st' := Track(st, d, session, dist);
      ReportedInFrameOrder(st', detections[1..], session, dist);
      var r := TrackFrame(st, detections, session, dist).reported;
      assert r[..|st'.reported|] == st'.reported;
      assert r[..|st.reported|] == st'.reported[..|st.reported|] == st.reported;
      var tail := r[|st'.reported|..];
      if |st'.reported| == |st.reported| + 1 {
        assert r[|st.reported|..] == [d] + tail;
        assert ([d] + tail)[1..] == tail;
      } else {
        assert r[|st.reported|..] == tail;
      }
    }
  }

  /** A detection reported earlier in a frame suppresses the next one of the same frame when they are within 0.5. */
  lemma SameFrameSuppression(st: Tracking, a: Detection, b: Detection, session: seq<Entry>, dist: Distance)
    requires dist(b.descriptor, a.descriptor) < NoveltyThreshold
    ensures
      var afterA := Track(st, a, session, dist);
      |afterA.reported| > |st.reported| ==> Track(afterA, b, session, dist).reported == afterA.reported
  {
    var afterA := Track(st, a, session, dist);
    if |afterA.reported| > |st.reported| {
      var h := afterA.history;
      assert h[|h| - 1] == a.descriptor;
      assert NearAny(h, b.descriptor, NoveltyThreshold, dist);
    }
  }

  /** The ref `lastDescriptors` the caller owns. */
  class DescriptorHistory {
    var items: seq<Descriptor>

    constructor ()
      ensures items == []
    {
      items := [];
    }
  }

  /**
   * detectFacesInVideo without the drawing: a missing or zero-sized video is
   * skipped; otherwise each detection is looked up and, if new, handed to
   * `onFaceDetected` (returned here, in call order) and pushed onto the history.
   */
  method DetectFacesInVideo(video: Option<Video>, detections: seq<Detection>, lastDescriptors: DescriptorHistory,
                            store: LabelStore, faceNameMap: Option<seq<Entry>>, dist: Distance)
    returns (reported: seq<Detection>)
    requires store.Valid()
    modifies lastDescriptors, store
    ensures store.Valid()
    ensures !Playable(video) ==>
      reported == [] && lastDescriptors.items == old(lastDescriptors.items) && store.entries == old(store.entries)
    ensures Playable(video) ==>
      var r := TrackFrame(Tracking(old(lastDescriptors.items), old(store.entries), []), detections, SessionOf(faceNameMap), dist);
      reported == r.reported && lastDescriptors.items == r.history && store.entries == r.store
  {
    reported := [];
    if !Playable(video) {
      return;
    }
    ghost var session := SessionOf(faceNameMap);
    ghost var start := Tracking(lastDescriptors.items, store.entries, []);
    var i := 0;
    while i < |detections|
      invariant 0 <= i <= |detections|
      invariant store.Valid()
      invariant TrackFrame(Tracking(lastDescriptors.items, store.entries, reported), detections[i..], session, dist)
             == TrackFrame(start, detections, session, dist)
    {
      var detection := detections[i];
      assert detections[i..][1..] == detections[i + 1..];
      ghost var before := Tracking(lastDescriptors.items, store.entries, reported);
      var visitorName := store.FindBestMatch(detection.descriptor, faceNameMap, dist);
      var isDuplicate := NearAny(lastDescriptors.items, detection.descriptor, NoveltyThreshold, dist);
      if !isDuplicate && visitorName == Unknown {
        reported := reported + [detection];
        lastDescriptors.items := lastDescriptors.items + [detection.descriptor];
        if |lastDescriptors.items| > HistoryCapacity {
          lastDescriptors.items := lastDescriptors.items[1..];
        }
      }
      assert Tracking(lastDescriptors.items, store.entries, reported) == Track(before, detection, session, dist);
      i := i + 1;
    }
  }

  // ---------------------------------------------------------------------------
  // captureFaceSnapshot and processSnapshotData

  /** The snapshot record: image data URL, clock text, numeric id, padded region. */
  datatype FaceSnapshot = FaceSnapshot(src: Option<string>, timestamp: string, id: int, coordinates: Box)

  datatype SnapshotData = SnapshotData(base64: string, timestamp: string, id: int, coordinates: Box)

  /**
   * The padded crop region: a margin of a fifth of the shorter side on every
   * side, with the origin clamped at zero. The same margin is added to both
   * dimensions, and a box with non-negative origin and size lies inside it.
   */
  function PaddedRegion(box: Box): (r: Box)
    ensures r.x >= 0.0 && r.y >= 0.0
    ensures var margin := 0.2 * Min(box.width, box.height);
      && r.x == (if box.x >= margin then box.x - margin else 0.0)
      && r.y == (if box.y >= margin then box.y - margin else 0.0)
    ensures r.width - box.width == r.height - box.height == 0.4 * Min(box.width, box.height)
    ensures box.x >= 0.0 && box.y >= 0.0 && box.width >= 0.0 && box.height >= 0.0 ==>
      && r.x <= box.x && box.x + box.width <= r.x + r.width
      && r.y <= box.y && box.y + box.height <= r.y + r.height
  {
    var padding := Min(box.width, box.height) * 0.2;
    Box(Max(0.0, box.x - padding), Max(0.0, box.y - padding), box.width + padding * 2.0, box.height + padding * 2.0)
  }

  /**
   * processSnapshotData: nothing for a missing snapshot or image; otherwise the
   * image with one leading JPEG data-URL header removed and the metadata copied.
   */
  function ProcessSnapshotData(snapshot: Option<FaceSnapshot>): (r: Option<SnapshotData>)
    ensures r.None? <==> snapshot.None? || !Truthy(snapshot.value.src)
    ensures r.Some? ==>
      var s := snapshot.value;
      && r.value.timestamp == s.timestamp && r.value.id == s.id && r.value.coordinates == s.coordinates
      && (StartsWith(s.src.value, JpegHeader) ==> JpegHeader + r.value.base64 == s.src.value)
      && (!StartsWith(s.src.value, JpegHeader) ==> r.value.base64 == s.src.value)
  {
    if snapshot.None? || !Truthy(snapshot.value.src) then None
    else
      var s := snapshot.value;
      Some(SnapshotData(StripLiteral(s.src.value, JpegHeader), s.timestamp, s.id, s.coordinates))
  }
}
