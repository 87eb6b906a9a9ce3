/**
 * Track lifecycle (vision/app/services/tracker.py). ByteTrack itself is an
 * input: its output rows are merged back into detection payloads, and the
 * tracker keeps per-track hit and miss counters and a bounded centroid
 * history, evicting a track once it has been missed more than
 * `track_buffer` frames in a row.
 */
module VisionTracker {
  import opened Wrappers
  import opened Numbers
  import opened Strings
  import VisionEventHandler

  type Point = VisionEventHandler.Point

  /** One row of ByteTrack's output; a missing column of the output is None. */
  datatype TrackerRow = TrackerRow(x1: real, y1: real, x2: real, y2: real,
                                   confidence: Option<real>, classId: Option<int>, trackerId: Option<int>)

  /** The detector's payload, as far as the merge reads it. */
  datatype RawDetection = RawDetection(classId: int, className: string)

  datatype BBox = BBox(x1: int, y1: int, x2: int, y2: int, width: int, height: int)

  datatype TrackedOutput = TrackedOutput(
    trackId: string,
    frameId: int,
    classId: int,
    className: string,
    confidence: real,
    bbox: BBox,
    centroid: Point)

  /** The index of the first raw detection of this class, or -1 when there is none. */
  function FirstOfClass(raw: seq<RawDetection>, classId: int): (k: int)
    ensures -1 <= k < |raw|
    ensures k == -1 <==> forall i :: 0 <= i < |raw| ==> raw[i].classId != classId
    ensures k >= 0 ==> raw[k].classId == classId && forall i :: 0 <= i < k ==> raw[i].classId != classId
    decreases |raw|
  {
    if |raw| == 0 then -1
    else if raw[0].classId == classId then 0
    else
      var k := FirstOfClass(raw[1..], classId);
      assert forall i :: 1 <= i < |raw| ==> raw[1..][i - 1] == raw[i];
      if k == -1 then -1 else k + 1
  }

  /** The class name of the first raw detection of this class, else `unknown`. */
  function ClassNameFor(raw: seq<RawDetection>, classId: int): string
  {
    var k := FirstOfClass(raw, classId);
    if k < 0 then "unknown" else raw[k].className
  }

  /** The id given to a row ByteTrack left without one. */
  function FallbackTrackId(frameId: int, idx: int): string
  {
    "track_" + IntToString(frameId) + "_" + IntToString(idx)
  }

  /** Row `idx` merged with the raw detections; a missing confidence is 0 and a missing class -1. */
  function OutputAt(row: TrackerRow, raw: seq<RawDetection>, frameId: int, idx: int): TrackedOutput
  {
    var classId := row.classId.GetOr(-1);
    TrackedOutput(
      if row.trackerId.Some? then IntToString(row.trackerId.value) else FallbackTrackId(frameId, idx),
      frameId, classId, ClassNameFor(raw, classId), row.confidence.GetOr(0.0),
      BBox(Trunc(row.x1), Trunc(row.y1), Trunc(row.x2), Trunc(row.y2), Trunc(row.x2 - row.x1), Trunc(row.y2 - row.y1)),
      VisionEventHandler.Point(Trunc((row.x1 + row.x2) / 2.0), Trunc((row.y1 + row.y2) / 2.0)))
  }

  /**
   * The merged class name is that of a raw detection of the same class,
   * and the earliest one; only a class no raw detection has is `unknown`.
   */
  lemma ClassNameMeaning(raw: seq<RawDetection>, classId: int)
    ensures (forall i :: 0 <= i < |raw| ==> raw[i].classId != classId) ==> ClassNameFor(raw, classId) == "unknown"
    ensures forall k :: 0 <= k < |raw| && raw[k].classId == classId ==>
      exists j :: 0 <= j <= k && raw[j].classId == classId && ClassNameFor(raw, classId) == raw[j].className
  {
    var j := FirstOfClass(raw, classId);
    forall k | 0 <= k < |raw| && raw[k].classId == classId
      ensures 0 <= j <= k && raw[j].classId == classId && ClassNameFor(raw, classId) == raw[j].className
    {
    }
  }

  /** For a box with ordered corners the centroid lies inside the box, and width and height are non-negative. */
  lemma CentroidInsideBox(row: TrackerRow, raw: seq<RawDetection>, frameId: int, idx: int)
    requires row.x1 <= row.x2 && row.y1 <= row.y2
    ensures var o := OutputAt(row, raw, frameId, idx);
      o.bbox.x1 <= o.centroid.x <= o.bbox.x2 && o.bbox.y1 <= o.centroid.y <= o.bbox.y2
      && o.bbox.width >= 0 && o.bbox.height >= 0
  {
    TruncMonotone(row.x1, (row.x1 + row.x2) / 2.0);
    TruncMonotone((row.x1 + row.x2) / 2.0, row.x2);
    TruncMonotone(row.y1, (row.y1 + row.y2) / 2.0);
    TruncMonotone((row.y1 + row.y2) / 2.0, row.y2);
    TruncMonotone(0.0, row.x2 - row.x1);
    TruncMonotone(0.0, row.y2 - row.y1);
  }

  /** The first `n` rows merged, in order. */
  function MergedPrefix(all: seq<TrackerRow>, raw: seq<RawDetection>, frameId: int, n: nat): (r: seq<TrackedOutput>)
    requires n <= |all|
    ensures |r| == n
  {
    if n == 0 then [] else MergedPrefix(all, raw, frameId, n - 1) + [OutputAt(all[n - 1], raw, frameId, n - 1)]
  }

  /** Entry `idx` of a merged prefix is row `idx` merged. */
  lemma {:induction false} MergedPrefixAt(all: seq<TrackerRow>, raw: seq<RawDetection>, frameId: int, n: nat, idx: nat)
    requires idx < n <= |all|
    ensures MergedPrefix(all, raw, frameId, n)[idx] == OutputAt(all[idx], raw, frameId, idx)
  {
    var p := MergedPrefix(all, raw, frameId, n - 1);
    assert MergedPrefix(all, raw, frameId, n) == p + [OutputAt(all[n - 1], raw, frameId, n - 1)];
    if idx < n - 1 {
      MergedPrefixAt(all, raw, frameId, n - 1, idx);
    }
  }

  /** `_to_tracked_objects`: no output (or an empty one) gives no objects; otherwise one object per row, in order. */
  method ToTrackedObjects(rows: Option<seq<TrackerRow>>, raw: seq<RawDetection>, frameId: int)
    returns (objects: seq<TrackedOutput>)
    ensures rows.None? ==> objects == []
    ensures rows.Some? ==> |objects| == |rows.value|
    ensures rows.Some? ==> forall idx :: 0 <= idx < |objects| ==> objects[idx] == OutputAt(rows.value[idx], raw, frameId, idx)
  {
    objects := [];
    if rows.None? || |rows.value| == 0 {
      return;
    }
    var all := rows.value;
    var idx := 0;
    while idx < |all|
      invariant 0 <= idx <= |all|
      invariant objects == MergedPrefix(all, raw, frameId, idx)
    {
      objects := objects + [OutputAt(all[idx], raw, frameId, idx)];
      idx := idx + 1;
    }
    forall k | 0 <= k < |all|
      ensures objects[k] == OutputAt(all[k], raw, frameId, k)
    {
      MergedPrefixAt(all, raw, frameId, |all|, k);
    }
  }

  /** Rows without a tracker id within one frame get pairwise distinct ids. */
  lemma FallbackIdsDistinct(frameId: int, i: int, j: int)
    ensures FallbackTrackId(frameId, i) == FallbackTrackId(frameId, j) ==> i == j
  {
    var prefix := "track_" + IntToString(frameId) + "_";
    if FallbackTrackId(frameId, i) == FallbackTrackId(frameId, j) {
      assert FallbackTrackId(frameId, i)[|prefix|..] == IntToString(i);
      assert FallbackTrackId(frameId, j)[|prefix|..] == IntToString(j);
      IntToStringInjective(i, j);
    }
  }

  /** The payload the event handler reads from a tracked object. */
  function ToHandlerInput(o: TrackedOutput): (t: VisionEventHandler.TrackedObject)
    ensures t.trackId == o.trackId && t.centroid == Some(o.centroid)
    ensures t.width == o.bbox.width && t.height == o.bbox.height
  {
    VisionEventHandler.TrackedObject(o.trackId, Some(o.centroid), o.bbox.width, o.bbox.height,
                                     Some(o.className), Some(o.confidence))
  }

  // ---------------------------------------------------------------------
  // Track state
  // ---------------------------------------------------------------------

  datatype TrackState = TrackState(
    trackId: string,
    className: string,
    lastCentroid: Point,
    lastSeenFrame: int,
    hitCount: int,
    missCount: int,
    history: seq<Point>)

  /** Python's `h[-n:]`. */
  function PyTail<T>(h: seq<T>, n: int): (r: seq<T>)
    ensures n > 0 ==> r == h[|h| - Min(n, |h|)..]
    ensures n == 0 ==> r == h
    ensures n < 0 ==> r == h[Min(-n, |h|)..]
  {
    if n > 0 then h[|h| - Min(n, |h|)..] else if n == 0 then h else h[Min(-n, |h|)..]
  }

  /** The history after an append: trimmed to its last `buffer` entries when longer. */
  function TrimHistory(h: seq<Point>, buffer: int): (r: seq<Point>)
    ensures |h| <= buffer ==> r == h
    ensures buffer > 0 ==> |r| == Min(|h|, buffer) && r == h[|h| - |r|..]
    ensures buffer == 0 ==> r == h
  {
    if |h| > buffer then PyTail(h, buffer) else h
  }

  /** A track buffer of 0 never trims: the history of a track seen every frame grows without bound. */
  lemma ZeroBufferKeepsAll(h: seq<Point>, c: Point)
    ensures TrimHistory(h + [c], 0) == h + [c]
    ensures |TrimHistory(h + [c], 0)| == |h| + 1
  {
  }

  /** A sighting: an existing track is refreshed, an unknown id starts a track. */
  function See(tracks: map<string, TrackState>, o: TrackedOutput, frameId: int, buffer: int): (r: map<string, TrackState>)
    ensures r.Keys == tracks.Keys + {o.trackId}
    ensures forall id :: id in tracks && id != o.trackId ==> r[id] == tracks[id]
    ensures o.trackId in tracks ==>
      r[o.trackId] == tracks[o.trackId].(lastCentroid := o.centroid, lastSeenFrame := frameId,
                                         hitCount := tracks[o.trackId].hitCount + 1, missCount := 0,
                                         history := TrimHistory(tracks[o.trackId].history + [o.centroid], buffer))
    ensures o.trackId !in tracks ==>
      r[o.trackId] == TrackState(o.trackId, o.className, o.centroid, frameId, 1, 0, [o.centroid])
  {
    if o.trackId in tracks then
      var s := tracks[o.trackId];
      tracks[o.trackId := s.(lastCentroid := o.centroid, lastSeenFrame := frameId, hitCount := s.hitCount + 1,
                             missCount := 0, history := TrimHistory(s.history + [o.centroid], buffer))]
    else
      tracks[o.trackId := TrackState(o.trackId, o.className, o.centroid, frameId, 1, 0, [o.centroid])]
  }

  function SeeAll(tracks: map<string, TrackState>, objects: seq<TrackedOutput>, frameId: int, buffer: int)
    : (r: map<string, TrackState>)
    decreases |objects|
  {
    if |objects| == 0 then tracks
    else See(SeeAll(tracks, objects[..|objects| - 1], frameId, buffer), objects[|objects| - 1], frameId, buffer)
  }

  function SeenIds(objects: seq<TrackedOutput>): set<string>
  {
    set k | 0 <= k < |objects| :: objects[k].trackId
  }

  /** After the sightings, the unseen tracks are missed once more; those missed more than `buffer` times go. */
  function Age(tracks: map<string, TrackState>, seen: set<string>, buffer: int): (r: map<string, TrackState>)
    ensures forall id :: id in r <==> id in tracks && (id in seen || tracks[id].missCount + 1 <= buffer)
    ensures forall id :: id in r && id in seen ==> r[id] == tracks[id]
    ensures forall id :: id in r && id !in seen ==> r[id] == tracks[id].(missCount := tracks[id].missCount + 1)
  {
    map id | id in tracks && (id in seen || tracks[id].missCount + 1 <= buffer) ::
      if id in seen then tracks[id] else tracks[id].(missCount := tracks[id].missCount + 1)
  }

  /** `_update_track_state`. */
  function UpdateTracks(tracks: map<string, TrackState>, objects: seq<TrackedOutput>, frameId: int, buffer: int)
    : map<string, TrackState>
  {
    Age(SeeAll(tracks, objects, frameId, buffer), SeenIds(objects), buffer)
  }

  /** Every stored track is well formed for this buffer size. */
  predicate TrackValid(id: string, s: TrackState, buffer: int)
  {
    s.trackId == id && s.hitCount >= 1 && s.missCount >= 0
    && (buffer >= 0 ==> |s.history| >= 1 && s.missCount <= buffer)
    && (buffer >= 1 ==> |s.history| <= buffer)
  }

  predicate TracksValid(tracks: map<string, TrackState>, buffer: int)
  {
    forall id :: id in tracks ==> TrackValid(id, tracks[id], buffer)
  }

  /** The ids of a prefix one longer gain the new element's id. */
  lemma SeenIdsSnoc(objects: seq<TrackedOutput>, i: int)
    requires 0 <= i < |objects|
    ensures SeenIds(objects[..i + 1]) == SeenIds(objects[..i]) + {objects[i].trackId}
  {
    var next := objects[..i + 1];
    var prev := objects[..i];
    forall id | id in SeenIds(next)
      ensures id in SeenIds(prev) + {objects[i].trackId}
    {
      var k :| 0 <= k < |next| && next[k].trackId == id;
      if k < i {
        assert prev[k] == next[k];
      }
    }
    forall id | id in SeenIds(prev)
      ensures id in SeenIds(next)
    {
      var k :| 0 <= k < i && prev[k].trackId == id;
      assert next[k] == prev[k];
    }
  }

  /** The ids of a non-empty sequence are those of all but its last element, plus the last one's. */
  lemma SeenIdsLast(objects: seq<TrackedOutput>)
    requires |objects| > 0
    ensures SeenIds(objects) == SeenIds(objects[..|objects| - 1]) + {objects[|objects| - 1].trackId}
  {
    SeenIdsSnoc(objects, |objects| - 1);
    assert objects[..|objects|] == objects;
  }

  /** Sightings add exactly the seen ids. */
  lemma {:induction false} SeeAllKeys(tracks: map<string, TrackState>, objects: seq<TrackedOutput>, frameId: int, buffer: int)
    ensures SeeAll(tracks, objects, frameId, buffer).Keys == tracks.Keys + SeenIds(objects)
    decreases |objects|
  {
    var n := |objects|;
    if n > 0 {
      var init := objects[..n - 1];
      SeeAllKeys(tracks, init, frameId, buffer);
      SeenIdsLast(objects);
    } else {
      assert SeenIds(objects) == {};
    }
  }

  /** Sightings leave the unseen tracks alone. */
  lemma {:induction false} SeeAllUnseen(tracks: map<string, TrackState>, objects: seq<TrackedOutput>, frameId: int, buffer: int, id: string)
    requires id in tracks && id !in SeenIds(objects)
    ensures id in SeeAll(tracks, objects, frameId, buffer) && SeeAll(tracks, objects, frameId, buffer)[id] == tracks[id]
    decreases |objects|
  {
    var n := |objects|;
    if n > 0 {
      SeenIdsLast(objects);
      SeeAllUnseen(tracks, objects[..n - 1], frameId, buffer, id);
    }
  }

  /** A seen track ends the frame with no misses and this frame as its last sighting. */
  lemma {:induction false} SeeAllSeen(tracks: map<string, TrackState>, objects: seq<TrackedOutput>, frameId: int, buffer: int, id: string)
    requires id in SeenIds(objects)
    ensures id in SeeAll(tracks, objects, frameId, buffer)
    ensures SeeAll(tracks, objects, frameId, buffer)[id].missCount == 0
    ensures SeeAll(tracks, objects, frameId, buffer)[id].lastSeenFrame == frameId
    decreases |objects|
  {
    var n := |objects|;
    SeenIdsLast(objects);
    if objects[n - 1].trackId != id {
      SeeAllSeen(tracks, objects[..n - 1], frameId, buffer, id);
    }
  }

  predicate SightedValid(tracks: map<string, TrackState>, buffer: int)
  {
    forall id :: id in tracks ==>
      (tracks[id].trackId == id && tracks[id].hitCount >= 1 && tracks[id].missCount >= 0
       && (buffer >= 0 ==> |tracks[id].history| >= 1)
       && (buffer >= 1 ==> |tracks[id].history| <= buffer))
  }

  /** Sightings keep the counters and history length bounds. */
  lemma {:induction false} SeeAllWellFormed(tracks: map<string, TrackState>, objects: seq<TrackedOutput>, frameId: int, buffer: int)
    requires SightedValid(tracks, buffer)
    ensures SightedValid(SeeAll(tracks, objects, frameId, buffer), buffer)
    decreases |objects|
  {
    if |objects| > 0 {
      SeeAllWellFormed(tracks, objects[..|objects| - 1], frameId, buffer);
      SeeWellFormed(SeeAll(tracks, objects[..|objects| - 1], frameId, buffer), objects[|objects| - 1], frameId, buffer);
    }
  }

  /** One sighting keeps the counters and history length bounds. */
  lemma SeeWellFormed(tracks: map<string, TrackState>, o: TrackedOutput, frameId: int, buffer: int)
    requires SightedValid(tracks, buffer)
    ensures SightedValid(See(tracks, o, frameId, buffer), buffer)
  {
    var r := See(tracks, o, frameId, buffer);
    forall id | id in r
      ensures r[id].trackId == id && r[id].hitCount >= 1 && r[id].missCount >= 0
      ensures buffer >= 0 ==> |r[id].history| >= 1
      ensures buffer >= 1 ==> |r[id].history| <= buffer
    {
      if id == o.trackId && id in tracks {
        var h := tracks[id].history + [o.centroid];
        assert r[id].history == TrimHistory(h, buffer);
      }
    }
  }

  /** Counting misses and then popping the stale ids is `Age`. */
  lemma MissThenEvictIsAge(sighted: map<string, TrackState>, seen: set<string>, buffer: int,
                           aged: map<string, TrackState>, stale: set<string>)
    requires aged.Keys == sighted.Keys
    requires forall id :: id in sighted ==>
      aged[id] == if id in seen then sighted[id] else sighted[id].(missCount := sighted[id].missCount + 1)
    requires stale == set id | id in sighted && id !in seen && sighted[id].missCount + 1 > buffer
    ensures (map id | id in aged && id !in stale :: aged[id]) == Age(sighted, seen, buffer)
  {
    var left := map id | id in aged && id !in stale :: aged[id];
    var right := Age(sighted, seen, buffer);
    assert left.Keys == right.Keys;
    forall id | id in left
      ensures left[id] == right[id]
    {
    }
  }

  /** A frame's update keeps every track well formed. */
  lemma UpdateTracksValid(tracks: map<string, TrackState>, objects: seq<TrackedOutput>, frameId: int, buffer: int)
    requires TracksValid(tracks, buffer)
    ensures TracksValid(UpdateTracks(tracks, objects, frameId, buffer), buffer)
  {
    var sighted := SeeAll(tracks, objects, frameId, buffer);
    var seen := SeenIds(objects);
    SeeAllWellFormed(tracks, objects, frameId, buffer);
    var r := Age(sighted, seen, buffer);
    forall id | id in r
      ensures TrackValid(id, r[id], buffer)
    {
      if id in seen {
        SeeAllSeen(tracks, objects, frameId, buffer, id);
      } else {
        SeeAllKeys(tracks, objects, frameId, buffer);
        SeeAllUnseen(tracks, objects, frameId, buffer, id);
        assert TrackValid(id, tracks[id], buffer);
      }
    }
  }

  /** Tracks seen in a frame are kept, with no misses and this frame as their last sighting. */
  lemma UpdateTracksKeepsSeen(tracks: map<string, TrackState>, objects: seq<TrackedOutput>, frameId: int, buffer: int, k: int)
    requires 0 <= k < |objects|
    ensures var r := UpdateTracks(tracks, objects, frameId, buffer);
      objects[k].trackId in r && r[objects[k].trackId].missCount == 0 && r[objects[k].trackId].lastSeenFrame == frameId
  {
    assert objects[k].trackId in SeenIds(objects);
    SeeAllSeen(tracks, objects, frameId, buffer, objects[k].trackId);
  }

  /** An unseen track is missed once more, and kept exactly while its misses stay within the buffer. */
  lemma UpdateTracksAgesUnseen(tracks: map<string, TrackState>, objects: seq<TrackedOutput>, frameId: int, buffer: int, id: string)
    requires id in tracks && id !in SeenIds(objects)
    ensures var r := UpdateTracks(tracks, objects, frameId, buffer);
      (id in r <==> tracks[id].missCount + 1 <= buffer)
      && (id in r ==> r[id] == tracks[id].(missCount := tracks[id].missCount + 1))
  {
    SeeAllUnseen(tracks, objects, frameId, buffer, id);
  }

  /** The sum of the hit counts of a map's tracks. */
  ghost function HitSum(tracks: map<string, TrackState>): int
    decreases |tracks|
  {
    if tracks == map[] then 0
    else
      var id :| id in tracks;
      tracks[id].hitCount + HitSum(tracks - {id})
  }

  /** The sum may be taken starting from any track. */
  lemma {:induction false} HitSumFrom(tracks: map<string, TrackState>, id: string)
    requires id in tracks
    ensures HitSum(tracks) == tracks[id].hitCount + HitSum(tracks - {id})
    decreases |tracks|
  {
    var j :| j in tracks && HitSum(tracks) == tracks[j].hitCount + HitSum(tracks - {j});
    if j != id {
      var both := tracks - {j} - {id};
      assert tracks - {j} - {id} == tracks - {id} - {j};
      HitSumFrom(tracks - {j}, id);
      HitSumFrom(tracks - {id}, j);
    }
  }

  /** Every track has at least one hit, so the total is at least the number of tracks. */
  lemma {:induction false} HitSumAtLeastCount(tracks: map<string, TrackState>, buffer: int)
    requires TracksValid(tracks, buffer)
    ensures HitSum(tracks) >= |tracks|
    decreases |tracks|
  {
    if tracks != map[] {
      var id :| id in tracks;
      HitSumFrom(tracks, id);
      assert TrackValid(id, tracks[id], buffer);
      HitSumAtLeastCount(tracks - {id}, buffer);
    }
  }

  // ---------------------------------------------------------------------
  // The tracker
  // ---------------------------------------------------------------------

  class VehicleTracker {
    const trackBuffer: int
    var activeTracks: map<string, TrackState>

    ghost predicate Valid()
      reads this
    {
      TracksValid(activeTracks, trackBuffer)
    }

    constructor(trackBuffer: int)
      ensures Valid() && this.trackBuffer == trackBuffer && activeTracks == map[]
    {
      this.trackBuffer := trackBuffer;
      activeTracks := map[];
    }

    /** `_update_track_state`: the sightings in order, then the miss counting and eviction of the rest. */
    method UpdateTrackState(objects: seq<TrackedOutput>, frameId: int)
      requires Valid()
      modifies this
      ensures Valid()
      ensures activeTracks == UpdateTracks(old(activeTracks), objects, frameId, trackBuffer)
    {
      var tracks := activeTracks;
      var seen: set<string> := {};
      var i := 0;
      while i < |objects|
        invariant 0 <= i <= |objects|
        invariant seen == SeenIds(objects[..i])
        invariant tracks == SeeAll(old(activeTracks), objects[..i], frameId, trackBuffer)
      {
        assert objects[..i + 1][..i] == objects[..i];
        SeenIdsSnoc(objects, i);
        seen := seen + {objects[i].trackId};
        tracks := See(tracks, objects[i], frameId, trackBuffer);
        i := i + 1;
      }
      assert objects[..|objects|] == objects;
      var stale;
      tracks, stale := MissUnseen(tracks, seen);
      ghost var aged := tracks;
      tracks := Evict(tracks, stale);
      MissThenEvictIsAge(SeeAll(old(activeTracks), objects, frameId, trackBuffer), seen, trackBuffer, aged, stale);
      UpdateTracksValid(old(activeTracks), objects, frameId, trackBuffer);
      activeTracks := tracks;
    }

    /** The miss counting of `_update_track_state`: unseen tracks are missed once more; those over the buffer are returned. */
    method MissUnseen(sighted: map<string, TrackState>, seen: set<string>) returns (tracks: map<string, TrackState>, stale: set<string>)
      ensures tracks.Keys == sighted.Keys
      ensures forall id :: id in sighted ==>
        tracks[id] == if id in seen then sighted[id] else sighted[id].(missCount := sighted[id].missCount + 1)
      ensures stale == set id | id in sighted && id !in seen && sighted[id].missCount + 1 > trackBuffer
    {
      tracks := sighted;
      var pending := sighted.Keys;
      stale := {};
      while pending != {}
        invariant pending <= sighted.Keys && tracks.Keys == sighted.Keys
        invariant forall id :: id in pending ==> tracks[id] == sighted[id]
        invariant forall id :: id in sighted && id !in pending ==>
          tracks[id] == if id in seen then sighted[id] else sighted[id].(missCount := sighted[id].missCount + 1)
        invariant stale == set id | id in sighted && id !in pending && id !in seen && sighted[id].missCount + 1 > trackBuffer
        decreases pending
      {
        var id :| id in pending;
        if id !in seen {
          var s := tracks[id];
          tracks := tracks[id := s.(missCount := s.missCount + 1)];
          if s.missCount + 1 > trackBuffer {
            stale := stale + {id};
          }
        }
        pending := pending - {id};
      }
    }

    /** The eviction of `_update_track_state`: every stale id is popped. */
    static method Evict(aged: map<string, TrackState>, stale: set<string>) returns (tracks: map<string, TrackState>)
      ensures tracks == map id | id in aged && id !in stale :: aged[id]
    {
      tracks := aged;
      var remaining := stale;
      while remaining != {}
        invariant remaining <= stale
        invariant tracks == map id | id in aged && !(id in stale && id !in remaining) :: aged[id]
        decreases remaining
      {
        var id :| id in remaining;
        tracks := tracks - {id};
        remaining := remaining - {id};
      }
    }

    /** `update`: merge ByteTrack's rows, refresh the tracks, and return the merged objects. */
    method Update(raw: seq<RawDetection>, rows: Option<seq<TrackerRow>>, frameId: int) returns (objects: seq<TrackedOutput>)
      requires Valid()
      modifies this
      ensures Valid()
      ensures rows.None? ==> objects == []
      ensures rows.Some? ==> |objects| == |rows.value|
      ensures rows.Some? ==> forall idx :: 0 <= idx < |objects| ==> objects[idx] == OutputAt(rows.value[idx], raw, frameId, idx)
      ensures activeTracks == UpdateTracks(old(activeTracks), objects, frameId, trackBuffer)
    {
      objects := ToTrackedObjects(rows, raw, frameId);
      UpdateTrackState(objects, frameId);
    }

    /** `get_tracking_metrics`: the number of tracks and the sum of their hit counts. */
    method TrackingMetrics() returns (activeCount: int, totalHits: int)
      requires Valid()
      ensures activeCount == |activeTracks| && totalHits == HitSum(activeTracks)
      ensures totalHits >= activeCount
    {
      activeCount := |activeTracks|;
      totalHits := 0;
      var pending := activeTracks;
      while pending != map[]
        invariant pending.Keys <= activeTracks.Keys
        invariant forall id :: id in pending ==> pending[id] == activeTracks[id]
        invariant totalHits + HitSum(pending) == HitSum(activeTracks)
        decreases |pending|
      {
        var id :| id in pending;
        HitSumFrom(pending, id);
        totalHits := totalHits + pending[id].hitCount;
        pending := pending - {id};
      }
      HitSumAtLeastCount(activeTracks, trackBuffer);
    }

    /** `reset`: every track is dropped. */
    method Reset()
      modifies this
      ensures Valid() && activeTracks == map[]
    {
      activeTracks := map[];
    }
  }
}
