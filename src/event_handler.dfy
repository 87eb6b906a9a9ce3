/**
 * Line-crossing event generation (vision/app/services/event_handler.py).
 * Each tracked object's centroid is compared with its previous sighting;
 * a move from one side of the counting line strictly to the other, within
 * the occlusion tolerance and far enough, becomes an entry or exit event
 * unless the cooldown or the reversal window suppresses it. Positions and
 * the line are integer pixels, so the side test is exact.
 */
module VisionEventHandler {
  import opened Wrappers
  import opened Numbers

  datatype Point = Point(x: int, y: int)

  datatype Line = Line(start: Point, end: Point)

  const DefaultLine := Line(Point(0, 360), Point(1280, 360))

  const DefaultDirectionMapping: map<string, string> := map[
    "up" := "entry", "down" := "exit", "left" := "entry", "right" := "exit",
    "positive" := "entry", "negative" := "exit"]

  /** The handler's settings after the constructor's defaults and clamps. */
  datatype HandlerConfig = HandlerConfig(
    line: Line,
    areaThreshold: int,
    cameraId: string,
    floorId: int,
    directionMapping: map<string, string>,
    cooldownFrames: int,
    occlusionFrames: int,
    minDistancePx: int,
    reversalFrames: int)

  /**
   * The constructor's rules: no line (or an empty list) means the default
   * horizontal line, an empty mapping the default mapping; the three frame
   * windows are at least 1 and the minimum distance at least 0.
   */
  function MakeConfig(line: Option<Line>, areaThreshold: int, cameraId: string, floorId: int,
                      directionMapping: map<string, string>, cooldownFrames: int, occlusionFrames: int,
                      minDistancePx: int, reversalFrames: int): (c: HandlerConfig)
    ensures c.cooldownFrames >= 1 && c.occlusionFrames >= 1 && c.reversalFrames >= 1 && c.minDistancePx >= 0
    ensures c.cooldownFrames == Max(1, cooldownFrames) && c.occlusionFrames == Max(1, occlusionFrames)
    ensures c.reversalFrames == Max(1, reversalFrames) && c.minDistancePx == Max(0, minDistancePx)
    ensures c.directionMapping != map[] && (directionMapping != map[] ==> c.directionMapping == directionMapping)
    ensures line.Some? ==> c.line == line.value
  {
    assert "up" in DefaultDirectionMapping;
    HandlerConfig(line.GetOr(DefaultLine), areaThreshold, cameraId, floorId,
                  if directionMapping == map[] then DefaultDirectionMapping else directionMapping,
                  Max(1, cooldownFrames), Max(1, occlusionFrames), Max(0, minDistancePx), Max(1, reversalFrames))
  }

  /** The constructor's defaults. */
  const DefaultConfig := MakeConfig(None, 100, "cam_001", 1, map[], 12, 20, 5, 20)

  // ---------------------------------------------------------------------
  // Geometry
  // ---------------------------------------------------------------------

  /** Which side of the line `p` lies on: the cross product of the line with `p - start`. */
  function CrossSign(line: Line, p: Point): int
  {
    (line.end.x - line.start.x) * (p.y - line.start.y) - (line.end.y - line.start.y) * (p.x - line.start.x)
  }

  datatype Crossing = Crossing(point: Point, sign: string)

  /** A strict crossing: the two positions lie strictly on opposite sides. */
  function CheckLineCrossing(line: Line, prev: Point, curr: Point): (r: Option<Crossing>)
    ensures r.Some? <==> (CrossSign(line, prev) < 0 < CrossSign(line, curr) || CrossSign(line, curr) < 0 < CrossSign(line, prev))
    ensures r.Some? ==> r.value.point == Point(Midpoint(prev.x, curr.x), Midpoint(prev.y, curr.y))
    ensures r.Some? ==> (r.value.sign == "positive" <==> CrossSign(line, curr) > 0)
    ensures r.Some? ==> (r.value.sign == "negative" <==> CrossSign(line, curr) < 0)
  {
    var before, after := CrossSign(line, prev), CrossSign(line, curr);
    SignProduct(before, after);
    if before * after < 0 then
      Some(Crossing(Point(Midpoint(prev.x, curr.x), Midpoint(prev.y, curr.y)), if after > 0 then "positive" else "negative"))
    else None
  }

  lemma SignProduct(a: int, b: int)
    ensures a * b < 0 <==> (a < 0 < b || b < 0 < a)
  {
    if a < 0 && b > 0 {
      assert a * b == -((-a) * b);
    } else if a > 0 && b < 0 {
      assert a * b == -(a * (-b));
    } else if a <= 0 && b <= 0 {
      assert a * b == (-a) * (-b);
    }
  }

  /**
   * A point on the line never crosses, and crossing is symmetric: going
   * back over the line is a crossing too, with the opposite sign.
   */
  lemma CrossingSymmetric(line: Line, p: Point, q: Point)
    ensures CrossSign(line, p) == 0 ==> CheckLineCrossing(line, p, q).None? && CheckLineCrossing(line, q, p).None?
    ensures CheckLineCrossing(line, p, q).Some? <==> CheckLineCrossing(line, q, p).Some?
    ensures CheckLineCrossing(line, p, q).Some? ==>
      (CheckLineCrossing(line, p, q).value.sign == "positive" <==> CheckLineCrossing(line, q, p).value.sign == "negative")
  {
  }

  /** Both ends of the line are on it. */
  lemma LineEndsOnLine(line: Line)
    ensures CrossSign(line, line.start) == 0 && CrossSign(line, line.end) == 0
  {
  }

  /** `math.hypot(dx, dy) >= d` for a non-negative distance `d`, decided exactly on squares. */
  predicate MovedAtLeast(prev: Point, curr: Point, d: int)
  {
    (curr.x - prev.x) * (curr.x - prev.x) + (curr.y - prev.y) * (curr.y - prev.y) >= d * d
  }

  /** A mapping entry that Python's `or` accepts: present and non-empty. */
  function Lookup(mapping: map<string, string>, key: string): Option<string>
  {
    if key in mapping && mapping[key] != "" then Some(mapping[key]) else None
  }

  /** The primary motion: vertical for a line at most 45 degrees from horizontal, else horizontal. */
  function PrimaryMotion(line: Line, prev: Point, curr: Point): string
  {
    var dx := line.end.x - line.start.x;
    var dy := line.end.y - line.start.y;
    if (if dx < 0 then -dx else dx) >= (if dy < 0 then -dy else dy) then
      (if curr.y - prev.y > 0 then "down" else "up")
    else
      (if curr.x - prev.x > 0 then "right" else "left")
  }

  /** The mapped direction: that of the primary motion, else that of the side's sign, else `entry`. */
  function MapDirection(mapping: map<string, string>, line: Line, prev: Point, curr: Point, sign: string): (r: string)
    ensures r != ""
    ensures Lookup(mapping, PrimaryMotion(line, prev, curr)).Some? ==> r == mapping[PrimaryMotion(line, prev, curr)]
    ensures Lookup(mapping, PrimaryMotion(line, prev, curr)).None? && Lookup(mapping, sign).Some? ==> r == mapping[sign]
    ensures Lookup(mapping, PrimaryMotion(line, prev, curr)).None? && Lookup(mapping, sign).None? ==> r == "entry"
  {
    var primary := Lookup(mapping, PrimaryMotion(line, prev, curr));
    if primary.Some? then primary.value
    else if Lookup(mapping, sign).Some? then Lookup(mapping, sign).value
    else "entry"
  }

  /** With the default mapping and a horizontal-ish line, moving down is an exit and any other move an entry. */
  lemma DefaultMappingHorizontal(line: Line, prev: Point, curr: Point, sign: string)
    requires var dx := line.end.x - line.start.x; var dy := line.end.y - line.start.y;
      (if dx < 0 then -dx else dx) >= (if dy < 0 then -dy else dy)
    ensures MapDirection(DefaultDirectionMapping, line, prev, curr, sign) == (if curr.y > prev.y then "exit" else "entry")
  {
  }

  // ---------------------------------------------------------------------
  // Suppression
  // ---------------------------------------------------------------------

  datatype TrackPosition = TrackPosition(position: Point, frameId: int)

  datatype CrossingRecord = CrossingRecord(direction: string, frameId: int)

  predicate Opposite(a: string, b: string)
  {
    (a == "entry" && b == "exit") || (a == "exit" && b == "entry")
  }

  /** An opposite-direction crossing soon after the last emitted one. */
  predicate ReversalSuppressed(last: Option<CrossingRecord>, direction: string, frameId: int, window: int)
  {
    last.Some? && last.value.direction != "" && Opposite(last.value.direction, direction)
    && frameId - last.value.frameId <= window
  }

  /** No crossing was emitted for the track within the cooldown. */
  predicate UniqueCrossing(last: Option<CrossingRecord>, frameId: int, cooldown: int)
  {
    last.None? || frameId - last.value.frameId > cooldown
  }

  datatype Detected = Detected(direction: string, point: Point)

  /** `_detect_line_crossing`'s decision, given the track's previous sighting and last emitted crossing. */
  function Decide(cfg: HandlerConfig, prev: Option<TrackPosition>, last: Option<CrossingRecord>, pos: Point, frameId: int)
    : (r: Option<Detected>)
    ensures prev.None? ==> r.None?
    ensures r.Some? <==>
      (prev.Some? && frameId - prev.value.frameId <= cfg.occlusionFrames
       && MovedAtLeast(prev.value.position, pos, cfg.minDistancePx)
       && CheckLineCrossing(cfg.line, prev.value.position, pos).Some?
       && var d := MapDirection(cfg.directionMapping, cfg.line, prev.value.position, pos,
                                CheckLineCrossing(cfg.line, prev.value.position, pos).value.sign);
          !ReversalSuppressed(last, d, frameId, cfg.reversalFrames) && UniqueCrossing(last, frameId, cfg.cooldownFrames))
    ensures r.Some? ==>
      r.value == Detected(MapDirection(cfg.directionMapping, cfg.line, prev.value.position, pos,
                                       CheckLineCrossing(cfg.line, prev.value.position, pos).value.sign),
                          CheckLineCrossing(cfg.line, prev.value.position, pos).value.point)
  {
    if prev.None? then None
    else if frameId - prev.value.frameId > cfg.occlusionFrames then None
    else if !MovedAtLeast(prev.value.position, pos, cfg.minDistancePx) then None
    else
      var crossing := CheckLineCrossing(cfg.line, prev.value.position, pos);
      if crossing.None? then None
      else
        var d := MapDirection(cfg.directionMapping, cfg.line, prev.value.position, pos, crossing.value.sign);
        if ReversalSuppressed(last, d, frameId, cfg.reversalFrames) then None
        else if !UniqueCrossing(last, frameId, cfg.cooldownFrames) then None
        else Some(Detected(d, crossing.value.point))
  }

  /**
   * After an emitted crossing at frame `f`, the same track emits nothing
   * within the cooldown, nor an opposite crossing within the reversal
   * window; a stored position older than the occlusion tolerance never
   * yields an event.
   */
  lemma SuppressionWindows(cfg: HandlerConfig, prev: Option<TrackPosition>, d: string, f: int, pos: Point, frameId: int)
    ensures frameId - f <= cfg.cooldownFrames ==> Decide(cfg, prev, Some(CrossingRecord(d, f)), pos, frameId).None?
    ensures var r := Decide(cfg, prev, Some(CrossingRecord(d, f)), pos, frameId);
      r.Some? && frameId - f <= cfg.reversalFrames && d != "" ==> !Opposite(d, r.value.direction)
    ensures prev.Some? && frameId - prev.value.frameId > cfg.occlusionFrames ==>
      Decide(cfg, prev, Some(CrossingRecord(d, f)), pos, frameId).None?
  {
  }

  // ---------------------------------------------------------------------
  // Frames
  // ---------------------------------------------------------------------

  /** One element of the tracker's output; absent class name and confidence are None. */
  datatype TrackedObject = TrackedObject(
    trackId: string,
    centroid: Option<Point>,
    width: int,
    height: int,
    className: Option<string>,
    confidence: Option<real>)

  datatype CrossingEvent = CrossingEvent(
    trackId: string,
    direction: string,
    timestamp: string,
    crossingPoint: Point,
    cameraId: string,
    floorId: int,
    vehicleType: string,
    confidence: real,
    frameId: int)

  datatype HandlerState = HandlerState(history: map<string, TrackPosition>, lastCrossing: map<string, CrossingRecord>)

  function Get<V>(m: map<string, V>, key: string): Option<V>
  {
    if key in m then Some(m[key]) else None
  }

  /** Objects that are too small, unnamed or without a centroid are skipped. */
  predicate Qualifies(cfg: HandlerConfig, obj: TrackedObject)
  {
    obj.width * obj.height >= cfg.areaThreshold && obj.trackId != "" && obj.centroid.Some?
  }

  datatype StepResult = StepResult(state: HandlerState, event: Option<CrossingEvent>)

  /** One object of a frame: its sighting is stored, and a decided crossing is recorded and reported. */
  function StepObject(cfg: HandlerConfig, st: HandlerState, obj: TrackedObject, frameId: int, timestamp: string)
    : (r: StepResult)
    ensures !Qualifies(cfg, obj) ==> r == StepResult(st, None)
    ensures Qualifies(cfg, obj) ==>
      (r.state.history == st.history[obj.trackId := TrackPosition(obj.centroid.value, frameId)]
       && (r.event.Some? <==> Decide(cfg, Get(st.history, obj.trackId), Get(st.lastCrossing, obj.trackId), obj.centroid.value, frameId).Some?)
       && (r.event.None? ==> r.state.lastCrossing == st.lastCrossing)
       && (r.event.Some? ==>
             r.state.lastCrossing == st.lastCrossing[obj.trackId := CrossingRecord(r.event.value.direction, frameId)]
             && r.event.value.trackId == obj.trackId && r.event.value.frameId == frameId
             && r.event.value.cameraId == cfg.cameraId && r.event.value.floorId == cfg.floorId
             && r.event.value.vehicleType == obj.className.GetOr("unknown")
             && r.event.value.confidence == obj.confidence.GetOr(0.0)))
  {
    if !Qualifies(cfg, obj) then StepResult(st, None)
    else
      var pos := obj.centroid.value;
      var decided := Decide(cfg, Get(st.history, obj.trackId), Get(st.lastCrossing, obj.trackId), pos, frameId);
      var history := st.history[obj.trackId := TrackPosition(pos, frameId)];
      if decided.None? then StepResult(HandlerState(history, st.lastCrossing), None)
      else
        var d := decided.value;
        StepResult(HandlerState(history, st.lastCrossing[obj.trackId := CrossingRecord(d.direction, frameId)]),
                   Some(CrossingEvent(obj.trackId, d.direction, timestamp, d.point, cfg.cameraId, cfg.floorId,
                                      obj.className.GetOr("unknown"), obj.confidence.GetOr(0.0), frameId)))
  }

  datatype FrameResult = FrameResult(state: HandlerState, events: seq<CrossingEvent>)

  /** `process_frame`: the objects in order, the state threaded through. */
  function ProcessObjects(cfg: HandlerConfig, st: HandlerState, objects: seq<TrackedObject>, frameId: int, timestamp: string)
    : (r: FrameResult)
    ensures |r.events| <= |objects|
    decreases |objects|
  {
    if |objects| == 0 then FrameResult(st, [])
    else
      var before := ProcessObjects(cfg, st, objects[..|objects| - 1], frameId, timestamp);
      var step := StepObject(cfg, before.state, objects[|objects| - 1], frameId, timestamp);
      FrameResult(step.state, before.events + (if step.event.Some? then [step.event.value] else []))
  }

  /** An event reported for this frame and camera by one of its qualifying objects. */
  predicate ReportedBy(cfg: HandlerConfig, objects: seq<TrackedObject>, frameId: int, e: CrossingEvent)
  {
    e.frameId == frameId && e.cameraId == cfg.cameraId
    && exists j :: 0 <= j < |objects| && Qualifies(cfg, objects[j]) && objects[j].trackId == e.trackId
  }

  lemma StepEvent(cfg: HandlerConfig, st: HandlerState, objects: seq<TrackedObject>, frameId: int, timestamp: string)
    requires |objects| > 0
    ensures var e := StepObject(cfg, st, objects[|objects| - 1], frameId, timestamp).event;
      e.Some? ==> ReportedBy(cfg, objects, frameId, e.value)
  {
    var obj := objects[|objects| - 1];
    var e := StepObject(cfg, st, obj, frameId, timestamp).event;
    if e.Some? {
      assert Qualifies(cfg, obj) && e.value.trackId == obj.trackId;
    }
  }

  lemma ReportedByLonger(cfg: HandlerConfig, objects: seq<TrackedObject>, frameId: int, e: CrossingEvent)
    requires |objects| > 0 && ReportedBy(cfg, objects[..|objects| - 1], frameId, e)
    ensures ReportedBy(cfg, objects, frameId, e)
  {
    var init := objects[..|objects| - 1];
    var j :| 0 <= j < |init| && Qualifies(cfg, init[j]) && init[j].trackId == e.trackId;
    assert objects[j] == init[j];
  }

  /** A frame reports only events of its own qualifying objects, for this camera and frame. */
  lemma {:induction false} ProcessObjectsEvents(cfg: HandlerConfig, st: HandlerState, objects: seq<TrackedObject>,
                                                frameId: int, timestamp: string)
    ensures forall e :: e in ProcessObjects(cfg, st, objects, frameId, timestamp).events ==> ReportedBy(cfg, objects, frameId, e)
    decreases |objects|
  {
    if |objects| > 0 {
      var init := objects[..|objects| - 1];
      ProcessObjectsEvents(cfg, st, init, frameId, timestamp);
      var before := ProcessObjects(cfg, st, init, frameId, timestamp);
      var step := StepObject(cfg, before.state, objects[|objects| - 1], frameId, timestamp);
      StepEvent(cfg, before.state, objects, frameId, timestamp);
      var r := ProcessObjects(cfg, st, objects, frameId, timestamp);
      assert r.events == before.events + (if step.event.Some? then [step.event.value] else []);
      forall e | e in r.events
        ensures ReportedBy(cfg, objects, frameId, e)
      {
        if e in before.events {
          ReportedByLonger(cfg, objects, frameId, e);
        }
      }
    }
  }

  /** Objects that do not qualify leave the state as it was and report nothing. */
  lemma {:induction false} SkippedObjectsChangeNothing(cfg: HandlerConfig, st: HandlerState, objects: seq<TrackedObject>,
                                                       frameId: int, timestamp: string)
    requires forall k :: 0 <= k < |objects| ==> !Qualifies(cfg, objects[k])
    ensures ProcessObjects(cfg, st, objects, frameId, timestamp) == FrameResult(st, [])
    decreases |objects|
  {
    if |objects| > 0 {
      SkippedObjectsChangeNothing(cfg, st, objects[..|objects| - 1], frameId, timestamp);
    }
  }

  /** Whether a track's last sighting is older than `maxAge` frames. */
  predicate Stale(st: HandlerState, trackId: string, maxAge: int, currentFrame: int)
    requires trackId in st.history
  {
    currentFrame - st.history[trackId].frameId > maxAge
  }

  /** `clear_old_tracks`: stale tracks leave both maps; every other entry stays. */
  function ClearStale(st: HandlerState, maxAge: int, currentFrame: int): (r: HandlerState)
    ensures forall id :: id in r.history <==> id in st.history && !Stale(st, id, maxAge, currentFrame)
    ensures forall id :: id in r.lastCrossing <==>
      id in st.lastCrossing && !(id in st.history && Stale(st, id, maxAge, currentFrame))
    ensures forall id :: id in r.history ==> r.history[id] == st.history[id]
    ensures forall id :: id in r.lastCrossing ==> r.lastCrossing[id] == st.lastCrossing[id]
  {
    HandlerState(
      map id | id in st.history && !Stale(st, id, maxAge, currentFrame) :: st.history[id],
      map id | id in st.lastCrossing && !(id in st.history && Stale(st, id, maxAge, currentFrame)) :: st.lastCrossing[id])
  }

  /** Clearing again at the same frame removes nothing more. */
  lemma ClearStaleIdempotent(st: HandlerState, maxAge: int, currentFrame: int)
    ensures ClearStale(ClearStale(st, maxAge, currentFrame), maxAge, currentFrame) == ClearStale(st, maxAge, currentFrame)
  {
    var once := ClearStale(st, maxAge, currentFrame);
    var twice := ClearStale(once, maxAge, currentFrame);
    assert twice.history == once.history;
    assert twice.lastCrossing == once.lastCrossing;
  }

  function TestObject(y: int): TrackedObject
  {
    TrackedObject("track_1", Some(Point(200, y)), 50, 40, Some("car"), Some(0.95))
  }

  /**
   * A track crossing the default line downwards and then jittering across
   * it twice within the cooldown reports exactly one event, an exit.
   */
  lemma SingleEventPerCrossing(timestamp: string)
    ensures var cfg := MakeConfig(Some(DefaultLine), 100, "cam_001", 1, map[], 10, 20, 5, 20);
      var r1 := ProcessObjects(cfg, HandlerState(map[], map[]), [TestObject(350)], 1, timestamp);
      var r2 := ProcessObjects(cfg, r1.state, [TestObject(370)], 2, timestamp);
      var r3 := ProcessObjects(cfg, r2.state, [TestObject(355)], 3, timestamp);
      var r4 := ProcessObjects(cfg, r3.state, [TestObject(365)], 4, timestamp);
      r1.events == [] && |r2.events| == 1 && r2.events[0].direction == "exit" && r3.events == [] && r4.events == []
  {
    var cfg := MakeConfig(Some(DefaultLine), 100, "cam_001", 1, map[], 10, 20, 5, 20);
    var r1 := ProcessObjects(cfg, HandlerState(map[], map[]), [TestObject(350)], 1, timestamp);
    assert [TestObject(350)][..0] == [];
    assert r1.state.history == map["track_1" := TrackPosition(Point(200, 350), 1)];
    var r2 := ProcessObjects(cfg, r1.state, [TestObject(370)], 2, timestamp);
    assert [TestObject(370)][..0] == [];
    assert r2.state.lastCrossing == map["track_1" := CrossingRecord("exit", 2)];
    var r3 := ProcessObjects(cfg, r2.state, [TestObject(355)], 3, timestamp);
    assert [TestObject(355)][..0] == [];
    assert r3.state.lastCrossing == r2.state.lastCrossing;
    var r4 := ProcessObjects(cfg, r3.state, [TestObject(365)], 4, timestamp);
    assert [TestObject(365)][..0] == [];
  }

  // ---------------------------------------------------------------------
  // The handler
  // ---------------------------------------------------------------------

  class EventHandler {
    const config: HandlerConfig
    var trackHistory: map<string, TrackPosition>
    var lastCrossing: map<string, CrossingRecord>

    constructor(config: HandlerConfig)
      ensures this.config == config && trackHistory == map[] && lastCrossing == map[]
    {
      this.config := config;
      trackHistory := map[];
      lastCrossing := map[];
    }

    function State(): HandlerState
      reads this
    {
      HandlerState(trackHistory, lastCrossing)
    }

    /** `_detect_line_crossing`: the sighting always replaces the stored one; a decided crossing is recorded. */
    method DetectLineCrossing(trackId: string, pos: Point, frameId: int) returns (r: Option<Detected>)
      modifies this
      ensures r == Decide(config, Get(old(trackHistory), trackId), Get(old(lastCrossing), trackId), pos, frameId)
      ensures trackHistory == old(trackHistory)[trackId := TrackPosition(pos, frameId)]
      ensures lastCrossing == if r.Some? then old(lastCrossing)[trackId := CrossingRecord(r.value.direction, frameId)]
                              else old(lastCrossing)
    {
      var prev := Get(trackHistory, trackId);
      trackHistory := trackHistory[trackId := TrackPosition(pos, frameId)];
      if prev.None? {
        return None;
      }
      if frameId - prev.value.frameId > config.occlusionFrames {
        return None;
      }
      if !MovedAtLeast(prev.value.position, pos, config.minDistancePx) {
        return None;
      }
      var crossing := CheckLineCrossing(config.line, prev.value.position, pos);
      if crossing.None? {
        return None;
      }
      var d := MapDirection(config.directionMapping, config.line, prev.value.position, pos, crossing.value.sign);
      var last := Get(lastCrossing, trackId);
      if ReversalSuppressed(last, d, frameId, config.reversalFrames) {
        return None;
      }
      if !UniqueCrossing(last, frameId, config.cooldownFrames) {
        return None;
      }
      lastCrossing := lastCrossing[trackId := CrossingRecord(d, frameId)];
      r := Some(Detected(d, crossing.value.point));
    }

    /** `process_frame`: the events of the frame's objects, in their order. */
    method ProcessFrame(objects: seq<TrackedObject>, frameId: int, timestamp: string) returns (events: seq<CrossingEvent>)
      modifies this
      ensures FrameResult(State(), events) == ProcessObjects(config, old(State()), objects, frameId, timestamp)
    {
      events := [];
      var i := 0;
      while i < |objects|
        invariant 0 <= i <= |objects|
        invariant FrameResult(State(), events) == ProcessObjects(config, old(State()), objects[..i], frameId, timestamp)
      {
        assert objects[..i + 1][..i] == objects[..i];
        var obj := objects[i];
        if Qualifies(config, obj) {
          var detected := DetectLineCrossing(obj.trackId, obj.centroid.value, frameId);
          if detected.Some? {
            events := events + [CrossingEvent(obj.trackId, detected.value.direction, timestamp, detected.value.point,
                                              config.cameraId, config.floorId, obj.className.GetOr("unknown"),
                                              obj.confidence.GetOr(0.0), frameId)];
          }
        }
        i := i + 1;
      }
      assert objects[..|objects|] == objects;
    }

    /** `clear_old_tracks`: collects the stale tracks, then drops each from both maps. */
    method ClearOldTracks(maxAge: int, currentFrame: int)
      modifies this
      ensures State() == ClearStale(old(State()), maxAge, currentFrame)
    {
      var stale: set<string> := set id | id in trackHistory && currentFrame - trackHistory[id].frameId > maxAge;
      var remaining := stale;
      while remaining != {}
        invariant remaining <= stale
        invariant trackHistory == map id | id in old(trackHistory) && !(id in stale && id !in remaining) :: old(trackHistory)[id]
        invariant lastCrossing == map id | id in old(lastCrossing) && !(id in stale && id !in remaining) :: old(lastCrossing)[id]
        decreases remaining
      {
        var id :| id in remaining;
        trackHistory := map k | k in trackHistory && k != id :: trackHistory[k];
        lastCrossing := map k | k in lastCrossing && k != id :: lastCrossing[k];
        remaining := remaining - {id};
      }
      assert trackHistory == ClearStale(old(State()), maxAge, currentFrame).history;
      assert lastCrossing == ClearStale(old(State()), maxAge, currentFrame).lastCrossing;
    }
  }
}
