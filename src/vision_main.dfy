/**
 * The vision service's entry point (vision/main.py): the camera
 * configuration file, the settings the pipeline is built from, and the
 * frame-acquisition loop with its camera status and periodic tasks.
 * The configuration file is given already parsed, each read of the video
 * source is an input (whether it returned a frame), and so is the clock.
 */
module VisionMain {
  import opened Wrappers
  import opened Numbers
  import VisionEventHandler
  import VisionVideoSource
  import VisionConfig
  import VisionMonitoring
  import Strings

  type Line = VisionEventHandler.Line
  type VisionSettings = VisionConfig.VisionSettings

  // ---------------------------------------------------------------------
  // The camera configuration file
  // ---------------------------------------------------------------------

  /** One camera of `cameras.json`; `None` is a key the entry leaves out. */
  datatype CameraEntry = CameraEntry(
    cameraId: string,
    videoSource: Option<string>,
    videoType: Option<string>,
    lineCrossingPoints: Option<Line>,
    directionMapping: Option<map<string, string>>,
    floorId: Option<int>)

  /** The cameras keyed by id, a later entry replacing an earlier one with the same id. */
  function CamerasById(cams: seq<CameraEntry>): map<string, CameraEntry>
    decreases |cams|
  {
    if |cams| == 0 then map[]
    else CamerasById(cams[..|cams| - 1])[cams[|cams| - 1].cameraId := cams[|cams| - 1]]
  }

  /** Entry `i` is the last one in the list with its id. */
  ghost predicate LastWithId(cams: seq<CameraEntry>, i: int)
    requires 0 <= i < |cams|
  {
    forall j :: i < j < |cams| ==> cams[j].cameraId != cams[i].cameraId
  }

  /** An id is configured exactly when some entry has it. */
  lemma {:induction false} CamerasByIdKeys(cams: seq<CameraEntry>, id: string)
    ensures id in CamerasById(cams) <==> exists i :: 0 <= i < |cams| && cams[i].cameraId == id
    decreases |cams|
  {
    if |cams| > 0 {
      var init := cams[..|cams| - 1];
      CamerasByIdKeys(init, id);
      if id in CamerasById(init) {
        var i :| 0 <= i < |init| && init[i].cameraId == id;
        assert cams[i] == init[i];
      }
      if exists i :: 0 <= i < |cams| && cams[i].cameraId == id {
        var i :| 0 <= i < |cams| && cams[i].cameraId == id;
        if i < |cams| - 1 {
          assert init[i] == cams[i];
        }
      }
    }
  }

  /** Each id maps to the last entry that has it. */
  lemma {:induction false} LastEntryWins(cams: seq<CameraEntry>, i: int)
    requires 0 <= i < |cams| && LastWithId(cams, i)
    ensures cams[i].cameraId in CamerasById(cams) && CamerasById(cams)[cams[i].cameraId] == cams[i]
    decreases |cams|
  {
    if i < |cams| - 1 {
      var init := cams[..|cams| - 1];
      assert init[i] == cams[i];
      assert LastWithId(init, i) by {
        forall j | i < j < |init|
          ensures init[j].cameraId != init[i].cameraId
        {
          assert init[j] == cams[j];
        }
      }
      LastEntryWins(init, i);
      assert cams[|cams| - 1].cameraId != cams[i].cameraId;
    }
  }

  /** `load_camera_config`: a missing file gives no cameras. */
  function LoadCameraConfig(file: Option<seq<CameraEntry>>): map<string, CameraEntry>
  {
    if file.None? then map[] else CamerasById(file.value)
  }

  /**
   * With no file no camera is configured; with one, an id is configured
   * exactly when an entry has it, and the last such entry is the one used.
   */
  lemma LoadCameraConfigMeaning(file: Option<seq<CameraEntry>>, id: string, i: int)
    ensures file.None? ==> LoadCameraConfig(file) == map[]
    ensures file.Some? ==> (id in LoadCameraConfig(file) <==> exists k :: 0 <= k < |file.value| && file.value[k].cameraId == id)
    ensures file.Some? && 0 <= i < |file.value| && LastWithId(file.value, i) ==>
      file.value[i].cameraId in LoadCameraConfig(file) && LoadCameraConfig(file)[file.value[i].cameraId] == file.value[i]
  {
    if file.Some? {
      CamerasByIdKeys(file.value, id);
      if 0 <= i < |file.value| && LastWithId(file.value, i) {
        LastEntryWins(file.value, i);
      }
    }
  }

  /** Two entries for one camera: the second replaces the first. */
  lemma DuplicateCameraLastWins(a: CameraEntry, b: CameraEntry)
    requires a.cameraId == b.cameraId
    ensures LoadCameraConfig(Some([a, b])) == map[a.cameraId := b]
  {
    assert [a, b][..1] == [a];
    assert [a][..0] == [];
    assert CamerasById([a]) == map[a.cameraId := a];
    assert CamerasById([a, b]) == map[a.cameraId := a][b.cameraId := b];
  }

  /** The entry for the configured camera id, if the file has one. */
  function CameraFor(cameras: map<string, CameraEntry>, id: string): (c: Option<CameraEntry>)
    ensures c.Some? <==> id in cameras
    ensures c.Some? ==> c.value == cameras[id]
  {
    if id in cameras then Some(cameras[id]) else None
  }

  // ---------------------------------------------------------------------
  // The pipeline's settings
  // ---------------------------------------------------------------------

  /** The line and the two-direction mapping the entry point starts from. */
  const MainLine: Line := VisionEventHandler.Line(VisionEventHandler.Point(0, 360), VisionEventHandler.Point(1280, 360))
  const MainDirectionMapping: map<string, string> := map["up" := "entry", "down" := "exit"]

  /**
   * The event handler's settings: the camera's own line, mapping, id and
   * floor override the defaults; the rest come from the settings, through
   * the handler's own defaults and clamps.
   */
  function HandlerConfigFor(s: VisionSettings, cam: Option<CameraEntry>): VisionEventHandler.HandlerConfig
  {
    var line := if cam.Some? && cam.value.lineCrossingPoints.Some? then cam.value.lineCrossingPoints.value else MainLine;
    var mapping := if cam.Some? && cam.value.directionMapping.Some? then cam.value.directionMapping.value
                   else MainDirectionMapping;
    var cameraId := if cam.Some? then cam.value.cameraId else s.cameraId;
    var floorId := if cam.Some? && cam.value.floorId.Some? then cam.value.floorId.value else s.floorId;
    VisionEventHandler.MakeConfig(Some(line), s.areaThreshold, cameraId, floorId, mapping,
                                  s.eventDuplicateCooldownFrames, s.eventOcclusionToleranceFrames,
                                  s.eventMinCrossingDistancePx, s.eventReversalSuppressionFrames)
  }

  /**
   * What the camera entry overrides: each of line, mapping, id and floor
   * comes from the entry when it has one and from the defaults otherwise;
   * an empty mapping falls back to the handler's own full mapping.
   */
  lemma HandlerConfigOverrides(s: VisionSettings, cam: Option<CameraEntry>)
    ensures var c := HandlerConfigFor(s, cam);
      c.line == (if cam.Some? && cam.value.lineCrossingPoints.Some? then cam.value.lineCrossingPoints.value else MainLine)
      && c.cameraId == (if cam.Some? then cam.value.cameraId else s.cameraId)
      && c.floorId == (if cam.Some? && cam.value.floorId.Some? then cam.value.floorId.value else s.floorId)
      && (cam.None? || cam.value.directionMapping.None? ==> c.directionMapping == MainDirectionMapping)
      && (cam.Some? && cam.value.directionMapping.Some? && cam.value.directionMapping.value != map[] ==>
            c.directionMapping == cam.value.directionMapping.value)
      && (cam.Some? && cam.value.directionMapping == Some(map[]) ==>
            c.directionMapping == VisionEventHandler.DefaultDirectionMapping)
      && c.areaThreshold == s.areaThreshold
  {
    assert "up" in MainDirectionMapping;
  }

  /** Without a camera entry the handler watches the default line with ids from the settings. */
  lemma DefaultHandlerConfig()
    ensures var c := HandlerConfigFor(VisionConfig.DefaultSettings, None);
      c.line == VisionEventHandler.DefaultLine && c.cameraId == "cam_001" && c.floorId == 1
      && c.cooldownFrames == 12 && c.occlusionFrames == 20 && c.minDistancePx == 5 && c.reversalFrames == 20
  {
    HandlerConfigOverrides(VisionConfig.DefaultSettings, None);
  }

  /**
   * The video source's settings: the entry's source and type override the
   * settings', and an empty type is guessed from the source.
   */
  function VideoSourceConfigFor(s: VisionSettings, cam: Option<CameraEntry>): (c: VisionVideoSource.VideoSourceConfig)
    ensures c.sourceType != ""
    ensures c.source == (if cam.Some? && cam.value.videoSource.Some? then cam.value.videoSource.value else s.videoInputPath)
    ensures var given := if cam.Some? && cam.value.videoType.Some? then cam.value.videoType.value else s.videoInputType;
      c.sourceType == (if given == "" then VisionVideoSource.InferSourceType(c.source) else given)
    ensures c.width == Some(s.videoFrameWidth) && c.height == Some(s.videoFrameHeight)
    ensures c.targetFps == s.videoFps && c.reconnectDelaySeconds == s.videoReconnectDelaySeconds
  {
    var source := if cam.Some? && cam.value.videoSource.Some? then cam.value.videoSource.value else s.videoInputPath;
    var given := if cam.Some? && cam.value.videoType.Some? then cam.value.videoType.value else s.videoInputType;
    var sourceType := if given == "" then VisionVideoSource.InferSourceType(source) else given;
    VisionVideoSource.VideoSourceConfig(source, sourceType, Some(s.videoFrameWidth), Some(s.videoFrameHeight),
                                        s.videoFps, s.videoReconnectDelaySeconds)
  }

  /** An entry naming an RTSP stream without a type is read as a stream. */
  lemma UntypedStreamIsRtsp(s: VisionSettings, id: string)
    ensures VideoSourceConfigFor(s, Some(CameraEntry(id, Some("rtsp://cam/1"), Some(""), None, None, None))).sourceType == "rtsp"
  {
    VisionVideoSource.InferSourceTypeCaseInsensitive("rtsp://cam/1");
    assert Strings.Lower("rtsp://cam/1")[..7] == "rtsp://";
  }

  // ---------------------------------------------------------------------
  // Scheduling
  // ---------------------------------------------------------------------

  /** A periodic task runs on the frames that are multiples of its interval, every frame when that is below 1. */
  predicate IsDue(frameCount: int, interval: int)
  {
    frameCount % Max(1, interval) == 0
  }

  /** The frames among 1..n on which a task of the given interval runs, in order. */
  function DueFrames(n: nat, interval: int): seq<int>
  {
    if n == 0 then [] else DueFrames(n - 1, interval) + (if IsDue(n, interval) then [n] else [])
  }

  /** A task runs on frame f of the first n exactly when f is among 1..n and a multiple of the interval. */
  lemma {:induction false} DueFramesMembers(n: nat, interval: int, f: int)
    ensures f in DueFrames(n, interval) <==> 1 <= f <= n && f % Max(1, interval) == 0
  {
    if n > 0 {
      DueFramesMembers(n - 1, interval, f);
    }
  }

  /** The frames a task runs on are in increasing order. */
  lemma {:induction false} DueFramesIncreasing(n: nat, interval: int)
    ensures forall a, b :: 0 <= a < b < |DueFrames(n, interval)| ==> DueFrames(n, interval)[a] < DueFrames(n, interval)[b]
  {
    if n > 0 {
      DueFramesIncreasing(n - 1, interval);
      var prev := DueFrames(n - 1, interval);
      forall k | 0 <= k < |prev|
        ensures prev[k] < n
      {
        DueFramesMembers(n - 1, interval, prev[k]);
      }
    }
  }

  /** Over n frames a task runs n / interval times (n times for an interval below 1). */
  lemma {:induction false} DueFramesCount(n: nat, interval: int)
    ensures |DueFrames(n, interval)| == n / Max(1, interval)
  {
    if n > 0 {
      DueFramesCount(n - 1, interval);
      DivStep(n, Max(1, interval));
    }
  }

  /** A product of a positive factor and a factor of at least one is at least the first. */
  lemma MulAtLeast(k: int, m: int)
    requires k >= 1 && m >= 1
    ensures k * m >= m
  {
    assert k * m == (k - 1) * m + m;
  }

  /** The quotient is the only multiplier that leaves a remainder in 0..m-1. */
  lemma DivUnique(n: int, m: int, q: int, r: int)
    requires m >= 1 && 0 <= r < m && n == q * m + r
    ensures n / m == q && n % m == r
  {
    var q0 := n / m;
    var r0 := n % m;
    assert n == q0 * m + r0 && 0 <= r0 < m;
    if q > q0 {
      assert (q - q0) * m == q * m - q0 * m;
      MulAtLeast(q - q0, m);
    } else if q0 > q {
      assert (q0 - q) * m == q0 * m - q * m;
      MulAtLeast(q0 - q, m);
    }
  }

  /** Counting one more frame adds one to the quotient exactly when the frame is a multiple. */
  lemma DivStep(n: int, m: int)
    requires n >= 1 && m >= 1
    ensures n / m == (n - 1) / m + (if n % m == 0 then 1 else 0)
  {
    var q := (n - 1) / m;
    var r := (n - 1) % m;
    DivUnique(n - 1, m, q, r);
    if r == m - 1 {
      assert n == (q + 1) * m + 0;
      DivUnique(n, m, q + 1, 0);
    } else {
      assert n == q * m + (r + 1);
      DivUnique(n, m, q, r + 1);
    }
  }

  /** An interval below one makes a periodic job run on every frame. */
  lemma {:induction false} EveryFrameBelowOne(n: nat, interval: int)
    requires interval <= 1
    ensures DueFrames(n, interval) == seq(n, k => k + 1)
  {
    if n > 0 {
      EveryFrameBelowOne(n - 1, interval);
      assert seq(n, k => k + 1) == seq(n - 1, k => k + 1) + [n];
    }
  }

  /** With the default settings, 120 frames flush the queue 4 times and probe the backend twice. */
  lemma DefaultSchedule()
    ensures |DueFrames(120, VisionConfig.DefaultSettings.eventFlushIntervalFrames)| == 4
    ensures |DueFrames(120, VisionConfig.DefaultSettings.backendHealthCheckIntervalFrames)| == 2
  {
    DueFramesCount(120, 30);
    DueFramesCount(120, 60);
  }

  /** `MAX_FRAMES`: a positive limit stops the loop once that many frames were read; 0 means no limit. */
  predicate ReachedMaxFrames(maxFrames: int, frameCount: int)
  {
    maxFrames > 0 && frameCount >= maxFrames
  }

  /** The age after which the event handler forgets a track: twice the tracker's buffer, and at least 120 frames. */
  function StaleTrackAge(trackBuffer: int): (age: int)
    ensures age >= 120 && age >= 2 * trackBuffer
    ensures age == 120 || age == 2 * trackBuffer
  {
    Max(120, trackBuffer * 2)
  }

  // ---------------------------------------------------------------------
  // The acquisition loop
  // ---------------------------------------------------------------------

  /** The number of reads that returned a frame. */
  function Successes(outcomes: seq<bool>): (n: nat)
    ensures n <= |outcomes|
  {
    if outcomes == [] then 0 else Successes(outcomes[..|outcomes| - 1]) + (if outcomes[|outcomes| - 1] then 1 else 0)
  }

  /** The consecutive failure count after `outcomes`, starting from `start`: reset by a frame, one more per failure. */
  function FailuresAfter(start: int, outcomes: seq<bool>): int
  {
    if outcomes == [] then start
    else if outcomes[|outcomes| - 1] then 0
    else FailuresAfter(start, outcomes[..|outcomes| - 1]) + 1
  }

  /** The camera status after `outcomes`: running after a frame, degraded after a failure, offline from the fifth. */
  function StatusAfter(start: string, startFailures: int, outcomes: seq<bool>): string
  {
    if outcomes == [] then start
    else if outcomes[|outcomes| - 1] then "running"
    else if FailuresAfter(startFailures, outcomes) >= 5 then "offline"
    else "degraded"
  }

  /** The failure count is the length of the run of failures that ends the outcomes. */
  lemma {:induction false} FailuresCountTrailingRun(start: int, outcomes: seq<bool>, n: nat)
    requires n <= |outcomes| && forall k :: |outcomes| - n <= k < |outcomes| ==> !outcomes[k]
    ensures n < |outcomes| && outcomes[|outcomes| - n - 1] ==> FailuresAfter(start, outcomes) == n
    ensures n == |outcomes| ==> FailuresAfter(start, outcomes) == start + n
  {
    if n > 0 {
      FailuresCountTrailingRun(start, outcomes[..|outcomes| - 1], n - 1);
    }
  }

  /** A running camera goes offline on the fifth failed read in a row, and degraded before it. */
  lemma OfflineOnFifthFailure()
    ensures StatusAfter("running", 0, [false, false, false, false]) == "degraded"
    ensures StatusAfter("running", 0, [false, false, false, false, false]) == "offline"
    ensures StatusAfter("running", 0, [false, false, false, false, false, true]) == "running"
    ensures FailuresAfter(0, [false, false, false, false, false, true]) == 0
  {
    FailuresCountTrailingRun(0, [false, false, false, false], 4);
    FailuresCountTrailingRun(0, [false, false, false, false, false], 5);
  }

  /** Whether the loop stops after its `k`-th read: a file's failed read, or a frame that reaches the limit. */
  predicate StopsAfter(outcomes: seq<bool>, k: int, sourceType: string, maxFrames: int)
    requires 1 <= k <= |outcomes|
  {
    if outcomes[k - 1] then ReachedMaxFrames(maxFrames, Successes(outcomes[..k])) else sourceType == "file"
  }

  /** The frames on which each periodic task ran. */
  datatype Schedule = Schedule(flush: seq<int>, healthCheck: seq<int>, fpsLog: seq<int>, dashboard: seq<int>)

  /** The schedule of a run that counted `frames` frames. */
  function ScheduleFor(s: VisionSettings, frames: nat): Schedule
  {
    Schedule(DueFrames(frames, s.eventFlushIntervalFrames), DueFrames(frames, s.backendHealthCheckIntervalFrames),
             DueFrames(frames, s.videoFps), DueFrames(frames, s.monitorWriteIntervalFrames))
  }

  /** The time of the last frame after `outcomes`, read k having happened at `clock[k]`. */
  function LastFrameAt(start: real, outcomes: seq<bool>, clock: seq<real>): real
    requires |outcomes| <= |clock|
  {
    if outcomes == [] then start
    else if outcomes[|outcomes| - 1] then clock[|outcomes| - 1]
    else LastFrameAt(start, outcomes[..|outcomes| - 1], clock)
  }

  /** `main`'s update of the camera status after one read taken at `now`. */
  method RecordRead(camera: VisionMonitoring.CameraStatus, ok: bool, now: real)
    modifies camera
    ensures camera.consecutiveReadFailures == if ok then 0 else old(camera.consecutiveReadFailures) + 1
    ensures camera.status == if ok then "running" else if camera.consecutiveReadFailures >= 5 then "offline" else "degraded"
    ensures camera.lastFrameAt == if ok then now else old(camera.lastFrameAt)
  {
    if !ok {
      camera.consecutiveReadFailures := camera.consecutiveReadFailures + 1;
      camera.status := if camera.consecutiveReadFailures >= 5 then "offline" else "degraded";
      return;
    }
    camera.consecutiveReadFailures := 0;
    camera.status := "running";
    camera.lastFrameAt := now;
  }

  /** The periodic tasks of frame `frameCount`: each due task records the frame. */
  method RunDueTasks(s: VisionSettings, frameCount: nat, schedule: Schedule) returns (next: Schedule)
    requires frameCount >= 1 && schedule == ScheduleFor(s, frameCount - 1)
    ensures next == ScheduleFor(s, frameCount)
  {
    next := schedule;
    if IsDue(frameCount, s.eventFlushIntervalFrames) {
      next := next.(flush := next.flush + [frameCount]);
    }
    if IsDue(frameCount, s.backendHealthCheckIntervalFrames) {
      next := next.(healthCheck := next.healthCheck + [frameCount]);
    }
    if IsDue(frameCount, s.videoFps) {
      next := next.(fpsLog := next.fpsLog + [frameCount]);
    }
    if IsDue(frameCount, s.monitorWriteIntervalFrames) {
      next := next.(dashboard := next.dashboard + [frameCount]);
    }
  }

  /**
   * The `while True` loop of `main` over the reads of the source
   * (`outcomes[k]` is whether read k returned a frame, `clock[k]` the time
   * it was read). It stops after the first read for which `StopsAfter`
   * holds, or when the reads run out; it counts the frames, keeps the
   * camera status and runs each periodic task on its due frames.
   */
  method AcquisitionLoop(s: VisionSettings, sourceType: string, camera: VisionMonitoring.CameraStatus,
                         outcomes: seq<bool>, clock: seq<real>)
    returns (consumed: nat, frameCount: nat, schedule: Schedule)
    requires |clock| == |outcomes|
    modifies camera
    ensures consumed <= |outcomes|
    ensures forall k :: 1 <= k < consumed ==> !StopsAfter(outcomes, k, sourceType, s.maxFrames)
    ensures consumed < |outcomes| ==> consumed >= 1 && StopsAfter(outcomes, consumed, sourceType, s.maxFrames)
    ensures frameCount == Successes(outcomes[..consumed])
    ensures s.maxFrames > 0 ==> frameCount <= s.maxFrames
    ensures camera.consecutiveReadFailures == FailuresAfter(old(camera.consecutiveReadFailures), outcomes[..consumed])
    ensures camera.status == StatusAfter(old(camera.status), old(camera.consecutiveReadFailures), outcomes[..consumed])
    ensures camera.lastFrameAt == LastFrameAt(old(camera.lastFrameAt), outcomes[..consumed], clock)
    ensures schedule == ScheduleFor(s, frameCount)
  {
    ghost var startFailures := camera.consecutiveReadFailures;
    ghost var startStatus := camera.status;
    ghost var startTime := camera.lastFrameAt;
    consumed := 0;
    frameCount := 0;
    schedule := Schedule([], [], [], []);
    var stop := false;
    while consumed < |outcomes| && !stop
      invariant 0 <= consumed <= |outcomes|
      invariant forall k :: 1 <= k < consumed ==> !StopsAfter(outcomes, k, sourceType, s.maxFrames)
      invariant consumed >= 1 ==> (stop <==> StopsAfter(outcomes, consumed, sourceType, s.maxFrames))
      invariant consumed == 0 ==> !stop
      invariant frameCount == Successes(outcomes[..consumed])
      invariant s.maxFrames > 0 && !stop ==> frameCount < s.maxFrames
      invariant s.maxFrames > 0 ==> frameCount <= s.maxFrames
      invariant camera.consecutiveReadFailures == FailuresAfter(startFailures, outcomes[..consumed])
      invariant camera.status == StatusAfter(startStatus, startFailures, outcomes[..consumed])
      invariant camera.lastFrameAt == LastFrameAt(startTime, outcomes[..consumed], clock)
      invariant schedule == ScheduleFor(s, frameCount)
    {
      var ok := outcomes[consumed];
      ReadStep(outcomes, clock, consumed, startStatus, startFailures, startTime);
      RecordRead(camera, ok, clock[consumed]);
      consumed := consumed + 1;
      if ok {
        frameCount := frameCount + 1;
        schedule := RunDueTasks(s, frameCount, schedule);
      }
      stop := if ok then ReachedMaxFrames(s.maxFrames, frameCount) else sourceType == "file";
    }
  }

  /** One more read extends each read summary by that read. */
  lemma ReadStep(outcomes: seq<bool>, clock: seq<real>, c: nat, startStatus: string, startFailures: int, startTime: real)
    requires c < |outcomes| == |clock|
    ensures var before, after, ok := outcomes[..c], outcomes[..c + 1], outcomes[c];
      Successes(after) == Successes(before) + (if ok then 1 else 0)
      && FailuresAfter(startFailures, after) == (if ok then 0 else FailuresAfter(startFailures, before) + 1)
      && StatusAfter(startStatus, startFailures, after)
         == (if ok then "running" else if FailuresAfter(startFailures, after) >= 5 then "offline" else "degraded")
      && LastFrameAt(startTime, after, clock) == (if ok then clock[c] else LastFrameAt(startTime, before, clock))
  {
    var after := outcomes[..c + 1];
    assert after[..c] == outcomes[..c] && after[c] == outcomes[c];
  }

  /** A file source stops at its first failed read: every read before the last one returned a frame. */
  lemma FileStopsAtFirstFailure(outcomes: seq<bool>, consumed: nat, maxFrames: int)
    requires consumed <= |outcomes|
    requires forall k :: 1 <= k < consumed ==> !StopsAfter(outcomes, k, "file", maxFrames)
    ensures forall k :: 0 <= k < consumed - 1 ==> outcomes[k]
  {
    forall k | 0 <= k < consumed - 1
      ensures outcomes[k]
    {
      assert !StopsAfter(outcomes, k + 1, "file", maxFrames);
    }
  }

  /** A stream never stops on a failed read: it stops only on reaching the frame limit. */
  lemma StreamStopsOnlyAtLimit(outcomes: seq<bool>, consumed: nat, maxFrames: int)
    requires 1 <= consumed <= |outcomes|
    requires StopsAfter(outcomes, consumed, "rtsp", maxFrames)
    ensures outcomes[consumed - 1] && maxFrames > 0 && Successes(outcomes[..consumed]) >= maxFrames
  {
  }

  // ---------------------------------------------------------------------
  // Per-frame totals
  // ---------------------------------------------------------------------

  /**
   * The dashboard totals after one frame: the frame count and queue size
   * are overwritten, the other four accumulate.
   */
  function TotalsAfterFrame(totals: map<string, int>, frameCount: int, detections: int, tracked: int, events: int,
                            transmitted: int, queued: int): map<string, int>
    requires VisionMonitoring.TotalKeys <= totals.Keys
  {
    totals["frames" := frameCount]["detections" := totals["detections"] + detections]
          ["tracked_objects" := totals["tracked_objects"] + tracked]
          ["events_generated" := totals["events_generated"] + events]
          ["events_transmitted" := totals["events_transmitted"] + transmitted]
          ["events_queued" := queued]
  }

  /** Summed over the frames of a run, the accumulating totals are the sums of the per-frame numbers. */
  function TotalsAfterFrames(totals: map<string, int>, frames: seq<FrameCounts>): (r: map<string, int>)
    requires VisionMonitoring.TotalKeys <= totals.Keys
    ensures r.Keys == totals.Keys
    decreases |frames|
  {
    if frames == [] then totals
    else
      var f := frames[|frames| - 1];
      var before := TotalsAfterFrames(totals, frames[..|frames| - 1]);
      TotalsAfterFrame(before, |frames|, f.detections, f.tracked, f.events, f.transmitted, f.queued)
  }

  /** What one frame contributes to the totals. */
  datatype FrameCounts = FrameCounts(detections: nat, tracked: nat, events: nat, transmitted: nat, queued: nat)

  function SumEvents(frames: seq<FrameCounts>): nat
  {
    if frames == [] then 0 else SumEvents(frames[..|frames| - 1]) + frames[|frames| - 1].events
  }

  function SumTransmitted(frames: seq<FrameCounts>): nat
  {
    if frames == [] then 0 else SumTransmitted(frames[..|frames| - 1]) + frames[|frames| - 1].transmitted
  }

  /**
   * From the initial totals, a run's totals count its frames, sum its
   * generated and transmitted events, never report more transmitted than
   * generated when no frame does, and show the last frame's queue size.
   */
  lemma {:induction false} TotalsAfterFramesMeaning(frames: seq<FrameCounts>)
    ensures var t := TotalsAfterFrames(VisionMonitoring.InitialTotals, frames);
      t["frames"] == |frames| && t["events_generated"] == SumEvents(frames)
      && t["events_transmitted"] == SumTransmitted(frames)
      && t["events_queued"] == (if frames == [] then 0 else frames[|frames| - 1].queued)
    ensures (forall k :: 0 <= k < |frames| ==> frames[k].transmitted <= frames[k].events) ==>
      SumTransmitted(frames) <= SumEvents(frames)
  {
    if frames != [] {
      var init := frames[..|frames| - 1];
      TotalsAfterFramesMeaning(init);
      assert forall k :: 0 <= k < |init| ==> init[k] == frames[k];
    }
  }

  /** `main`'s in-place update of the monitor's totals after a frame. */
  method RecordFrameTotals(monitor: VisionMonitoring.PerformanceMonitor, frameCount: int, counts: FrameCounts)
    requires monitor.Valid()
    modifies monitor
    ensures monitor.Valid()
    ensures monitor.totals == TotalsAfterFrame(old(monitor.totals), frameCount, counts.detections, counts.tracked,
                                               counts.events, counts.transmitted, counts.queued)
    ensures monitor.stageLatencyMsSum == old(monitor.stageLatencyMsSum) && monitor.dashboard == old(monitor.dashboard)
  {
    var t := monitor.totals;
    t := t["frames" := frameCount];
    t := t["detections" := t["detections"] + counts.detections];
    t := t["tracked_objects" := t["tracked_objects"] + counts.tracked];
    t := t["events_generated" := t["events_generated"] + counts.events];
    t := t["events_transmitted" := t["events_transmitted"] + counts.transmitted];
    t := t["events_queued" := counts.queued];
    assert t.Keys == VisionMonitoring.TotalKeys;
    monitor.totals := t;
  }
}
