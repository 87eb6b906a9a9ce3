/**
 * Runtime monitoring of the vision service (vision/app/services/monitoring.py):
 * the camera status record, the running totals and per-stage latency sums,
 * and the dashboard they are written to. The clock is an input and the
 * dashboard file is a field.
 */
module VisionMonitoring {
  import opened Wrappers

  const Initializing := "initializing"

  /** `CameraStatus`: updated in place by the acquisition loop. */
  class CameraStatus {
    const cameraId: string
    const source: string
    var status: string
    var lastFrameAt: real
    var consecutiveReadFailures: int

    /** A new status is "initializing" unless one is given, with no failures and no frame time. */
    constructor(cameraId: string, source: string, status: Option<string>)
      ensures this.cameraId == cameraId && this.source == source && this.status == status.GetOr(Initializing)
      ensures lastFrameAt == 0.0 && consecutiveReadFailures == 0
    {
      this.cameraId := cameraId;
      this.source := source;
      this.status := status.GetOr(Initializing);
      lastFrameAt := 0.0;
      consecutiveReadFailures := 0;
    }
  }

  /** The four timed stages of a frame. */
  const Stages: set<string> := {"detect", "track", "event", "transmit"}

  /** The running totals. */
  const TotalKeys: set<string> := {"frames", "detections", "tracked_objects", "events_generated",
                                   "events_transmitted", "events_queued"}

  const InitialTotals: map<string, int> := map k | k in TotalKeys :: 0
  const InitialLatencySums: map<string, real> := map s | s in Stages :: 0.0

  /** The latency sums after one measurement: a known stage grows by the latency, never by a negative amount. */
  function AddLatency(sums: map<string, real>, stage: string, latencyMs: real): map<string, real>
  {
    if stage in sums then sums[stage := sums[stage] + (if latencyMs > 0.0 then latencyMs else 0.0)] else sums
  }

  /**
   * A measurement changes at most its own stage; an unknown stage changes
   * nothing; no sum ever decreases, and a known stage grows by exactly the
   * positive part of the latency.
   */
  lemma AddLatencyMeaning(sums: map<string, real>, stage: string, latencyMs: real)
    ensures AddLatency(sums, stage, latencyMs).Keys == sums.Keys
    ensures stage !in sums ==> AddLatency(sums, stage, latencyMs) == sums
    ensures forall s :: s in sums && s != stage ==> AddLatency(sums, stage, latencyMs)[s] == sums[s]
    ensures forall s :: s in sums ==> AddLatency(sums, stage, latencyMs)[s] >= sums[s]
    ensures stage in sums && latencyMs >= 0.0 ==> AddLatency(sums, stage, latencyMs)[stage] == sums[stage] + latencyMs
    ensures stage in sums && latencyMs <= 0.0 ==> AddLatency(sums, stage, latencyMs)[stage] == sums[stage]
  {
  }

  /** The per-stage averages of the dashboard: the sum per frame, or 0 before the first frame. */
  function AverageLatency(sums: map<string, real>, frameCount: int): map<string, real>
  {
    map s | s in sums :: if frameCount > 0 then sums[s] / frameCount as real else 0.0
  }

  /** Averages cover the same stages; before any frame they are 0; afterwards, average times frames is the sum. */
  lemma AverageLatencyMeaning(sums: map<string, real>, frameCount: int)
    ensures AverageLatency(sums, frameCount).Keys == sums.Keys
    ensures frameCount <= 0 ==> forall s :: s in sums ==> AverageLatency(sums, frameCount)[s] == 0.0
    ensures frameCount > 0 ==> forall s :: s in sums ==> AverageLatency(sums, frameCount)[s] * frameCount as real == sums[s]
    ensures (forall s :: s in sums ==> sums[s] >= 0.0) ==> forall s :: s in sums ==> AverageLatency(sums, frameCount)[s] >= 0.0
  {
  }

  /** What the dashboard shows of the camera. */
  datatype CameraSnapshot = CameraSnapshot(cameraId: string, source: string, status: string,
                                           lastFrameAt: real, consecutiveReadFailures: int)

  datatype Dashboard = Dashboard(
    timestamp: real,
    uptimeSeconds: real,
    averageFps: real,
    camera: CameraSnapshot,
    backendOnline: bool,
    queueSize: int,
    totals: map<string, int>,
    averageStageLatencyMs: map<string, real>)

  const MinUptime := 0.000001

  class PerformanceMonitor {
    const startedAt: real
    var totals: map<string, int>
    var stageLatencyMsSum: map<string, real>
    /** The last dashboard written, if any. */
    var dashboard: Option<Dashboard>

    /** Totals and latency sums cover exactly their keys, and the sums are never negative. */
    ghost predicate Valid()
      reads this
    {
      totals.Keys == TotalKeys && stageLatencyMsSum.Keys == Stages
      && forall s :: s in stageLatencyMsSum ==> stageLatencyMsSum[s] >= 0.0
    }

    /** Six zero totals and four zero latency sums. */
    constructor(startedAt: real)
      ensures Valid() && this.startedAt == startedAt
      ensures totals == InitialTotals && stageLatencyMsSum == InitialLatencySums && dashboard == None
    {
      this.startedAt := startedAt;
      totals := InitialTotals;
      stageLatencyMsSum := InitialLatencySums;
      dashboard := None;
    }

    /** `record_stage_latency`. */
    method RecordStageLatency(stage: string, latencyMs: real)
      requires Valid()
      modifies this
      ensures Valid()
      ensures stageLatencyMsSum == AddLatency(old(stageLatencyMsSum), stage, latencyMs)
      ensures totals == old(totals) && dashboard == old(dashboard)
    {
      if stage in stageLatencyMsSum {
        stageLatencyMsSum := stageLatencyMsSum[stage := stageLatencyMsSum[stage] + (if latencyMs > 0.0 then latencyMs else 0.0)];
      }
    }

    /** `write_dashboard` at clock reading `now`: frames per second over an uptime of at least a microsecond. */
    method WriteDashboard(frameCount: int, camera: CameraStatus, backendOnline: bool, queueSize: int, now: real)
      requires Valid()
      modifies this
      ensures Valid() && totals == old(totals) && stageLatencyMsSum == old(stageLatencyMsSum)
      ensures dashboard.Some?
      ensures var d := dashboard.value;
        d.timestamp == now
        && d.uptimeSeconds == (if now - startedAt > MinUptime then now - startedAt else MinUptime)
        && d.averageFps * d.uptimeSeconds == frameCount as real
        && d.camera == CameraSnapshot(camera.cameraId, camera.source, camera.status, camera.lastFrameAt,
                                      camera.consecutiveReadFailures)
        && d.backendOnline == backendOnline && d.queueSize == queueSize && d.totals == totals
        && d.averageStageLatencyMs == AverageLatency(stageLatencyMsSum, frameCount)
      ensures frameCount > 0 ==> dashboard.value.averageFps > 0.0
    {
      var uptime := if now - startedAt > MinUptime then now - startedAt else MinUptime;
      var fps := frameCount as real / uptime;
      dashboard := Some(Dashboard(now, uptime, fps,
                                  CameraSnapshot(camera.cameraId, camera.source, camera.status, camera.lastFrameAt,
                                                 camera.consecutiveReadFailures),
                                  backendOnline, queueSize, totals, AverageLatency(stageLatencyMsSum, frameCount)));
    }
  }

  /** The four measured stages of the dashboard test: each appears once, and the unknown stage is ignored. */
  lemma FourStagesRecorded()
    ensures var sums := AddLatency(AddLatency(AddLatency(AddLatency(InitialLatencySums, "detect", 100.0),
                                                         "track", 80.0), "event", 20.0), "transmit", 50.0);
      sums == map["detect" := 100.0, "track" := 80.0, "event" := 20.0, "transmit" := 50.0]
      && AddLatency(sums, "render", 5.0) == sums
      && AverageLatency(sums, 30)["detect"] * 30.0 == 100.0
  {
    var sums := AddLatency(AddLatency(AddLatency(AddLatency(InitialLatencySums, "detect", 100.0),
                                                 "track", 80.0), "event", 20.0), "transmit", 50.0);
    var expected := map["detect" := 100.0, "track" := 80.0, "event" := 20.0, "transmit" := 50.0];
    assert sums.Keys == expected.Keys;
    assert "render" !in Stages;
  }
}
