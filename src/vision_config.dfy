/**
 * The vision service's settings (vision/app/core/config.py): their
 * defaults, the event URL and the configured detection classes.
 * Reading the environment is left to the caller: a `VisionSettings` value
 * holds what was read.
 */
module VisionConfig {
  import opened Wrappers
  import opened Strings
  import opened Seqs
  import BackendConfig
  import VisionApiClient
  import VisionDetector

  datatype VisionSettings = VisionSettings(
    backendApiUrl: string,
    backendEventEndpoint: string,
    apiTimeout: int,
    apiRetryAttempts: int,
    apiRetryDelay: int,
    eventFlushIntervalFrames: int,
    eventFlushBatchSize: int,
    modelConfidenceThreshold: real,
    modelIouThreshold: real,
    modelTargetClasses: string,
    detectionVisualize: bool,
    videoInputType: string,
    videoInputPath: string,
    videoFps: int,
    videoFrameWidth: int,
    videoFrameHeight: int,
    videoReconnectDelaySeconds: real,
    maxFrames: int,
    trackerTrackBuffer: int,
    cameraId: string,
    floorId: int,
    areaThreshold: int,
    eventDuplicateCooldownFrames: int,
    eventOcclusionToleranceFrames: int,
    eventMinCrossingDistancePx: int,
    eventReversalSuppressionFrames: int,
    darkFrameBrightnessThreshold: real,
    lowLightConfidenceFactor: real,
    lowLightMinConfidence: real,
    lowLightEnhanceFrame: bool,
    monitorWriteIntervalFrames: int,
    backendHealthCheckIntervalFrames: int)

  /** The values used when the environment sets nothing. */
  const DefaultSettings := VisionSettings(
    "http://localhost:8000", "/event", 5, 3, 1, 30, 100, 0.5, 0.45, "car,motorcycle,bus,truck", false,
    "file", "./data/sample_video.mp4", 15, 1280, 720, 1.0, 0, 30, "cam_001", 1,
    100, 12, 20, 5, 20, 60.0, 0.8, 0.25, false, 15, 60)

  /** `full_api_url`: the endpoint path appended to the base URL. */
  function FullApiUrl(s: VisionSettings): string
  {
    s.backendApiUrl + s.backendEventEndpoint
  }

  /** By default events go to /event of the local backend, and the health probe to its /health. */
  lemma DefaultUrls()
    ensures FullApiUrl(DefaultSettings) == "http://localhost:8000/event"
    ensures VisionApiClient.HealthUrl(FullApiUrl(DefaultSettings)) == "http://localhost:8000/health"
  {
    VisionApiClient.EventHealthUrl();
  }

  function LowerAll(items: seq<string>): (r: seq<string>)
    ensures |r| == |items|
    ensures forall k :: 0 <= k < |r| ==> r[k] == Lower(items[k])
  {
    seq(|items|, k requires 0 <= k < |items| => Lower(items[k]))
  }

  /**
   * `target_class_names`: the comma-separated pieces, stripped, with blank
   * ones dropped, each lower-cased. Lower-casing keeps a piece's length, so
   * lower-casing after dropping the blank pieces is the same as the source's
   * comprehension, which tests the stripped piece before lower-casing it.
   */
  function TargetClassNames(raw: string): seq<string>
  {
    LowerAll(BackendConfig.ParseCsv(raw))
  }

  /** Lower-casing changes letters only: a non-empty, stripped, comma-free text stays so, and becomes lower-case. */
  lemma LowerKeepsWellFormed(s: string)
    requires s != "" && IsStripped(s) && Free(s, ',')
    ensures var t := Lower(s); t != "" && IsStripped(t) && IsLower(t) && Free(t, ',')
  {
    LowerIsLower(s);
  }

  /** Every configured name is non-empty, stripped, lower-case and free of commas, in the order given. */
  lemma TargetClassNamesMeaning(raw: string)
    ensures forall name :: name in TargetClassNames(raw) ==>
      name != "" && IsStripped(name) && IsLower(name) && Free(name, ',')
    ensures IsSubsequence(BackendConfig.ParseCsv(raw), BackendConfig.StripAll(Split(raw, ',')))
  {
    var items := BackendConfig.ParseCsv(raw);
    var names := LowerAll(items);
    forall k | 0 <= k < |names|
      ensures names[k] != "" && IsStripped(names[k]) && IsLower(names[k]) && Free(names[k], ',')
    {
      LowerKeepsWellFormed(items[k]);
    }
    BackendConfig.ParseCsvKeepsOrder(raw);
  }

  /** A list of lower-case names written with commas is read back unchanged. */
  lemma TargetClassNamesJoin(names: seq<string>)
    requires forall k :: 0 <= k < |names| ==> names[k] != "" && IsStripped(names[k]) && IsLower(names[k]) && Free(names[k], ',')
    ensures TargetClassNames(Join(names, ',')) == names
  {
    assert forall k :: 0 <= k < |names| ==> names[k] != "" && IsStripped(names[k]) && Free(names[k], ',');
    assert forall k :: 0 <= k < |names| ==> IsLower(names[k]);
    var raw := Join(names, ',');
    BackendConfig.ParseCsvJoin(names);
    LowerAllNoop(names);
    TargetClassNamesOfParse(raw, names);
  }

  lemma TargetClassNamesOfParse(raw: string, parsed: seq<string>)
    requires BackendConfig.ParseCsv(raw) == parsed && LowerAll(parsed) == parsed
    ensures TargetClassNames(raw) == parsed
  {
  }

  /** Lower-casing a list of lower-case names changes nothing. */
  lemma LowerAllNoop(names: seq<string>)
    requires forall k :: 0 <= k < |names| ==> IsLower(names[k])
    ensures LowerAll(names) == names
  {
    var lowered := LowerAll(names);
    forall k | 0 <= k < |names|
      ensures lowered[k] == names[k]
    {
      LowerNoop(names[k]);
    }
  }

  /** The default setting is the comma join of the four vehicle classes. */
  lemma JoinDefaultClassNames()
    ensures Join(VisionDetector.DefaultClassNames, ',') == "car,motorcycle,bus,truck"
  {
    var names := VisionDetector.DefaultClassNames;
    assert names[1..] == ["motorcycle", "bus", "truck"];
    assert names[1..][1..] == ["bus", "truck"];
    assert names[1..][1..][1..] == ["truck"];
    assert Join(["truck"], ',') == "truck";
    assert Join(["bus", "truck"], ',') == "bus,truck";
    assert Join(["motorcycle", "bus", "truck"], ',') == "motorcycle,bus,truck";
  }

  /** Each of the four vehicle class names is a well-formed configured name. */
  lemma DefaultClassNamesWellFormed()
    ensures forall k :: 0 <= k < |VisionDetector.DefaultClassNames| ==>
      var n := VisionDetector.DefaultClassNames[k];
      n != "" && IsStripped(n) && IsLower(n) && Free(n, ',')
  {
    var names := VisionDetector.DefaultClassNames;
    forall k | 0 <= k < |names|
      ensures names[k] != "" && IsStripped(names[k]) && IsLower(names[k]) && Free(names[k], ',')
    {
    }
  }

  /** The default setting names the four vehicle classes in order. */
  lemma DefaultTargetClassNames()
    ensures TargetClassNames(DefaultSettings.modelTargetClasses) == ["car", "motorcycle", "bus", "truck"]
  {
    JoinDefaultClassNames();
    DefaultClassNamesWellFormed();
    TargetClassNamesJoin(VisionDetector.DefaultClassNames);
  }

  /** The detector the service builds from its settings. */
  function DetectorFor(s: VisionSettings): VisionDetector.DetectorConfig
  {
    VisionDetector.MakeDetector(s.modelConfidenceThreshold, s.modelIouThreshold, Some(TargetClassNames(s.modelTargetClasses)),
                                s.darkFrameBrightnessThreshold, s.lowLightConfidenceFactor, s.lowLightMinConfidence,
                                s.lowLightEnhanceFrame)
  }

  /** With the default settings the service's detector is the detector's own default. */
  lemma DefaultSettingsDetector()
    ensures DetectorFor(DefaultSettings) == VisionDetector.DefaultDetector()
  {
    DefaultTargetClassNames();
    DefaultNamesAreDefaultTargets();
    var d := DefaultSettings;
    assert DetectorFor(d) == VisionDetector.MakeDetector(0.5, 0.45, Some(VisionDetector.DefaultClassNames), 60.0, 0.8, 0.25, false);
  }

  /** Naming the four vehicle classes explicitly targets what the detector targets when none are named. */
  lemma DefaultNamesAreDefaultTargets()
    ensures VisionDetector.TargetClasses(Some(VisionDetector.DefaultClassNames)) == VisionDetector.TargetClasses(None)
  {
  }
}
