/**
 * Vehicle detection (vision/app/services/detector.py): the checks before
 * inference, the relaxed confidence threshold for dark frames, and the
 * post-processing that turns the model's boxes into detection payloads.
 * The YOLO model, the brightness estimate and the OpenCV enhancement are
 * inputs of the model.
 */
module VisionDetector {
  import opened Wrappers
  import opened Numbers
  import opened Strings

  /** The COCO class names the detector knows. */
  function ClassNameById(classId: int): (r: Option<string>)
    ensures r.Some? <==> classId in {2, 3, 5, 7}
  {
    if classId == 2 then Some("car")
    else if classId == 3 then Some("motorcycle")
    else if classId == 5 then Some("bus")
    else if classId == 7 then Some("truck")
    else None
  }

  const DefaultClassNames: seq<string> := ["car", "motorcycle", "bus", "truck"]

  datatype DetectorConfig = DetectorConfig(
    confidenceThreshold: real,
    iouThreshold: real,
    targetClasses: set<string>,
    darkFrameBrightnessThreshold: real,
    lowLightConfidenceFactor: real,
    lowLightMinConfidence: real,
    lowLightEnhanceFrame: bool)

  /** Lower-cased target classes; an absent or empty list means all four vehicle classes. */
  function TargetClasses(targets: Option<seq<string>>): (r: set<string>)
    ensures forall c :: c in r ==> IsLower(c)
  {
    var items := if targets.Some? && |targets.value| > 0 then targets.value else DefaultClassNames;
    LowerAllIsLower(items);
    set k | 0 <= k < |items| :: Lower(items[k])
  }

  lemma LowerAllIsLower(items: seq<string>)
    ensures forall k :: 0 <= k < |items| ==> IsLower(Lower(items[k]))
  {
    forall k | 0 <= k < |items|
      ensures IsLower(Lower(items[k]))
    {
      LowerIsLower(items[k]);
    }
  }

  /** The constructor, with the source's defaults available through `DefaultDetector`. */
  function MakeDetector(confidenceThreshold: real, iouThreshold: real, targets: Option<seq<string>>,
                        darkThreshold: real, factor: real, minConfidence: real, enhance: bool): (d: DetectorConfig)
    ensures d.targetClasses == TargetClasses(targets)
  {
    DetectorConfig(confidenceThreshold, iouThreshold, TargetClasses(targets), darkThreshold, factor, minConfidence, enhance)
  }

  function DefaultDetector(): DetectorConfig
  {
    MakeDetector(0.5, 0.45, None, 60.0, 0.8, 0.25, false)
  }

  /** By default every vehicle class is a target. */
  lemma DefaultTargetsAllVehicles()
    ensures DefaultDetector().targetClasses == {"car", "motorcycle", "bus", "truck"}
    ensures forall id :: ClassNameById(id).Some? ==> ClassNameById(id).value in DefaultDetector().targetClasses
  {
    var items := DefaultClassNames;
    assert Lower(items[0]) == "car" && Lower(items[1]) == "motorcycle";
    assert Lower(items[2]) == "bus" && Lower(items[3]) == "truck";
    ghost var expected: set<string> := {"car", "motorcycle", "bus", "truck"};
    assert TargetClasses(None) == expected by {
      forall c | c in expected
        ensures c in TargetClasses(None)
      {
        if c == "car" { assert c == Lower(items[0]); }
        else if c == "motorcycle" { assert c == Lower(items[1]); }
        else if c == "bus" { assert c == Lower(items[2]); }
        else { assert c == Lower(items[3]); }
      }
    }
  }

  // ---------------------------------------------------------------------
  // Pre-processing and the confidence threshold
  // ---------------------------------------------------------------------

  /** A frame as far as the detector reads it: its array shape and its mean intensity. */
  datatype Frame = Frame(shape: seq<int>, brightness: real)

  const NoFrameMessage := "Input frame is None"
  const BadShapeMessage := "Input frame must have shape [H, W, C]"

  /**
   * `preprocess`: a missing frame and a frame that is not three-dimensional
   * are refused; a dark frame is replaced by its enhanced version when
   * enhancement is on. `enhanced` is what the OpenCV enhancement would return.
   */
  function Preprocess(cfg: DetectorConfig, frame: Option<Frame>, enhanced: Frame): (r: Result<Frame, string>)
    ensures frame.None? ==> r == Err(NoFrameMessage)
    ensures frame.Some? && |frame.value.shape| != 3 ==> r == Err(BadShapeMessage)
    ensures r.Ok? <==> frame.Some? && |frame.value.shape| == 3
    ensures r.Ok? ==>
      r.value == if cfg.lowLightEnhanceFrame && frame.value.brightness < cfg.darkFrameBrightnessThreshold
                 then enhanced else frame.value
  {
    if frame.None? then Err(NoFrameMessage)
    else if |frame.value.shape| != 3 then Err(BadShapeMessage)
    else if cfg.lowLightEnhanceFrame && frame.value.brightness < cfg.darkFrameBrightnessThreshold then Ok(enhanced)
    else Ok(frame.value)
  }

  /** `_effective_confidence_threshold` for a frame of the given mean brightness. */
  function EffectiveConfidenceThreshold(cfg: DetectorConfig, brightness: real): real
  {
    if brightness < cfg.darkFrameBrightnessThreshold
    then MaxReal(cfg.lowLightMinConfidence, cfg.confidenceThreshold * cfg.lowLightConfidenceFactor)
    else cfg.confidenceThreshold
  }

  /**
   * A bright frame keeps the base threshold; a dark one uses the scaled
   * threshold, never below the low-light floor; with a factor of at most 1
   * and a floor at most the base, a dark frame never raises the threshold.
   */
  lemma EffectiveThresholdBounds(cfg: DetectorConfig, brightness: real)
    ensures brightness >= cfg.darkFrameBrightnessThreshold ==>
      EffectiveConfidenceThreshold(cfg, brightness) == cfg.confidenceThreshold
    ensures brightness < cfg.darkFrameBrightnessThreshold ==>
      EffectiveConfidenceThreshold(cfg, brightness) >= cfg.lowLightMinConfidence
      && EffectiveConfidenceThreshold(cfg, brightness) >= cfg.confidenceThreshold * cfg.lowLightConfidenceFactor
    ensures 0.0 <= cfg.confidenceThreshold && 0.0 <= cfg.lowLightConfidenceFactor <= 1.0
            && cfg.lowLightMinConfidence <= cfg.confidenceThreshold ==>
      EffectiveConfidenceThreshold(cfg, brightness) <= cfg.confidenceThreshold
  {
    if 0.0 <= cfg.confidenceThreshold && 0.0 <= cfg.lowLightConfidenceFactor <= 1.0 {
      assert cfg.confidenceThreshold * cfg.lowLightConfidenceFactor <= cfg.confidenceThreshold * 1.0;
    }
  }

  /** With the defaults 0.5, 0.8 and 0.25, a black frame is checked at 0.4 and a bright one at 0.5. */
  lemma LowLightDefaults()
    ensures EffectiveConfidenceThreshold(DefaultDetector(), 0.0) == 0.4
    ensures EffectiveConfidenceThreshold(DefaultDetector(), 220.0) == 0.5
  {
  }

  // ---------------------------------------------------------------------
  // Post-processing
  // ---------------------------------------------------------------------

  /** One box of the model's output: class as a float, confidence and corners. */
  datatype Box = Box(cls: real, conf: real, x1: real, y1: real, x2: real, y2: real)

  datatype BBox = BBox(x1: int, y1: int, x2: int, y2: int, width: int, height: int)

  datatype Detection = Detection(classId: int, className: string, confidence: real, bbox: BBox, cx: int, cy: int)

  /** Whether a box survives post-processing at this threshold. */
  predicate Passes(cfg: DetectorConfig, box: Box, threshold: real)
  {
    var name := ClassNameById(Trunc(box.cls));
    name.Some? && Lower(name.value) in cfg.targetClasses && box.conf >= threshold
  }

  /** The payload of a box that passes: integer corners and a truncated midpoint. */
  function DetectionOf(box: Box): Detection
    requires ClassNameById(Trunc(box.cls)).Some?
  {
    Detection(Trunc(box.cls), ClassNameById(Trunc(box.cls)).value, box.conf,
              BBox(Trunc(box.x1), Trunc(box.y1), Trunc(box.x2), Trunc(box.y2),
                   Trunc(box.x2 - box.x1), Trunc(box.y2 - box.y1)),
              Trunc((box.x1 + box.x2) / 2.0), Trunc((box.y1 + box.y2) / 2.0))
  }

  /** The payloads of the passing boxes, in input order. */
  function Kept(cfg: DetectorConfig, boxes: seq<Box>, threshold: real): seq<Detection>
    decreases |boxes|
  {
    if |boxes| == 0 then []
    else
      var init := Kept(cfg, boxes[..|boxes| - 1], threshold);
      var last := boxes[|boxes| - 1];
      if Passes(cfg, last, threshold) then init + [DetectionOf(last)] else init
  }

  /** The threshold used: the caller's when given, else the configured one. */
  function ThresholdFor(cfg: DetectorConfig, minConfidence: Option<real>): real
  {
    minConfidence.GetOr(cfg.confidenceThreshold)
  }

  /** `postprocess`: no boxes give no detections; otherwise the payloads of the passing boxes in order. */
  method Postprocess(cfg: DetectorConfig, boxes: Option<seq<Box>>, minConfidence: Option<real>)
    returns (detections: seq<Detection>)
    ensures boxes.None? ==> detections == []
    ensures boxes.Some? ==> detections == Kept(cfg, boxes.value, ThresholdFor(cfg, minConfidence))
  {
    detections := [];
    if boxes.None? {
      return;
    }
    var all := boxes.value;
    var threshold := ThresholdFor(cfg, minConfidence);
    var i := 0;
    while i < |all|
      invariant 0 <= i <= |all|
      invariant detections == Kept(cfg, all[..i], threshold)
    {
      assert all[..i + 1][..i] == all[..i];
      var box := all[i];
      var classId := Trunc(box.cls);
      var className := ClassNameById(classId);
      if className.Some? && Lower(className.value) in cfg.targetClasses && box.conf >= threshold {
        detections := detections + [DetectionOf(box)];
      }
      i := i + 1;
    }
    assert all[..|all|] == all;
  }

  /** Post-processing works box by box: the payloads of a concatenation are the concatenated payloads. */
  lemma {:induction false} KeptAppend(cfg: DetectorConfig, a: seq<Box>, b: seq<Box>, threshold: real)
    ensures Kept(cfg, a + b, threshold) == Kept(cfg, a, threshold) + Kept(cfg, b, threshold)
    decreases |b|
  {
    if |b| > 0 {
      var b0 := b[..|b| - 1];
      assert (a + b)[..|a + b| - 1] == a + b0;
      assert (a + b)[|a + b| - 1] == b[|b| - 1];
      KeptAppend(cfg, a, b0, threshold);
    } else {
      assert a + b == a;
    }
  }

  /**
   * Every payload comes from a passing box: a vehicle class among the
   * targets, at or above the threshold; and every passing box yields its
   * payload. No more payloads than boxes.
   */
  lemma {:induction false} KeptMeaning(cfg: DetectorConfig, boxes: seq<Box>, threshold: real)
    ensures |Kept(cfg, boxes, threshold)| <= |boxes|
    ensures forall d :: d in Kept(cfg, boxes, threshold) ==>
      d.classId in {2, 3, 5, 7} && Lower(d.className) in cfg.targetClasses && d.confidence >= threshold
    ensures forall k :: 0 <= k < |boxes| && Passes(cfg, boxes[k], threshold) ==>
      DetectionOf(boxes[k]) in Kept(cfg, boxes, threshold)
    decreases |boxes|
  {
    if |boxes| > 0 {
      var init := boxes[..|boxes| - 1];
      KeptMeaning(cfg, init, threshold);
      forall k | 0 <= k < |boxes| - 1
        ensures boxes[k] == init[k]
      {
      }
    }
  }

  /** A payload of a box with ordered corners has its centroid inside its box. */
  lemma CentroidInBox(box: Box)
    requires ClassNameById(Trunc(box.cls)).Some?
    requires box.x1 <= box.x2 && box.y1 <= box.y2
    ensures var d := DetectionOf(box);
      d.bbox.x1 <= d.cx <= d.bbox.x2 && d.bbox.y1 <= d.cy <= d.bbox.y2 && d.bbox.width >= 0 && d.bbox.height >= 0
  {
    TruncMonotone(box.x1, (box.x1 + box.x2) / 2.0);
    TruncMonotone((box.x1 + box.x2) / 2.0, box.x2);
    TruncMonotone(box.y1, (box.y1 + box.y2) / 2.0);
    TruncMonotone((box.y1 + box.y2) / 2.0, box.y2);
    TruncMonotone(0.0, box.x2 - box.x1);
    TruncMonotone(0.0, box.y2 - box.y1);
  }

  /** Ten synthetic boxes, one of them below the 0.5 threshold. */
  function SyntheticBoxes(): seq<Box>
  {
    [Box(2.0, 0.95, 0.0, 0.0, 50.0, 50.0), Box(3.0, 0.92, 10.0, 10.0, 60.0, 60.0),
     Box(5.0, 0.91, 20.0, 20.0, 70.0, 70.0), Box(7.0, 0.93, 30.0, 30.0, 80.0, 80.0),
     Box(2.0, 0.90, 40.0, 40.0, 90.0, 90.0), Box(3.0, 0.89, 50.0, 50.0, 100.0, 100.0),
     Box(5.0, 0.88, 60.0, 60.0, 110.0, 110.0), Box(7.0, 0.87, 70.0, 70.0, 120.0, 120.0),
     Box(2.0, 0.86, 80.0, 80.0, 130.0, 130.0), Box(2.0, 0.20, 90.0, 90.0, 140.0, 140.0)]
  }

  /** Nine of the ten synthetic boxes are kept at the default threshold. */
  lemma SyntheticAccuracy()
    ensures |Kept(DefaultDetector(), SyntheticBoxes(), 0.5)| == 9
  {
    var cfg := DefaultDetector();
    DefaultTargetsAllVehicles();
    var boxes := SyntheticBoxes();
    assert forall k :: 0 <= k < 9 ==> Passes(cfg, boxes[k], 0.5);
    assert !Passes(cfg, boxes[9], 0.5);
    KeptCountsPassing(cfg, boxes, 0.5);
    assert boxes[..10] == boxes;
  }

  /** The number of payloads of a prefix counts its passing boxes. */
  lemma {:induction false} KeptCountsPassing(cfg: DetectorConfig, boxes: seq<Box>, threshold: real)
    ensures forall n :: 0 <= n <= |boxes| && (forall k :: 0 <= k < n ==> Passes(cfg, boxes[k], threshold)) ==>
      |Kept(cfg, boxes[..n], threshold)| == n
    ensures |boxes| > 0 && !Passes(cfg, boxes[|boxes| - 1], threshold) ==>
      Kept(cfg, boxes, threshold) == Kept(cfg, boxes[..|boxes| - 1], threshold)
  {
    forall n | 0 <= n <= |boxes| && (forall k :: 0 <= k < n ==> Passes(cfg, boxes[k], threshold))
      ensures |Kept(cfg, boxes[..n], threshold)| == n
    {
      AllPassKept(cfg, boxes[..n], threshold);
    }
  }

  lemma {:induction false} AllPassKept(cfg: DetectorConfig, boxes: seq<Box>, threshold: real)
    requires forall k :: 0 <= k < |boxes| ==> Passes(cfg, boxes[k], threshold)
    ensures |Kept(cfg, boxes, threshold)| == |boxes|
    decreases |boxes|
  {
    if |boxes| > 0 {
      AllPassKept(cfg, boxes[..|boxes| - 1], threshold);
    }
  }

  /** With only cars as targets, a car and a motorcycle give the car's payload alone. */
  lemma OnlyConfiguredClasses()
    ensures var cfg := MakeDetector(0.5, 0.45, Some(["car"]), 60.0, 0.8, 0.25, false);
      var boxes := [Box(2.0, 0.99, 0.0, 0.0, 10.0, 10.0), Box(3.0, 0.99, 0.0, 0.0, 10.0, 10.0)];
      |Kept(cfg, boxes, 0.5)| == 1 && Kept(cfg, boxes, 0.5)[0].className == "car"
  {
    var cfg := MakeDetector(0.5, 0.45, Some(["car"]), 60.0, 0.8, 0.25, false);
    var items := ["car"];
    assert Lower(items[0]) == "car";
    assert cfg.targetClasses == {"car"};
    assert Lower("motorcycle") == "motorcycle";
    var boxes := [Box(2.0, 0.99, 0.0, 0.0, 10.0, 10.0), Box(3.0, 0.99, 0.0, 0.0, 10.0, 10.0)];
    assert boxes[..1] == [boxes[0]];
    assert Kept(cfg, boxes[..1], 0.5) == [DetectionOf(boxes[0])];
  }

  /**
   * `detect`: pre-process, pick the threshold from the processed frame's
   * brightness, run the model, post-process at that threshold; any error
   * gives no detections. `inferred` is the model's output at that threshold.
   */
  method Detect(cfg: DetectorConfig, frame: Option<Frame>, enhanced: Frame, inferred: Option<seq<Box>>)
    returns (detections: seq<Detection>)
    ensures Preprocess(cfg, frame, enhanced).Err? || inferred.None? ==> detections == []
    ensures Preprocess(cfg, frame, enhanced).Ok? && inferred.Some? ==>
      detections == Kept(cfg, inferred.value,
                         EffectiveConfidenceThreshold(cfg, Preprocess(cfg, frame, enhanced).value.brightness))
  {
    var processed := Preprocess(cfg, frame, enhanced);
    if processed.Err? {
      return [];
    }
    var threshold := EffectiveConfidenceThreshold(cfg, processed.value.brightness);
    detections := Postprocess(cfg, inferred, Some(threshold));
  }
}
