/**
 * Frame acquisition (vision/app/services/video_source.py): the source type
 * guess, the frame-rate regulator, and the open/read/close life cycle of a
 * capture. Clocks, sleeps and the OpenCV capture are inputs: the caller
 * passes the clock readings, the file-system check, whether the capture
 * opens and what each read returns; the sleeps taken are recorded.
 */
module VisionVideoSource {
  import opened Wrappers
  import opened Numbers
  import opened Strings

  /** `infer_source_type`: an `rtsp://` URL in any letter case is a stream, anything else a file. */
  function InferSourceType(source: string): (t: string)
    ensures t == "rtsp" <==> StartsWith(Lower(source), "rtsp://")
    ensures t == "rtsp" || t == "file"
  {
    if StartsWith(Lower(source), "rtsp://") then "rtsp" else "file"
  }

  /** The guess ignores letter case. */
  lemma InferSourceTypeCaseInsensitive(source: string)
    ensures InferSourceType(Lower(source)) == InferSourceType(source)
    ensures InferSourceType("RTSP://camera/1") == "rtsp" && InferSourceType("./data/sample_video.mp4") == "file"
  {
    LowerIsLower(source);
    var u := "RTSP://camera/1";
    assert Lower(u)[..7] == "rtsp://";
    var f := "./data/sample_video.mp4";
    assert Lower(f)[0] == '.';
  }

  // ---------------------------------------------------------------------
  // Frame-rate regulation
  // ---------------------------------------------------------------------

  /** How long a tick sleeps: the rest of the frame interval, when any is left. */
  function SleepFor(interval: real, lastTick: Option<real>, now: real): (r: Option<real>)
    ensures lastTick.None? ==> r.None?
    ensures lastTick.Some? ==> (r.Some? <==> interval - (now - lastTick.value) > 0.0)
    ensures r.Some? ==> r.value > 0.0 && r.value + (now - lastTick.value) == interval
  {
    if lastTick.None? then None
    else if interval - (now - lastTick.value) > 0.0 then Some(interval - (now - lastTick.value))
    else None
  }

  /** A tick on a clock that does not run backwards never sleeps longer than one interval. */
  lemma SleepWithinInterval(interval: real, last: real, now: real)
    requires last <= now
    ensures SleepFor(interval, Some(last), now).Some? ==> SleepFor(interval, Some(last), now).value <= interval
  {
  }

  /** At 10 frames per second, a tick 0.05 s after the previous one sleeps the other 0.05 s. */
  lemma TenFpsHalfInterval()
    ensures SleepFor(1.0 / 10.0, Some(0.0), 0.05) == Some(0.05)
    ensures SleepFor(1.0 / 10.0, None, 0.0) == None
  {
  }

  class FrameRateRegulator {
    const targetFps: int
    const frameIntervalSeconds: real
    var lastTick: Option<real>
    /** The durations slept, in order. */
    var sleeps: seq<real>

    /** The target is at least one frame per second, and the interval its inverse. */
    constructor(targetFps: int)
      ensures this.targetFps == Max(1, targetFps) && this.targetFps >= 1
      ensures frameIntervalSeconds * this.targetFps as real == 1.0
      ensures lastTick == None && sleeps == []
    {
      this.targetFps := Max(1, targetFps);
      frameIntervalSeconds := 1.0 / (Max(1, targetFps) as real);
      lastTick := None;
      sleeps := [];
    }

    /**
     * `tick`: the first one only starts the clock; a later one sleeps the
     * rest of the interval when some is left and then restarts the clock at
     * the reading `after` taken once the sleep is over.
     */
    method Tick(now: real, after: real)
      modifies this
      ensures old(lastTick).None? ==> lastTick == Some(now) && sleeps == old(sleeps)
      ensures old(lastTick).Some? ==> lastTick == Some(after)
      ensures sleeps == old(sleeps) + (var s := SleepFor(frameIntervalSeconds, old(lastTick), now);
                                       if s.Some? then [s.value] else [])
    {
      if lastTick.None? {
        lastTick := Some(now);
        return;
      }
      var elapsed := now - lastTick.value;
      var sleepFor := frameIntervalSeconds - elapsed;
      if sleepFor > 0.0 {
        sleeps := sleeps + [sleepFor];
      }
      lastTick := Some(after);
    }
  }

  // ---------------------------------------------------------------------
  // The capture
  // ---------------------------------------------------------------------

  datatype VideoSourceConfig = VideoSourceConfig(
    source: string,
    sourceType: string,
    width: Option<int>,
    height: Option<int>,
    targetFps: int,
    reconnectDelaySeconds: real)

  /** An OpenCV capture: whether it opened (`isOpened()`), and the frame size it was asked for. */
  datatype Capture = Capture(isOpened: bool, width: Option<int>, height: Option<int>)

  /** A size setting is applied only when it is present and non-zero. */
  function Requested(size: Option<int>): Option<int>
  {
    if size.Some? && size.value != 0 then size else None
  }

  /** A frame handle returned by a read. */
  type Image = int

  class VideoSource {
    const config: VideoSourceConfig
    var capture: Option<Capture>
    var isOpen: bool
    /** The reconnect delays slept, in order. */
    var sleeps: seq<real>

    /** The source counts as open exactly when it holds a capture that opened. */
    ghost predicate Valid()
      reads this
    {
      isOpen <==> capture.Some? && capture.value.isOpened
    }

    constructor(config: VideoSourceConfig)
      ensures Valid() && this.config == config
      ensures capture == None && !isOpen && sleeps == []
    {
      this.config := config;
      capture := None;
      isOpen := false;
      sleeps := [];
    }

    /**
     * `open`: an open source stays as it is; a missing file is refused
     * without touching the state; otherwise a fresh capture is made with
     * the requested size, and the source is open exactly when it opened.
     */
    method Open(fileExists: bool, opens: bool) returns (ok: bool)
      requires Valid()
      modifies this
      ensures Valid() && sleeps == old(sleeps)
      ensures old(isOpen) ==> ok && capture == old(capture) && isOpen
      ensures !old(isOpen) && config.sourceType == "file" && !fileExists ==>
        !ok && capture == old(capture) && isOpen == old(isOpen)
      ensures !old(isOpen) && (config.sourceType != "file" || fileExists) ==>
        capture == Some(Capture(opens, Requested(config.width), Requested(config.height)))
        && isOpen == opens && ok == opens
    {
      if isOpen && capture.Some? && capture.value.isOpened {
        return true;
      }
      if config.sourceType == "file" && !fileExists {
        return false;
      }
      capture := Some(Capture(opens, Requested(config.width), Requested(config.height)));
      isOpen := opens;
      ok := isOpen;
    }

    /** `close`: the capture is released and the source is closed. */
    method Close()
      modifies this
      ensures Valid() && capture == None && !isOpen && sleeps == old(sleeps)
    {
      capture := None;
      isOpen := false;
    }

    /**
     * `read_frame`. A closed source is opened first (`fileExists`, `opens`);
     * then one read (`first`). A failed read of a file gives nothing and
     * leaves the capture; a failed read of a stream closes it, sleeps the
     * reconnect delay, reopens (`reopens`) and, when that works, returns one
     * more read (`second`) as it is.
     */
    method ReadFrame(fileExists: bool, opens: bool, first: Option<Image>, reopens: bool, second: Option<Image>)
      returns (ok: bool, frame: Option<Image>)
      requires Valid()
      modifies this
      ensures Valid()
      ensures ok <==> frame.Some?
      ensures !old(isOpen) && !(config.sourceType != "file" || fileExists) ==>
        !ok && capture == old(capture) && !isOpen && sleeps == old(sleeps)
      ensures !old(isOpen) && (config.sourceType != "file" || fileExists) && !opens ==>
        !ok && !isOpen && sleeps == old(sleeps)
      ensures (old(isOpen) || ((config.sourceType != "file" || fileExists) && opens)) && first.Some? ==>
        ok && frame == first && isOpen && sleeps == old(sleeps)
      ensures (old(isOpen) || ((config.sourceType != "file" || fileExists) && opens)) && first.None? ==>
        if config.sourceType == "rtsp" then
          sleeps == old(sleeps) + [config.reconnectDelaySeconds]
          && capture == Some(Capture(reopens, Requested(config.width), Requested(config.height)))
          && isOpen == reopens && frame == (if reopens then second else None)
        else !ok && isOpen && sleeps == old(sleeps)
    {
      if !isOpen || capture.None? {
        var wasOpened := Open(fileExists, opens);
        if !wasOpened {
          return false, None;
        }
      }
      if first.Some? {
        return true, first;
      }
      if config.sourceType == "rtsp" {
        Close();
        sleeps := sleeps + [config.reconnectDelaySeconds];
        var reopened := Open(fileExists, reopens);
        if reopened {
          return second.Some?, second;
        }
      }
      return false, None;
    }
  }
}
