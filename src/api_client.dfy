/**
 * The backend client of the vision pipeline (vision/app/services/api_client.py):
 * event payload normalisation, submission with a bounded number of tries,
 * an offline queue mirrored to a file, queue flushing and the health probe.
 *
 * The HTTP session is an input: `net(payload, k)` is the outcome of the
 * k-th try (from 0) to post `payload`. Files are fields of the client: the
 * local log, the queue file, and the list of sleeps taken between tries.
 */
module VisionApiClient {
  import opened Wrappers
  import opened Numbers
  import VisionEventHandler

  /** The internal event dictionary; an absent key is None. */
  datatype RawEvent = RawEvent(
    cameraId: Option<string>,
    floorId: Option<int>,
    trackId: Option<string>,
    vehicleType: Option<string>,
    direction: Option<string>,
    confidence: Option<real>)

  /** The body posted to the backend. */
  datatype Payload = Payload(
    cameraId: Option<string>,
    floorId: int,
    trackId: string,
    vehicleType: string,
    direction: string,
    confidence: real)

  const DefaultFloorId := 0
  const DefaultTrackId := ""
  const DefaultVehicleType := "car"
  const DefaultDirection := "entry"
  const DefaultConfidence := 0.8

  /** `normalize_event_payload`: every absent key but the camera gets its default. */
  function NormalizeEventPayload(e: RawEvent): Payload
  {
    Payload(e.cameraId, e.floorId.GetOr(DefaultFloorId), e.trackId.GetOr(DefaultTrackId),
            e.vehicleType.GetOr(DefaultVehicleType), e.direction.GetOr(DefaultDirection),
            e.confidence.GetOr(DefaultConfidence))
  }

  /** The event dictionary that carries exactly a payload's fields. */
  function PayloadEvent(p: Payload): RawEvent
  {
    RawEvent(p.cameraId, Some(p.floorId), Some(p.trackId), Some(p.vehicleType), Some(p.direction), Some(p.confidence))
  }

  /**
   * Present values pass through unchanged and absent ones take the
   * documented defaults; normalising the dictionary of a payload gives the
   * payload back.
   */
  lemma NormalizeMeaning(e: RawEvent, p: Payload)
    ensures var q := NormalizeEventPayload(e);
      q.cameraId == e.cameraId
      && q.floorId == (if e.floorId.Some? then e.floorId.value else 0)
      && q.trackId == (if e.trackId.Some? then e.trackId.value else "")
      && q.vehicleType == (if e.vehicleType.Some? then e.vehicleType.value else "car")
      && q.direction == (if e.direction.Some? then e.direction.value else "entry")
      && q.confidence == (if e.confidence.Some? then e.confidence.value else 0.8)
    ensures NormalizeEventPayload(PayloadEvent(p)) == p
  {
  }

  /** The dictionary the event handler emits for a crossing. */
  function CrossingEventDict(c: VisionEventHandler.CrossingEvent): RawEvent
  {
    RawEvent(Some(c.cameraId), Some(c.floorId), Some(c.trackId), Some(c.vehicleType), Some(c.direction), Some(c.confidence))
  }

  /** A crossing is posted with its own camera, floor, track, type, direction and confidence. */
  lemma CrossingPayload(c: VisionEventHandler.CrossingEvent)
    ensures NormalizeEventPayload(CrossingEventDict(c))
      == Payload(Some(c.cameraId), c.floorId, c.trackId, c.vehicleType, c.direction, c.confidence)
  {
  }

  // ---------------------------------------------------------------------
  // Tries
  // ---------------------------------------------------------------------

  /** The outcome of one post: a response status or one of the caught exceptions. */
  datatype PostOutcome = Status(code: int) | Timeout | ConnectionError | OtherError

  predicate IsAccepted(o: PostOutcome)
  {
    o.Status? && (o.code == 200 || o.code == 201)
  }

  /** The first of the first `n` tries that is accepted. */
  function FirstAccepted(net: (Payload, nat) -> PostOutcome, p: Payload, n: int): (r: Option<nat>)
    ensures r.Some? ==> r.value < n && IsAccepted(net(p, r.value))
                        && forall j: nat :: j < r.value ==> !IsAccepted(net(p, j))
    ensures r.None? ==> forall j: nat :: j < n ==> !IsAccepted(net(p, j))
    decreases if n > 0 then n else 0
  {
    if n <= 0 then None
    else
      var earlier := FirstAccepted(net, p, n - 1);
      if earlier.Some? then earlier
      else if IsAccepted(net(p, n - 1)) then Some(n - 1)
      else None
  }

  /** Whether a submission with `n` tries gets through. */
  predicate Delivered(net: (Payload, nat) -> PostOutcome, p: Payload, n: int)
  {
    FirstAccepted(net, p, n).Some?
  }

  /** The number of tries a submission makes. */
  function Tries(net: (Payload, nat) -> PostOutcome, p: Payload, n: int): nat
  {
    var first := FirstAccepted(net, p, n);
    if first.Some? then first.value + 1 else Max(0, n)
  }

  /** The number of sleeps a submission takes: one after each failed try but the last. */
  function SleepCount(net: (Payload, nat) -> PostOutcome, p: Payload, n: int): nat
  {
    var first := FirstAccepted(net, p, n);
    if first.Some? then first.value else Max(0, n - 1)
  }

  function Repeat(x: int, k: nat): (r: seq<int>)
    ensures |r| == k && forall i :: 0 <= i < k ==> r[i] == x
  {
    seq(k, _ => x)
  }

  /** One more repetition is one more element at the end. */
  lemma RepeatSnoc(x: int, k: nat)
    ensures Repeat(x, k) + [x] == Repeat(x, k + 1)
  {
  }

  /**
   * A submission makes at most `n` tries and stops at the first accepted
   * one; it sleeps only between tries, never after the last; it fails
   * exactly when none of its `n` tries is accepted.
   */
  lemma SubmitMeaning(net: (Payload, nat) -> PostOutcome, p: Payload, n: int)
    ensures Tries(net, p, n) <= Max(0, n)
    ensures SleepCount(net, p, n) == Max(0, Tries(net, p, n) - 1)
    ensures Delivered(net, p, n) <==> exists j: nat :: j < n && IsAccepted(net(p, j))
    ensures Delivered(net, p, n) ==> IsAccepted(net(p, Tries(net, p, n) - 1))
  {
  }

  /** More tries never lose a delivery. */
  lemma DeliveredMonotone(net: (Payload, nat) -> PostOutcome, p: Payload, n: int, m: int)
    requires n <= m
    ensures Delivered(net, p, n) ==> Delivered(net, p, m)
  {
    if Delivered(net, p, n) {
      var k := FirstAccepted(net, p, n).value;
      assert IsAccepted(net(p, k));
    }
  }

  // ---------------------------------------------------------------------
  // Flushing
  // ---------------------------------------------------------------------

  /** The queued payloads that are still undelivered after their tries, in order. */
  function Undelivered(net: (Payload, nat) -> PostOutcome, items: seq<Payload>, n: int): (r: seq<Payload>)
    ensures |r| <= |items|
    ensures forall p :: p in r ==> p in items && !Delivered(net, p, n)
    decreases |items|
  {
    if |items| == 0 then []
    else
      var init := Undelivered(net, items[..|items| - 1], n);
      var last := items[|items| - 1];
      if Delivered(net, last, n) then init else init + [last]
  }

  function DeliveredCount(net: (Payload, nat) -> PostOutcome, items: seq<Payload>, n: int): nat
    decreases |items|
  {
    if |items| == 0 then 0
    else DeliveredCount(net, items[..|items| - 1], n) + (if Delivered(net, items[|items| - 1], n) then 1 else 0)
  }

  function FlushSleeps(net: (Payload, nat) -> PostOutcome, items: seq<Payload>, n: int, delay: int): seq<int>
    decreases |items|
  {
    if |items| == 0 then []
    else FlushSleeps(net, items[..|items| - 1], n, delay) + Repeat(delay, SleepCount(net, items[|items| - 1], n))
  }

  /** Trying one more queued payload extends each flush summary by that payload. */
  lemma FlushStep(net: (Payload, nat) -> PostOutcome, q: seq<Payload>, idx: int, n: int, delay: int)
    requires 0 <= idx < |q|
    ensures var p := q[..idx + 1];
      DeliveredCount(net, p, n) == DeliveredCount(net, q[..idx], n) + (if Delivered(net, q[idx], n) then 1 else 0)
      && Undelivered(net, p, n) == Undelivered(net, q[..idx], n) + (if Delivered(net, q[idx], n) then [] else [q[idx]])
      && FlushSleeps(net, p, n, delay) == FlushSleeps(net, q[..idx], n, delay) + Repeat(delay, SleepCount(net, q[idx], n))
  {
    var p := q[..idx + 1];
    assert p[..idx] == q[..idx] && p[idx] == q[idx];
  }

  /** How many queued payloads one flush tries. */
  function FlushLimit(size: int, maxEvents: int): int
  {
    Min(Max(0, maxEvents), size)
  }

  /** Every tried payload is either delivered or still undelivered. */
  lemma {:induction false} DeliveredPlusUndelivered(net: (Payload, nat) -> PostOutcome, items: seq<Payload>, n: int)
    ensures DeliveredCount(net, items, n) + |Undelivered(net, items, n)| == |items|
    decreases |items|
  {
    if |items| > 0 {
      DeliveredPlusUndelivered(net, items[..|items| - 1], n);
    }
  }

  /**
   * A flush tries the first min(max, size) payloads; the new queue holds
   * the failed ones in order followed by the untried tail, so it never
   * grows, and the flushed and failed counts add up to the tried prefix.
   */
  lemma FlushMeaning(net: (Payload, nat) -> PostOutcome, q: seq<Payload>, maxEvents: int, n: int)
    ensures var m := FlushLimit(|q|, maxEvents);
      var newQueue := Undelivered(net, q[..m], n) + q[m..];
      0 <= m <= |q|
      && DeliveredCount(net, q[..m], n) + |Undelivered(net, q[..m], n)| == m
      && |newQueue| <= |q|
      && |newQueue| == |q| - DeliveredCount(net, q[..m], n)
  {
    var m := FlushLimit(|q|, maxEvents);
    DeliveredPlusUndelivered(net, q[..m], n);
  }

  // ---------------------------------------------------------------------
  // Health
  // ---------------------------------------------------------------------

  /** The index of the last '/' in `s`, or -1. */
  function LastSlash(s: string): (r: int)
    ensures -1 <= r < |s|
    ensures r >= 0 ==> s[r] == '/' && forall i :: r < i < |s| ==> s[i] != '/'
    ensures r == -1 ==> forall i :: 0 <= i < |s| ==> s[i] != '/'
    decreases |s|
  {
    if |s| == 0 then -1
    else if s[|s| - 1] == '/' then |s| - 1
    else LastSlash(s[..|s| - 1])
  }

  /** The health URL: the API URL with its last path segment replaced by `health`. */
  function HealthUrl(apiUrl: string): string
  {
    var k := LastSlash(apiUrl);
    (if k >= 0 then apiUrl[..k] else apiUrl) + "/health"
  }

  /** The URL keeps everything up to the last slash and then names `health`. */
  lemma HealthUrlMeaning(apiUrl: string)
    ensures LastSlash(apiUrl) >= 0 ==>
      HealthUrl(apiUrl) == apiUrl[..LastSlash(apiUrl) + 1] + "health"
    ensures LastSlash(apiUrl) < 0 ==> HealthUrl(apiUrl) == apiUrl + "/health"
  {
    var k := LastSlash(apiUrl);
    if k >= 0 {
      SlashPrefix(apiUrl, k);
    }
  }

  /** Cutting after a slash is cutting before it and writing the slash. */
  lemma SlashPrefix(s: string, k: int)
    requires 0 <= k < |s| && s[k] == '/'
    ensures s[..k] + "/health" == s[..k + 1] + "health"
  {
    assert s[..k + 1] == s[..k] + "/";
  }

  /** The default event endpoint's health probe is the backend's /health. */
  lemma EventHealthUrl()
    ensures HealthUrl("http://localhost:8000/event") == "http://localhost:8000/health"
  {
    var u := "http://localhost:8000/event";
    assert u[21] == '/';
    assert forall i | 22 <= i < |u| :: u[i] != '/';
    var k := LastSlash(u);
    assert k == 21;
    assert u[..21] == "http://localhost:8000";
  }

  /** One line of the local log: when it was written and what event it holds. */
  datatype LogEntry = LogEntry(loggedAt: real, event: RawEvent)

  /** The queue read back from its file: blank and malformed lines (None) are skipped. */
  function LoadQueue(stored: Option<seq<Option<Payload>>>): (r: seq<Payload>)
    ensures stored.None? ==> r == []
    ensures stored.Some? ==> forall p :: p in r <==> Some(p) in stored.value
  {
    if stored.None? then [] else Parsed(stored.value)
  }

  function Parsed(lines: seq<Option<Payload>>): (r: seq<Payload>)
    ensures forall p :: p in r <==> Some(p) in lines
    decreases |lines|
  {
    if |lines| == 0 then []
    else
      var init := Parsed(lines[..|lines| - 1]);
      assert forall x :: x in lines <==> x in lines[..|lines| - 1] || x == lines[|lines| - 1];
      if lines[|lines| - 1].Some? then init + [lines[|lines| - 1].value] else init
  }

  /** Loading reads the file's parsed lines in file order: the parse of a concatenation is the concatenation of the parses. */
  lemma {:induction false} ParsedAppend(a: seq<Option<Payload>>, b: seq<Option<Payload>>)
    ensures Parsed(a + b) == Parsed(a) + Parsed(b)
    decreases |b|
  {
    if |b| == 0 {
      assert a + b == a;
    } else {
      var b' := b[..|b| - 1];
      assert (a + b)[..|a + b| - 1] == a + b';
      assert (a + b)[|a + b| - 1] == b[|b| - 1];
      ParsedAppend(a, b');
    }
  }

  /** A parsed line contributes its payload once, and a malformed or blank line nothing. */
  lemma ParsedLine(lines: seq<Option<Payload>>, line: Option<Payload>)
    ensures Parsed(lines + [line]) == Parsed(lines) + (if line.Some? then [line.value] else [])
  {
    assert (lines + [line])[..|lines|] == lines;
  }

  /** The lines `_rewrite_queue_file` writes for a queue: one well-formed line per payload, in order. */
  function QueueLines(q: seq<Payload>): (r: seq<Option<Payload>>)
    ensures |r| == |q| && forall i :: 0 <= i < |q| ==> r[i] == Some(q[i])
  {
    seq(|q|, i requires 0 <= i < |q| => Some(q[i]))
  }

  /** Rewriting the queue file and loading it back gives the same queue, in order and with repeats. */
  lemma {:induction false} RewriteThenLoad(q: seq<Payload>)
    ensures LoadQueue(Some(QueueLines(q))) == q
    decreases |q|
  {
    if |q| > 0 {
      var init := q[..|q| - 1];
      RewriteThenLoad(init);
      assert QueueLines(q)[..|q| - 1] == QueueLines(init);
      assert q == init + [q[|q| - 1]];
    }
  }

  /**
   * The retry loop of `submit_event`: up to `attempts` posts, stopping at the
   * first accepted one, sleeping `delay` between tries but not after the last.
   */
  method PostWithRetries(payload: Payload, net: (Payload, nat) -> PostOutcome, attempts: int, delay: int)
    returns (ok: bool, slept: seq<int>)
    ensures ok == Delivered(net, payload, attempts)
    ensures slept == Repeat(delay, SleepCount(net, payload, attempts))
  {
    slept := [];
    var attempt := 0;
    while attempt < attempts
      invariant 0 <= attempt && (attempts > 0 ==> attempt <= attempts)
      invariant FirstAccepted(net, payload, attempt).None?
      invariant slept == Repeat(delay, Max(0, Min(attempt, attempts - 1)))
    {
      if IsAccepted(net(payload, attempt)) {
        assert FirstAccepted(net, payload, attempts) == Some(attempt);
        return true, slept;
      }
      if attempt < attempts - 1 {
        RepeatSnoc(delay, attempt);
        slept := slept + [delay];
      }
      assert FirstAccepted(net, payload, attempt + 1).None?;
      attempt := attempt + 1;
    }
    return false, slept;
  }

  class BackendClient {
    const apiUrl: string
    const timeout: int
    const retryAttempts: int
    const retryDelay: int
    var isOnline: bool
    var queue: seq<Payload>
    /** The queue file's content. */
    var queueFile: seq<Payload>
    /** The local event log's content. */
    var localLog: seq<LogEntry>
    /** The delays slept between tries, in order. */
    var sleeps: seq<int>

    /** The queue file mirrors the in-memory queue. */
    ghost predicate Valid()
      reads this
    {
      queueFile == queue
    }

    constructor(apiUrl: string, timeout: int, retryAttempts: int, retryDelay: int, stored: Option<seq<Option<Payload>>>)
      ensures Valid()
      ensures this.apiUrl == apiUrl && this.timeout == timeout
      ensures this.retryAttempts == retryAttempts && this.retryDelay == retryDelay
      ensures isOnline && queue == LoadQueue(stored) && localLog == [] && sleeps == []
    {
      this.apiUrl := apiUrl;
      this.timeout := timeout;
      this.retryAttempts := retryAttempts;
      this.retryDelay := retryDelay;
      isOnline := true;
      queue := LoadQueue(stored);
      queueFile := LoadQueue(stored);
      localLog := [];
      sleeps := [];
    }

    function QueueSize(): (n: nat)
      reads this
      ensures n == |queue|
    {
      |queue|
    }

    /**
     * `submit_event`: up to `retryAttempts` tries, stopping at the first
     * 200 or 201; a delivery sets the client online, a failure sets it
     * offline and queues the payload when asked to.
     */
    method SubmitEvent(payload: Payload, queueOnFailure: bool, net: (Payload, nat) -> PostOutcome) returns (ok: bool)
      requires Valid()
      modifies this
      ensures Valid()
      ensures ok == Delivered(net, payload, retryAttempts) && isOnline == ok
      ensures queue == old(queue) + (if !ok && queueOnFailure then [payload] else [])
      ensures sleeps == old(sleeps) + Repeat(retryDelay, SleepCount(net, payload, retryAttempts))
      ensures localLog == old(localLog)
    {
      var slept;
      ok, slept := PostWithRetries(payload, net, retryAttempts, retryDelay);
      isOnline := ok;
      sleeps := sleeps + slept;
      if !ok && queueOnFailure {
        queue := queue + [payload];
        queueFile := queueFile + [payload];
      }
    }

    /** `process_event`: the raw event is logged first, then its payload is submitted with queueing on failure. */
    method ProcessEvent(event: RawEvent, now: real, net: (Payload, nat) -> PostOutcome) returns (ok: bool)
      requires Valid()
      modifies this
      ensures Valid()
      ensures localLog == old(localLog) + [LogEntry(now, event)]
      ensures ok == Delivered(net, NormalizeEventPayload(event), retryAttempts) && isOnline == ok
      ensures queue == old(queue) + (if ok then [] else [NormalizeEventPayload(event)])
      ensures sleeps == old(sleeps) + Repeat(retryDelay, SleepCount(net, NormalizeEventPayload(event), retryAttempts))
    {
      localLog := localLog + [LogEntry(now, event)];
      ok := SubmitEvent(NormalizeEventPayload(event), true, net);
    }

    /**
     * `flush_queued_events`: the first `maxEvents` queued payloads are
     * resubmitted without requeueing; the queue becomes the failed ones
     * followed by the untried tail, and the file is rewritten to match.
     */
    method FlushQueuedEvents(maxEvents: int, net: (Payload, nat) -> PostOutcome) returns (flushed: int, failed: int)
      requires Valid()
      modifies this
      ensures Valid()
      ensures var m := FlushLimit(|old(queue)|, maxEvents);
        queue == Undelivered(net, old(queue)[..m], retryAttempts) + old(queue)[m..]
        && flushed == DeliveredCount(net, old(queue)[..m], retryAttempts)
        && failed == |Undelivered(net, old(queue)[..m], retryAttempts)|
        && sleeps == old(sleeps) + FlushSleeps(net, old(queue)[..m], retryAttempts, retryDelay)
        && isOnline == (if m > 0 then Delivered(net, old(queue)[m - 1], retryAttempts) else old(isOnline))
      ensures localLog == old(localLog)
    {
      flushed := 0;
      failed := 0;
      var q := queue;
      if |q| == 0 {
        return;
      }
      // The loop of the source breaks at index `max_events`, keeping the rest: it tries the first m payloads.
      var m := FlushLimit(|q|, maxEvents);
      var remaining;
      flushed, failed, remaining := TryEach(q[..m], net);
      assert q[..m] == old(queue)[..m];
      remaining := remaining + q[m..];
      queue := remaining;
      queueFile := remaining;
    }

    /** Submits each of `items` in turn without queueing a failure, collecting the failed ones in order. */
    method TryEach(items: seq<Payload>, net: (Payload, nat) -> PostOutcome) returns (flushed: int, failed: int, remaining: seq<Payload>)
      requires Valid()
      modifies this
      ensures Valid() && queue == old(queue) && localLog == old(localLog)
      ensures flushed == DeliveredCount(net, items, retryAttempts)
      ensures remaining == Undelivered(net, items, retryAttempts) && failed == |remaining|
      ensures sleeps == old(sleeps) + FlushSleeps(net, items, retryAttempts, retryDelay)
      ensures isOnline == (if |items| > 0 then Delivered(net, items[|items| - 1], retryAttempts) else old(isOnline))
    {
      flushed, failed, remaining := 0, 0, [];
      var idx := 0;
      while idx < |items|
        invariant 0 <= idx <= |items|
        invariant Valid() && queue == old(queue) && localLog == old(localLog)
        invariant flushed == DeliveredCount(net, items[..idx], retryAttempts)
        invariant remaining == Undelivered(net, items[..idx], retryAttempts) && failed == |remaining|
        invariant sleeps == old(sleeps) + FlushSleeps(net, items[..idx], retryAttempts, retryDelay)
        invariant isOnline == (if idx > 0 then Delivered(net, items[idx - 1], retryAttempts) else old(isOnline))
      {
        FlushStep(net, items, idx, retryAttempts, retryDelay);
        var ok := SubmitEvent(items[idx], false, net);
        if ok {
          flushed := flushed + 1;
        } else {
          failed := failed + 1;
          remaining := remaining + [items[idx]];
        }
        idx := idx + 1;
      }
      assert items[..idx] == items;
    }

    /**
     * `health_check`: a GET of `url`, which is `HealthUrl(apiUrl)`, answered by
     * `probe`. Online exactly when the probe answers 200; an exception counts as offline.
     */
    method HealthCheck(probe: PostOutcome) returns (healthy: bool, ghost url: string)
      requires Valid()
      modifies this
      ensures Valid()
      ensures url == HealthUrl(apiUrl)
      ensures healthy == (probe.Status? && probe.code == 200) && isOnline == healthy
      ensures queue == old(queue) && sleeps == old(sleeps) && localLog == old(localLog)
    {
      url := HealthUrl(apiUrl);
      healthy := probe.Status? && probe.code == 200;
      isOnline := healthy;
    }
  }

  /** A client that retries twice against a network that is down queues the event and goes offline. */
  lemma OfflineTwoTries(p: Payload)
    ensures !Delivered((_: Payload, _: nat) => ConnectionError, p, 2)
    ensures SleepCount((_: Payload, _: nat) => ConnectionError, p, 2) == 1
  {
  }

  /** After recovery a one-item queue flushes completely. */
  lemma RecoveredFlush(p: Payload)
    ensures var net := (_: Payload, _: nat) => Status(200);
      Undelivered(net, [p][..FlushLimit(1, 10)], 1) + [p][FlushLimit(1, 10)..] == []
      && DeliveredCount(net, [p][..FlushLimit(1, 10)], 1) == 1
  {
    var net := (_: Payload, _: nat) => Status(200);
    assert [p][..1] == [p] && [p][1..] == [];
    assert Delivered(net, p, 1);
  }
}
