/**
 * Request monitoring for the backend API (backend/app/core/monitoring.py):
 * a bounded history of recent requests, counters by route, by status and by
 * error class, a snapshot of the recent window, and the alert rules
 * evaluated on it. Durations are exact reals; the display rounding of the
 * snapshot and the percent formatting of alert messages are not modelled.
 */
module ApiMonitoring {
  import opened Wrappers
  import opened Strings
  import opened Numbers

  const MinHistorySize := 50
  const MaxNamedFloors := 5

  datatype Thresholds = Thresholds(errorRate: real, latencyMs: real, lowAvailability: int)

  datatype RequestRecord = RequestRecord(httpMethod: string, path: string, statusCode: int, durationMs: real)

  // ---------------------------------------------------------------------
  // Bounded history and counters
  // ---------------------------------------------------------------------

  /** `deque(maxlen=n).append(x)`: the last at most `n` items of `h + [x]`. */
  function BoundedAppend<T>(h: seq<T>, x: T, n: nat): (r: seq<T>)
    requires n > 0
    ensures |r| == Min(|h| + 1, n)
    ensures r == (h + [x])[|h| + 1 - |r|..]
  {
    if |h| + 1 <= n then h + [x] else (h + [x])[|h| + 1 - n..]
  }

  /** The history after appending each of `rs` in turn. */
  function AppendAll<T>(h: seq<T>, rs: seq<T>, n: nat): seq<T>
    requires n > 0
    decreases |rs|
  {
    if |rs| == 0 then h else AppendAll(BoundedAppend(h, rs[0], n), rs[1..], n)
  }

  /** The last `min(|a|, n)` items of `a`. */
  function Latest<T>(a: seq<T>, n: nat): (r: seq<T>)
    ensures |r| == Min(|a|, n)
  {
    a[|a| - Min(|a|, n)..]
  }

  /** Keeping the latest items and then appending more keeps the same latest items as appending first. */
  lemma LatestOfLatest<T>(a: seq<T>, b: seq<T>, n: nat)
    ensures Latest(Latest(a, n) + b, n) == Latest(a + b, n)
  {
    if |a| > n {
      var c := Latest(a, n) + b;
      assert c == (a + b)[|a| - n..];
      assert Latest(c, n) == c[|b|..];
    } else {
      assert Latest(a, n) == a;
    }
  }

  /** One bounded append keeps the latest `n` items of the longer history. */
  lemma BoundedAppendIsLatest<T>(h: seq<T>, x: T, n: nat)
    requires n > 0 && |h| <= n
    ensures BoundedAppend(h, x, n) == Latest(h + [x], n)
  {
  }

  lemma ConsTail<T>(h: seq<T>, rs: seq<T>)
    requires |rs| > 0
    ensures h + [rs[0]] + rs[1..] == h + rs
  {
    assert rs == [rs[0]] + rs[1..];
  }

  /**
   * A bounded history holds exactly the most recent items: after any run of
   * appends it is the last `min(total, n)` items of everything appended.
   */
  lemma {:induction false} AppendAllKeepsRecent<T>(h: seq<T>, rs: seq<T>, n: nat)
    requires n > 0 && |h| <= n
    ensures AppendAll(h, rs, n) == Latest(h + rs, n)
    decreases |rs|
  {
    if |rs| > 0 {
      var x, rest := rs[0], rs[1..];
      var h' := BoundedAppend(h, x, n);
      assert AppendAll(h, rs, n) == AppendAll(h', rest, n);
      BoundedAppendIsLatest(h, x, n);
      AppendAllKeepsRecent(h', rest, n);
      LatestOfLatest(h + [x], rest, n);
      ConsTail(h, rs);
    } else {
      assert h + rs == h;
    }
  }

  /** `Counter[k] += 1`. */
  function Bump(m: map<string, nat>, k: string): (r: map<string, nat>)
    ensures k in r && r[k] == (if k in m then m[k] else 0) + 1
    ensures forall j :: j != k ==> (j in r <==> j in m)
    ensures forall j :: j in m && j != k ==> r[j] == m[j]
  {
    m[k := (if k in m then m[k] else 0) + 1]
  }

  function RouteKey(httpMethod: string, path: string): string
  {
    httpMethod + " " + path
  }

  /** The error class a status counts under, if any. */
  function ErrorClass(statusCode: int): Option<string>
  {
    if statusCode >= 500 then Some("5xx")
    else if statusCode >= 400 then Some("4xx")
    else None
  }

  /** 5xx exactly from 500 up, 4xx exactly from 400 to 499, and nothing below 400. */
  lemma ErrorClassMeaning(statusCode: int)
    ensures ErrorClass(statusCode) == Some("5xx") <==> statusCode >= 500
    ensures ErrorClass(statusCode) == Some("4xx") <==> 400 <= statusCode < 500
    ensures ErrorClass(statusCode).None? <==> statusCode < 400
  {
  }

  // ---------------------------------------------------------------------
  // Snapshot
  // ---------------------------------------------------------------------

  function Count5xx(h: seq<RequestRecord>): (n: nat)
    ensures n <= |h|
    decreases |h|
  {
    if |h| == 0 then 0 else (if h[0].statusCode >= 500 then 1 else 0) + Count5xx(h[1..])
  }

  function TotalDuration(h: seq<RequestRecord>): real
    decreases |h|
  {
    if |h| == 0 then 0.0 else h[0].durationMs + TotalDuration(h[1..])
  }

  datatype Snapshot = Snapshot(
    historyWindowSize: nat,
    recentRequestCount: nat,
    recent5xxCount: nat,
    recentErrorRate: real,
    recentAvgLatencyMs: real,
    statusCounts: map<string, nat>)

  /** `snapshot`, before rounding: the count, the 5xx share and the mean duration of the recent window. */
  function TakeSnapshot(historySize: nat, h: seq<RequestRecord>, statusCounts: map<string, nat>): (s: Snapshot)
    ensures s.recentRequestCount == |h| && s.recent5xxCount <= s.recentRequestCount
    ensures |h| == 0 ==> s.recentErrorRate == 0.0 && s.recentAvgLatencyMs == 0.0
    ensures |h| > 0 ==> s.recentErrorRate * |h| as real == s.recent5xxCount as real
    ensures |h| > 0 ==> s.recentAvgLatencyMs * |h| as real == TotalDuration(h)
    ensures 0.0 <= s.recentErrorRate <= 1.0
  {
    var total := |h|;
    var errors := Count5xx(h);
    var avg := if total > 0 then TotalDuration(h) / total as real else 0.0;
    var rate := if total > 0 then errors as real / total as real else 0.0;
    Snapshot(historySize, total, errors, rate, avg, statusCounts)
  }

  /** With no negative durations, the average latency is never negative. */
  lemma {:induction false} AverageLatencyNonNegative(historySize: nat, h: seq<RequestRecord>, statusCounts: map<string, nat>)
    requires forall k :: 0 <= k < |h| ==> h[k].durationMs >= 0.0
    ensures TakeSnapshot(historySize, h, statusCounts).recentAvgLatencyMs >= 0.0
  {
    TotalDurationNonNegative(h);
  }

  lemma {:induction false} TotalDurationNonNegative(h: seq<RequestRecord>)
    requires forall k :: 0 <= k < |h| ==> h[k].durationMs >= 0.0
    ensures TotalDuration(h) >= 0.0
    decreases |h|
  {
    if |h| > 0 {
      assert forall k :: 0 <= k < |h| - 1 ==> h[1..][k] == h[k + 1];
      TotalDurationNonNegative(h[1..]);
    }
  }

  // ---------------------------------------------------------------------
  // Alerts
  // ---------------------------------------------------------------------

  datatype AlertCode = HighErrorRate | HighLatency | LowParkingAvailability

  datatype Severity = High | Medium

  /** The figures an alert message reports; their percent and decimal formatting is not modelled. */
  datatype AlertMessage =
    | RateMessage(rate: real, threshold: real)
    | LatencyMessage(averageMs: real, thresholdMs: real)
    | FloorsMessage(text: string)

  datatype Alert = Alert(code: AlertCode, severity: Severity, message: AlertMessage)

  /** A floor passed to the alert rules. */
  datatype LowFloor = LowFloor(id: int, name: string, availableSlots: int)

  /** `", ".join(names)`. */
  function JoinNames(names: seq<string>): string
    decreases |names|
  {
    if |names| == 0 then ""
    else if |names| == 1 then names[0]
    else names[0] + ", " + JoinNames(names[1..])
  }

  /** The names the low-availability message lists: those of the first five floors. */
  function NamedFloors(floors: seq<LowFloor>): (names: seq<string>)
    ensures |names| == Min(|floors|, MaxNamedFloors)
    ensures forall k :: 0 <= k < |names| ==> names[k] == floors[k].name
  {
    var shown := floors[..Min(|floors|, MaxNamedFloors)];
    seq(|shown|, k requires 0 <= k < |shown| => shown[k].name)
  }

  function LowAvailabilityText(threshold: int, floors: seq<LowFloor>): string
  {
    "Floors below " + IntToString(threshold) + " slots: " + JoinNames(NamedFloors(floors))
  }

  /** `evaluate_alerts`, comparing the unrounded figures with the thresholds. */
  function EvaluateAlerts(s: Snapshot, t: Thresholds, lowFloors: seq<LowFloor>): seq<Alert>
  {
    (if s.recentErrorRate >= t.errorRate then [Alert(HighErrorRate, High, RateMessage(s.recentErrorRate, t.errorRate))] else [])
    + (if s.recentAvgLatencyMs >= t.latencyMs then [Alert(HighLatency, Medium, LatencyMessage(s.recentAvgLatencyMs, t.latencyMs))] else [])
    + (if |lowFloors| > 0 then [Alert(LowParkingAvailability, Medium, FloorsMessage(LowAvailabilityText(t.lowAvailability, lowFloors)))] else [])
  }

  function Rank(c: AlertCode): nat
  {
    match c
    case HighErrorRate => 0
    case HighLatency => 1
    case LowParkingAvailability => 2
  }

  /** Each alert is raised exactly when its condition holds, at most once, in the fixed order. */
  lemma EvaluateAlertsMeaning(s: Snapshot, t: Thresholds, lowFloors: seq<LowFloor>)
    ensures var alerts := EvaluateAlerts(s, t, lowFloors);
      (exists k :: 0 <= k < |alerts| && alerts[k].code == HighErrorRate) <==> s.recentErrorRate >= t.errorRate
    ensures var alerts := EvaluateAlerts(s, t, lowFloors);
      (exists k :: 0 <= k < |alerts| && alerts[k].code == HighLatency) <==> s.recentAvgLatencyMs >= t.latencyMs
    ensures var alerts := EvaluateAlerts(s, t, lowFloors);
      (exists k :: 0 <= k < |alerts| && alerts[k].code == LowParkingAvailability) <==> |lowFloors| > 0
    ensures var alerts := EvaluateAlerts(s, t, lowFloors);
      forall i, j :: 0 <= i < j < |alerts| ==> Rank(alerts[i].code) < Rank(alerts[j].code)
    ensures var alerts := EvaluateAlerts(s, t, lowFloors);
      forall k :: 0 <= k < |alerts| ==> (alerts[k].severity == High <==> alerts[k].code == HighErrorRate)
  {
    var a := if s.recentErrorRate >= t.errorRate then [Alert(HighErrorRate, High, RateMessage(s.recentErrorRate, t.errorRate))] else [];
    var b := if s.recentAvgLatencyMs >= t.latencyMs then [Alert(HighLatency, Medium, LatencyMessage(s.recentAvgLatencyMs, t.latencyMs))] else [];
    var c := if |lowFloors| > 0 then [Alert(LowParkingAvailability, Medium, FloorsMessage(LowAvailabilityText(t.lowAvailability, lowFloors)))] else [];
    var alerts := EvaluateAlerts(s, t, lowFloors);
    assert alerts == a + b + c;
    forall k | 0 <= k < |alerts|
      ensures k < |a| ==> alerts[k] == a[k]
      ensures |a| <= k < |a| + |b| ==> alerts[k] == b[k - |a|]
      ensures |a| + |b| <= k ==> alerts[k] == c[k - |a| - |b|]
    {
    }
    if s.recentErrorRate >= t.errorRate {
      assert alerts[0].code == HighErrorRate;
    }
    if s.recentAvgLatencyMs >= t.latencyMs {
      assert alerts[|a|].code == HighLatency;
    }
    if |lowFloors| > 0 {
      assert alerts[|a| + |b|].code == LowParkingAvailability;
    }
  }

  // ---------------------------------------------------------------------
  // The aggregator
  // ---------------------------------------------------------------------

  class MonitoringState {
    const historySize: nat
    const thresholds: Thresholds
    var history: seq<RequestRecord>
    var routeCounts: map<string, nat>
    var statusCounts: map<string, nat>
    var errorCounts: map<string, nat>

    predicate Valid()
      reads this
    {
      historySize >= MinHistorySize && |history| <= historySize
    }

    /** The history holds at least the last 50 requests, whatever size is configured. */
    constructor(historySize: int, thresholds: Thresholds)
      ensures Valid()
      ensures this.historySize == Max(MinHistorySize, historySize) && this.thresholds == thresholds
      ensures history == [] && routeCounts == map[] && statusCounts == map[] && errorCounts == map[]
    {
      this.historySize := Max(MinHistorySize, historySize);
      this.thresholds := thresholds;
      history := [];
      routeCounts := map[];
      statusCounts := map[];
      errorCounts := map[];
    }

    /**
     * `record_request`: appends to the bounded history and adds one to the
     * route's count, to the status's count, and to the error class's count
     * when the status has one.
     */
    method RecordRequest(httpMethod: string, path: string, statusCode: int, durationMs: real)
      requires Valid()
      modifies this
      ensures Valid()
      ensures history == BoundedAppend(old(history), RequestRecord(httpMethod, path, statusCode, durationMs), historySize)
      ensures routeCounts == Bump(old(routeCounts), RouteKey(httpMethod, path))
      ensures statusCounts == Bump(old(statusCounts), IntToString(statusCode))
      ensures errorCounts == if ErrorClass(statusCode).Some? then Bump(old(errorCounts), ErrorClass(statusCode).value) else old(errorCounts)
    {
      history := BoundedAppend(history, RequestRecord(httpMethod, path, statusCode, durationMs), historySize);
      routeCounts := Bump(routeCounts, RouteKey(httpMethod, path));
      statusCounts := Bump(statusCounts, IntToString(statusCode));
      if statusCode >= 500 {
        errorCounts := Bump(errorCounts, "5xx");
      } else if statusCode >= 400 {
        errorCounts := Bump(errorCounts, "4xx");
      }
    }

    function Snapshot(): (s: Snapshot)
      reads this
      ensures s.historyWindowSize == historySize && s.recentRequestCount == |history|
    {
      TakeSnapshot(historySize, history, statusCounts)
    }

    function Alerts(lowFloors: seq<LowFloor>): seq<Alert>
      reads this
    {
      EvaluateAlerts(Snapshot(), thresholds, lowFloors)
    }
  }
}
