/**
 * The dashboard's state and its updates (frontend/src/components/Dashboard.jsx):
 * deduplicated alerts that expire, the overview and event fetches with their
 * loading flags and error texts, the realtime message handlers, the low
 * availability warning, and the floors ordered for display.
 *
 * Each `await` splits a fetch into a `Begin...` and a `Complete...` method,
 * so fetches may interleave as the fixed-rate timers allow. Clock readings,
 * alert ids and server replies are parameters.
 */
module Dashboard {
  import opened Wrappers
  import opened Strings
  import opened FrontendData
  import AvailableSlots

  const DedupeWindowMs := 15000
  const AlertLifetimeMs := 5000
  const DefaultPollMs := 5000
  const MaxEvents := 500
  const LowAvailabilityLimit := 10
  const OverviewFailureText := "Failed to fetch overview data"
  const EventsFailureText := "Failed to fetch events"

  datatype AlertKind = InfoAlert | WarningAlert | ErrorAlert

  datatype AlertView = AlertView(id: real, kind: AlertKind, title: string, message: string)

  // ---------------------------------------------------------------------
  // Alert deduplication
  // ---------------------------------------------------------------------

  /** When an alert with this key was last shown; 0 when never. */
  function LastSeen(history: map<string, int>, key: string): int
  {
    if key in history then history[key] else 0
  }

  /** A keyed alert is dropped while less than 15 s have passed since it was last shown. */
  predicate Suppressed(history: map<string, int>, key: string, now: int)
  {
    key != "" && now - LastSeen(history, key) < DedupeWindowMs
  }

  function RecordShown(history: map<string, int>, key: string, now: int): map<string, int>
  {
    if key != "" then history[key := now] else history
  }

  /** Times, out of `times`, at which a push with `key` actually shows an alert. */
  function ShownTimes(history: map<string, int>, key: string, times: seq<int>): seq<int>
    decreases |times|
  {
    if |times| == 0 then []
    else if Suppressed(history, key, times[0]) then ShownTimes(history, key, times[1..])
    else [times[0]] + ShownTimes(RecordShown(history, key, times[0]), key, times[1..])
  }

  predicate NonDecreasing(times: seq<int>)
  {
    forall i, j :: 0 <= i < j < |times| ==> times[i] <= times[j]
  }

  /**
   * Pushing the same keyed alert at non-decreasing times shows it at most
   * once per 15-second window: shown times are at least 15 s apart and at
   * least 15 s after the last recorded showing.
   */
  lemma {:induction false} ShownTimesSpaced(history: map<string, int>, key: string, times: seq<int>)
    requires key != ""
    requires NonDecreasing(times)
    ensures var shown := ShownTimes(history, key, times);
      (|shown| > 0 ==> shown[0] - LastSeen(history, key) >= DedupeWindowMs)
      && forall i :: 0 <= i < |shown| - 1 ==> shown[i + 1] - shown[i] >= DedupeWindowMs
    decreases |times|
  {
    if |times| > 0 {
      if Suppressed(history, key, times[0]) {
        ShownTimesSpaced(history, key, times[1..]);
      } else {
        var h := RecordShown(history, key, times[0]);
        ShownTimesSpaced(h, key, times[1..]);
        var rest := ShownTimes(h, key, times[1..]);
        assert LastSeen(h, key) == times[0];
        var shown := [times[0]] + rest;
        forall i | 0 <= i < |shown| - 1
          ensures shown[i + 1] - shown[i] >= DedupeWindowMs
        {
          if i > 0 {
            assert shown[i] == rest[i - 1] && shown[i + 1] == rest[i];
          }
        }
      }
    }
  }

  /** Showing an alert under one key never changes whether another key is suppressed. */
  lemma KeysIndependent(history: map<string, int>, key: string, other: string, t: int, later: int)
    requires key != other
    ensures Suppressed(RecordShown(history, key, t), other, later) == Suppressed(history, other, later)
  {
  }

  /** The alert list after a push with `key` at `now`. */
  function AlertsAfterPush(alerts: seq<AlertView>, history: map<string, int>, key: string, now: int,
                           alert: AlertView): seq<AlertView>
  {
    if Suppressed(history, key, now) then alerts else alerts + [alert]
  }

  /** The dedupe history after a push with `key` at `now`. */
  function HistoryAfterPush(history: map<string, int>, key: string, now: int): map<string, int>
  {
    if Suppressed(history, key, now) then history else RecordShown(history, key, now)
  }

  /** The pending expiry timers after a push of alert `id` with `key` at `now`. */
  function ExpiringAfterPush(expiring: multiset<real>, history: map<string, int>, key: string, now: int,
                             id: real): multiset<real>
  {
    if Suppressed(history, key, now) then expiring else expiring + multiset{id}
  }

  /** Keeps every alert except those with the given id. */
  function RemoveAlert(alerts: seq<AlertView>, id: real): (r: seq<AlertView>)
    ensures forall k :: 0 <= k < |r| ==> r[k].id != id && r[k] in alerts
    ensures forall k :: 0 <= k < |alerts| && alerts[k].id != id ==> alerts[k] in r
    ensures |r| <= |alerts|
    decreases |alerts|
  {
    if |alerts| == 0 then []
    else if alerts[0].id == id then RemoveAlert(alerts[1..], id)
    else [alerts[0]] + RemoveAlert(alerts[1..], id)
  }

  /** Removing an id twice is removing it once. */
  lemma {:induction false} RemoveAlertIdempotent(alerts: seq<AlertView>, id: real)
    ensures RemoveAlert(RemoveAlert(alerts, id), id) == RemoveAlert(alerts, id)
    decreases |alerts|
  {
    if |alerts| > 0 {
      RemoveAlertIdempotent(alerts[1..], id);
    }
  }

  /** Removing an id no alert carries changes nothing. */
  lemma {:induction false} RemoveAbsentAlert(alerts: seq<AlertView>, id: real)
    requires forall k :: 0 <= k < |alerts| ==> alerts[k].id != id
    ensures RemoveAlert(alerts, id) == alerts
    decreases |alerts|
  {
    if |alerts| > 0 {
      RemoveAbsentAlert(alerts[1..], id);
    }
  }

  // ---------------------------------------------------------------------
  // Derived values
  // ---------------------------------------------------------------------

  /** A new event goes first, and the list keeps at most 500 events. */
  function PrependEvent(e: EventView, events: seq<EventView>): (r: seq<EventView>)
    ensures |r| == if |events| + 1 <= MaxEvents then |events| + 1 else MaxEvents
    ensures r[0] == e
    ensures r[1..] == events[..|r| - 1]
  {
    var all := [e] + events;
    if |all| <= MaxEvents then all else all[..MaxEvents]
  }

  /** Floors are low when there are some and at most 10 slots are free across them. */
  predicate LowAvailability(floors: seq<FloorView>)
  {
    |floors| > 0 && AvailableSlots.AvailableSlots(floors) <= LowAvailabilityLimit
  }

  function LowAvailabilityMessage(available: int): string
  {
    "Only " + IntToString(available) + " parking slots remain across all floors."
  }

  function LowAlert(id: real, floors: seq<FloorView>): AlertView
  {
    AlertView(id, WarningAlert, "Low Availability", LowAvailabilityMessage(AvailableSlots.AvailableSlots(floors)))
  }

  predicate SortedById(floors: seq<FloorView>)
  {
    forall i, j :: 0 <= i < j < |floors| ==> floors[i].id <= floors[j].id
  }

  /** Every id in `s` is at least `b`. */
  predicate IdsAtLeast(b: int, s: seq<FloorView>)
  {
    forall k :: 0 <= k < |s| ==> b <= s[k].id
  }

  function InsertById(f: FloorView, sorted: seq<FloorView>): (r: seq<FloorView>)
    ensures multiset(r) == multiset(sorted) + multiset{f}
    decreases |sorted|
  {
    if |sorted| == 0 then [f]
    else if f.id < sorted[0].id then [f] + sorted
    else
      assert sorted == [sorted[0]] + sorted[1..];
      [sorted[0]] + InsertById(f, sorted[1..])
  }

  /** A bound below `f` and everything in `sorted` bounds the result of inserting. */
  lemma InsertKeepsBound(b: int, f: FloorView, sorted: seq<FloorView>)
    requires IdsAtLeast(b, sorted) && b <= f.id
    ensures IdsAtLeast(b, InsertById(f, sorted))
  {
    var r := InsertById(f, sorted);
    forall k | 0 <= k < |r|
      ensures b <= r[k].id
    {
      assert r[k] in multiset(r);
      if r[k] != f {
        assert r[k] in multiset(sorted);
      }
    }
  }

  /** Inserting into an ordered list keeps it ordered. */
  lemma {:induction false} InsertSorted(f: FloorView, sorted: seq<FloorView>)
    requires SortedById(sorted)
    ensures SortedById(InsertById(f, sorted))
    decreases |sorted|
  {
    if |sorted| > 0 && f.id >= sorted[0].id {
      InsertSorted(f, sorted[1..]);
      InsertKeepsBound(sorted[0].id, f, sorted[1..]);
    }
  }

  /** The floors ordered by id, ascending, as `sort((a, b) => a.id - b.id)` orders them. */
  function SortById(floors: seq<FloorView>): (r: seq<FloorView>)
    ensures multiset(r) == multiset(floors)
    decreases |floors|
  {
    if |floors| == 0 then []
    else
      assert floors == floors[..|floors| - 1] + [floors[|floors| - 1]];
      InsertById(floors[|floors| - 1], SortById(floors[..|floors| - 1]))
  }

  /** The ordered floors are ordered by id. */
  lemma {:induction false} SortByIdSorted(floors: seq<FloorView>)
    ensures SortedById(SortById(floors))
    decreases |floors|
  {
    if |floors| > 0 {
      SortByIdSorted(floors[..|floors| - 1]);
      InsertSorted(floors[|floors| - 1], SortById(floors[..|floors| - 1]));
    }
  }

  /** Ordering the floors changes none of the summed figures. */
  lemma OrderedFloorsKeepTotals(floors: seq<FloorView>)
    ensures AvailableSlots.TotalSlots(SortById(floors)) == AvailableSlots.TotalSlots(floors)
    ensures AvailableSlots.OccupiedSlots(SortById(floors)) == AvailableSlots.OccupiedSlots(floors)
    ensures AvailableSlots.AvailableSlots(SortById(floors)) == AvailableSlots.AvailableSlots(floors)
  {
    AvailableSlots.SumPermutation(SortById(floors), floors, AvailableSlots.Capacity);
    AvailableSlots.SumPermutation(SortById(floors), floors, AvailableSlots.Occupied);
    AvailableSlots.SumPermutation(SortById(floors), floors, AvailableSlots.Available);
  }

  // ---------------------------------------------------------------------
  // Server replies and realtime messages
  // ---------------------------------------------------------------------

  /** Both overview requests together: either both answered, or the first failure's user message. */
  datatype OverviewReply =
    | OverviewOk(floors: Option<seq<FloorView>>, recommendation: Option<RecommendationView>)
    | OverviewFailed(userMessage: string)

  datatype EventsReply =
    | EventsOk(events: Option<seq<EventView>>)
    | EventsFailed(userMessage: string)

  /** A realtime payload; a field is None when absent or not of the expected shape. */
  datatype ServerMessage = ServerMessage(
    kind: string,
    floors: Option<seq<FloorView>>,
    recommendation: Option<RecommendationView>,
    events: Option<seq<EventView>>,
    event: Option<EventView>)

  /** `err?.userMessage || fallback`. */
  function FailureText(userMessage: string, fallback: string): (r: string)
    ensures userMessage != "" ==> r == userMessage
    ensures userMessage == "" ==> r == fallback
  {
    if userMessage != "" then userMessage else fallback
  }

  class DashboardState {
    var floors: seq<FloorView>
    var events: seq<EventView>
    var recommendation: Option<RecommendationView>
    var loading: bool
    var eventsLoading: bool
    var overviewError: string
    var eventsError: string
    var alerts: seq<AlertView>
    var lastUpdated: Option<int>
    var wsConnected: bool
    var alertHistory: map<string, int>
    /** Ids whose five-second expiry timer is still pending. */
    var expiring: multiset<real>

    /** The first render. */
    constructor ()
      ensures floors == [] && events == [] && recommendation == None
      ensures loading && eventsLoading && overviewError == "" && eventsError == ""
      ensures alerts == [] && lastUpdated == None && !wsConnected
      ensures alertHistory == map[] && expiring == multiset{}
    {
      floors := [];
      events := [];
      recommendation := None;
      loading := true;
      eventsLoading := true;
      overviewError := "";
      eventsError := "";
      alerts := [];
      lastUpdated := None;
      wsConnected := false;
      alertHistory := map[];
      expiring := multiset{};
    }

    /** `pushAlert`: shows the alert unless its key was shown in the last 15 s. */
    method PushAlert(kind: AlertKind, title: string, message: string, key: string, now: int, id: real)
      returns (shown: bool)
      modifies this
      ensures shown == !Suppressed(old(alertHistory), key, now)
      ensures alertHistory == HistoryAfterPush(old(alertHistory), key, now)
      ensures alerts == AlertsAfterPush(old(alerts), old(alertHistory), key, now, AlertView(id, kind, title, message))
      ensures expiring == if shown then old(expiring) + multiset{id} else old(expiring)
      ensures floors == old(floors) && events == old(events) && recommendation == old(recommendation)
      ensures loading == old(loading) && eventsLoading == old(eventsLoading)
      ensures overviewError == old(overviewError) && eventsError == old(eventsError)
      ensures lastUpdated == old(lastUpdated) && wsConnected == old(wsConnected)
    {
      if key != "" {
        var lastSeenAt := LastSeen(alertHistory, key);
        if now - lastSeenAt < DedupeWindowMs {
          return false;
        }
        alertHistory := alertHistory[key := now];
      }
      alerts := alerts + [AlertView(id, kind, title, message)];
      expiring := expiring + multiset{id};
      return true;
    }

    /** An alert's five-second timer fires and removes it. */
    method ExpireAlert(id: real)
      requires id in expiring
      modifies this
      ensures alerts == RemoveAlert(old(alerts), id)
      ensures expiring == old(expiring) - multiset{id}
      ensures alertHistory == old(alertHistory)
      ensures floors == old(floors) && events == old(events) && recommendation == old(recommendation)
      ensures loading == old(loading) && eventsLoading == old(eventsLoading)
      ensures overviewError == old(overviewError) && eventsError == old(eventsError)
      ensures lastUpdated == old(lastUpdated) && wsConnected == old(wsConnected)
    {
      expiring := expiring - multiset{id};
      alerts := RemoveAlert(alerts, id);
    }

    /** The user closes an alert. */
    method DismissAlert(id: real)
      modifies this
      ensures alerts == RemoveAlert(old(alerts), id)
      ensures expiring == old(expiring) && alertHistory == old(alertHistory)
      ensures floors == old(floors) && events == old(events) && recommendation == old(recommendation)
      ensures loading == old(loading) && eventsLoading == old(eventsLoading)
      ensures overviewError == old(overviewError) && eventsError == old(eventsError)
      ensures lastUpdated == old(lastUpdated) && wsConnected == old(wsConnected)
    {
      alerts := RemoveAlert(alerts, id);
    }

    /** The low-availability effect, run after the floors were replaced. */
    method LowAvailabilityEffect(now: int, id: real)
      modifies this
      ensures LowAvailability(floors) ==>
                alerts == AlertsAfterPush(old(alerts), old(alertHistory), "low-availability", now, LowAlert(id, floors))
                && alertHistory == HistoryAfterPush(old(alertHistory), "low-availability", now)
                && expiring == ExpiringAfterPush(old(expiring), old(alertHistory), "low-availability", now, id)
      ensures !LowAvailability(floors) ==>
                alerts == old(alerts) && alertHistory == old(alertHistory) && expiring == old(expiring)
      ensures floors == old(floors) && events == old(events) && recommendation == old(recommendation)
      ensures loading == old(loading) && eventsLoading == old(eventsLoading)
      ensures overviewError == old(overviewError) && eventsError == old(eventsError)
      ensures lastUpdated == old(lastUpdated) && wsConnected == old(wsConnected)
    {
      if |floors| == 0 {
        return;
      }
      var totalAvailable := AvailableSlots.AvailableSlots(floors);
      if totalAvailable <= LowAvailabilityLimit {
        var _ := PushAlert(WarningAlert, "Low Availability", LowAvailabilityMessage(totalAvailable),
                           "low-availability", now, id);
      }
    }

    /** `fetchOverviewData` up to its `await`: a foreground fetch shows the spinner. */
    method BeginOverviewFetch(background: bool)
      modifies this
      ensures loading == (if background then old(loading) else true)
      ensures floors == old(floors) && events == old(events) && recommendation == old(recommendation)
      ensures eventsLoading == old(eventsLoading) && alerts == old(alerts)
      ensures overviewError == old(overviewError) && eventsError == old(eventsError)
      ensures lastUpdated == old(lastUpdated) && wsConnected == old(wsConnected)
      ensures alertHistory == old(alertHistory) && expiring == old(expiring)
    {
      if !background {
        loading := true;
      }
    }

    /** The success half of `fetchOverviewData`: the new data, then the low-availability effect. */
    method ApplyOverview(fs: Option<seq<FloorView>>, rec: Option<RecommendationView>, now: int, lowAlertId: real)
      modifies this
      ensures floors == fs.GetOr([]) && recommendation == rec && lastUpdated == Some(now) && overviewError == ""
      ensures LowAvailability(floors) ==>
                alerts == AlertsAfterPush(old(alerts), old(alertHistory), "low-availability", now, LowAlert(lowAlertId, floors))
                && alertHistory == HistoryAfterPush(old(alertHistory), "low-availability", now)
      ensures !LowAvailability(floors) ==> alerts == old(alerts) && alertHistory == old(alertHistory)
      ensures expiring == if LowAvailability(floors) then ExpiringAfterPush(old(expiring), old(alertHistory), "low-availability", now, lowAlertId)
                          else old(expiring)
      ensures loading == old(loading) && events == old(events) && eventsLoading == old(eventsLoading)
      ensures eventsError == old(eventsError) && wsConnected == old(wsConnected)
    {
      floors := fs.GetOr([]);
      recommendation := rec;
      lastUpdated := Some(now);
      overviewError := "";
      LowAvailabilityEffect(now, lowAlertId);
    }

    /** The failure half of `fetchOverviewData`: the error text and its deduplicated alert. */
    method ApplyOverviewFailure(message: string, now: int, alertId: real)
      modifies this
      ensures overviewError == FailureText(message, OverviewFailureText)
      ensures alerts == AlertsAfterPush(old(alerts), old(alertHistory), "overview-api-error", now,
                                        AlertView(alertId, ErrorAlert, "API Error", overviewError))
      ensures alertHistory == HistoryAfterPush(old(alertHistory), "overview-api-error", now)
      ensures expiring == ExpiringAfterPush(old(expiring), old(alertHistory), "overview-api-error", now, alertId)
      ensures floors == old(floors) && recommendation == old(recommendation) && lastUpdated == old(lastUpdated)
      ensures loading == old(loading) && events == old(events) && eventsLoading == old(eventsLoading)
      ensures eventsError == old(eventsError) && wsConnected == old(wsConnected)
    {
      var detail := FailureText(message, OverviewFailureText);
      overviewError := detail;
      var _ := PushAlert(ErrorAlert, "API Error", detail, "overview-api-error", now, alertId);
    }

    /**
     * `fetchOverviewData` after its `await`: on success the floors, the
     * recommendation and the update time are replaced and the error cleared;
     * on failure the error text is set and an alert pushed. Then the spinner
     * of a foreground fetch stops.
     */
    method CompleteOverviewFetch(background: bool, reply: OverviewReply, now: int, alertId: real, lowAlertId: real)
      modifies this
      ensures loading == (if background then old(loading) else false)
      ensures events == old(events) && eventsLoading == old(eventsLoading) && eventsError == old(eventsError)
      ensures wsConnected == old(wsConnected)
      ensures reply.OverviewOk? ==>
                floors == reply.floors.GetOr([]) && recommendation == reply.recommendation
                && lastUpdated == Some(now) && overviewError == ""
      ensures reply.OverviewOk? && LowAvailability(floors) ==>
                alerts == AlertsAfterPush(old(alerts), old(alertHistory), "low-availability", now, LowAlert(lowAlertId, floors))
                && alertHistory == HistoryAfterPush(old(alertHistory), "low-availability", now)
      ensures reply.OverviewOk? && !LowAvailability(floors) ==>
                alerts == old(alerts) && alertHistory == old(alertHistory)
      ensures reply.OverviewFailed? ==>
                floors == old(floors) && recommendation == old(recommendation) && lastUpdated == old(lastUpdated)
                && overviewError == FailureText(reply.userMessage, OverviewFailureText)
                && alerts == AlertsAfterPush(old(alerts), old(alertHistory), "overview-api-error", now,
                                             AlertView(alertId, ErrorAlert, "API Error", overviewError))
                && alertHistory == HistoryAfterPush(old(alertHistory), "overview-api-error", now)
      ensures expiring == if reply.OverviewFailed? then ExpiringAfterPush(old(expiring), old(alertHistory), "overview-api-error", now, alertId)
                          else if LowAvailability(floors) then ExpiringAfterPush(old(expiring), old(alertHistory), "low-availability", now, lowAlertId)
                          else old(expiring)
    {
      match reply {
      case OverviewOk(fs, rec) =>
        ApplyOverview(fs, rec, now, lowAlertId);
      case OverviewFailed(message) =>
        ApplyOverviewFailure(message, now, alertId);
      }
      if !background {
        loading := false;
      }
    }

    /** `fetchEventsData` up to its `await`. */
    method BeginEventsFetch(background: bool)
      modifies this
      ensures eventsLoading == (if background then old(eventsLoading) else true)
      ensures floors == old(floors) && events == old(events) && recommendation == old(recommendation)
      ensures loading == old(loading) && alerts == old(alerts)
      ensures overviewError == old(overviewError) && eventsError == old(eventsError)
      ensures lastUpdated == old(lastUpdated) && wsConnected == old(wsConnected)
      ensures alertHistory == old(alertHistory) && expiring == old(expiring)
    {
      if !background {
        eventsLoading := true;
      }
    }

    /** `fetchEventsData` after its `await`. */
    method CompleteEventsFetch(background: bool, reply: EventsReply, now: int, alertId: real)
      modifies this
      ensures eventsLoading == (if background then old(eventsLoading) else false)
      ensures floors == old(floors) && recommendation == old(recommendation) && loading == old(loading)
      ensures overviewError == old(overviewError) && lastUpdated == old(lastUpdated)
      ensures wsConnected == old(wsConnected)
      ensures reply.EventsOk? ==>
                events == reply.events.GetOr([]) && eventsError == ""
                && alerts == old(alerts) && alertHistory == old(alertHistory)
      ensures reply.EventsFailed? ==>
                events == old(events)
                && eventsError == FailureText(reply.userMessage, EventsFailureText)
                && alerts == AlertsAfterPush(old(alerts), old(alertHistory), "events-api-error", now,
                                             AlertView(alertId, WarningAlert, "Event Log Error", eventsError))
                && alertHistory == HistoryAfterPush(old(alertHistory), "events-api-error", now)
      ensures expiring == if reply.EventsFailed? then ExpiringAfterPush(old(expiring), old(alertHistory), "events-api-error", now, alertId)
                          else old(expiring)
    {
      match reply {
      case EventsOk(evs) =>
        events := evs.GetOr([]);
        eventsError := "";
      case EventsFailed(message) =>
        var detail := FailureText(message, EventsFailureText);
        eventsError := detail;
        var _ := PushAlert(WarningAlert, "Event Log Error", detail, "events-api-error", now, alertId);
      }
      if !background {
        eventsLoading := false;
      }
    }

    /** The realtime stream opened. */
    method RealtimeOpened(now: int, id: real)
      modifies this
      ensures wsConnected
      ensures alerts == AlertsAfterPush(old(alerts), old(alertHistory), "ws-connected", now,
                                        AlertView(id, InfoAlert, "Realtime Connected", "WebSocket realtime stream connected."))
      ensures alertHistory == HistoryAfterPush(old(alertHistory), "ws-connected", now)
      ensures expiring == ExpiringAfterPush(old(expiring), old(alertHistory), "ws-connected", now, id)
      ensures floors == old(floors) && events == old(events) && recommendation == old(recommendation)
      ensures loading == old(loading) && eventsLoading == old(eventsLoading)
      ensures overviewError == old(overviewError) && eventsError == old(eventsError)
      ensures lastUpdated == old(lastUpdated)
    {
      wsConnected := true;
      var _ := PushAlert(InfoAlert, "Realtime Connected", "WebSocket realtime stream connected.",
                         "ws-connected", now, id);
    }

    /** The realtime stream closed or failed. */
    method RealtimeLost()
      modifies this
      ensures !wsConnected
      ensures floors == old(floors) && events == old(events) && recommendation == old(recommendation)
      ensures loading == old(loading) && eventsLoading == old(eventsLoading) && alerts == old(alerts)
      ensures overviewError == old(overviewError) && eventsError == old(eventsError)
      ensures lastUpdated == old(lastUpdated) && alertHistory == old(alertHistory) && expiring == old(expiring)
    {
      wsConnected := false;
    }

    /** The four realtime message kinds are different texts. */
    static lemma RealtimeKindsDistinct()
      ensures "floors_update" != "recommendation_update" && "floors_update" != "events_update"
      ensures "floors_update" != "event_created" && "recommendation_update" != "events_update"
      ensures "recommendation_update" != "event_created" && "events_update" != "event_created"
    {
      assert "floors_update"[0] != "events_update"[0];
      assert "floors_update"[0] != "event_created"[0];
      assert "events_update"[5] != "event_created"[5];
    }

    /**
     * A realtime payload: floor lists, recommendations, event lists and single
     * new events replace or extend the state when they have the expected
     * shape; anything else is ignored.
     */
    method RealtimeMessage(msg: ServerMessage, now: int, lowAlertId: real)
      modifies this
      ensures msg.kind == "floors_update" && msg.floors.Some? ==>
                floors == msg.floors.value && lastUpdated == Some(now) && overviewError == ""
      ensures msg.kind == "floors_update" && msg.floors.Some? && LowAvailability(floors) ==>
                alerts == AlertsAfterPush(old(alerts), old(alertHistory), "low-availability", now, LowAlert(lowAlertId, floors))
                && alertHistory == HistoryAfterPush(old(alertHistory), "low-availability", now)
                && expiring == ExpiringAfterPush(old(expiring), old(alertHistory), "low-availability", now, lowAlertId)
      ensures !(msg.kind == "floors_update" && msg.floors.Some? && LowAvailability(floors)) ==>
                alerts == old(alerts) && alertHistory == old(alertHistory) && expiring == old(expiring)
      ensures msg.kind == "recommendation_update" && msg.recommendation.Some? ==>
                recommendation == msg.recommendation && lastUpdated == Some(now) && overviewError == ""
      ensures msg.kind == "events_update" && msg.events.Some? ==>
                events == msg.events.value && eventsError == ""
      ensures msg.kind == "event_created" && msg.event.Some? ==>
                events == PrependEvent(msg.event.value, old(events)) && eventsError == ""
      ensures !(msg.kind == "floors_update" && msg.floors.Some?) ==> floors == old(floors)
      ensures !(msg.kind == "floors_update" && msg.floors.Some?) && !(msg.kind == "recommendation_update" && msg.recommendation.Some?) ==>
                lastUpdated == old(lastUpdated) && overviewError == old(overviewError)
      ensures !(msg.kind == "recommendation_update" && msg.recommendation.Some?) ==>
                recommendation == old(recommendation)
      ensures !(msg.kind == "events_update" && msg.events.Some?) && !(msg.kind == "event_created" && msg.event.Some?) ==>
                events == old(events) && eventsError == old(eventsError)
      ensures loading == old(loading) && eventsLoading == old(eventsLoading) && wsConnected == old(wsConnected)
    {
      RealtimeKindsDistinct();
      if msg.kind == "floors_update" && msg.floors.Some? {
        floors := msg.floors.value;
        lastUpdated := Some(now);
        overviewError := "";
        LowAvailabilityEffect(now, lowAlertId);
      }
      if msg.kind == "recommendation_update" && msg.recommendation.Some? {
        recommendation := msg.recommendation;
        lastUpdated := Some(now);
        overviewError := "";
      }
      if msg.kind == "events_update" && msg.events.Some? {
        events := msg.events.value;
        eventsError := "";
      }
      if msg.kind == "event_created" && msg.event.Some? {
        events := PrependEvent(msg.event.value, events);
        eventsError := "";
      }
    }

    /** The floors as the overview shows them. */
    function OrderedFloors(): seq<FloorView>
      reads this
    {
      SortById(floors)
    }

    /** The header's status light. */
    predicate IsSystemOnline()
      reads this
    {
      overviewError == ""
    }

    /** The "Data Error" banner stands in for the alert list only while that list is empty. */
    predicate ShowsDataErrorBanner()
      reads this
    {
      overviewError != "" && |alerts| == 0
    }
  }

  /** A successful overview fetch puts the system online; a failed one takes it offline. */
  method OverviewFetchDecidesStatus(reply: OverviewReply, now: int) returns (online: bool)
    ensures online <==> reply.OverviewOk?
  {
    var d := new DashboardState();
    d.BeginOverviewFetch(false);
    d.CompleteOverviewFetch(false, reply, now, 0.0, 1.0);
    online := d.IsSystemOnline();
  }
}
