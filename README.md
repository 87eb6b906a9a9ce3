# Smart Parking — a verified Dafny model of its core

Smart Parking counts the vehicles that enter and leave the floors of a car
park. It has three parts, and the Dafny modules under `src/` follow them file
by file:

- **Vision service** (Python). It reads frames from a camera file or an RTSP
  stream at a regulated rate and detects vehicles (YOLO), keeping only the
  configured classes above a confidence threshold. The threshold is lowered
  for dark frames. It tracks the vehicles across frames (ByteTrack) and turns
  a tracked centroid that crosses a counting line into an `entry` or `exit`
  event. Cooldown, occlusion, minimum-distance and reversal windows suppress
  duplicates. The events are posted to the backend with retries. Events that
  could not be delivered are kept in an offline queue that is flushed
  periodically.
  Modules: `VisionVideoSource`, `VisionDetector`, `VisionTracker`,
  `VisionEventHandler`, `VisionApiClient`, `VisionMonitoring`,
  `VisionConfig`, `VisionMain`.
- **Backend** (Python/FastAPI). Its middleware applies an API-key gate, a
  per-client sliding-window rate limiter and request monitoring. It records
  events idempotently: a duplicate inside the window is reported, not
  counted twice. Each row's vehicle count stays within `0..total_slots`. It
  serves the floor list, a recommendation, filtered and paginated event
  queries, statistics and the latest camera frame, and it seeds a demo
  database.
  Modules: `Security`, `ApiMonitoring`, `FloorModel`, `EventModel`,
  `DatabaseOps`, `Schemas`, `Seed`, `BackendConfig`, `BackendApi`.
- **Frontend** (React). An HTTP client retries GET requests on 5xx replies
  and network failures with linear backoff. A realtime WebSocket client
  reconnects on a timer. The dashboard polls, deduplicates its alerts and
  merges realtime messages. It also has the camera feed, the event log with
  its filters, the slot totals and the floor status table.
  Modules: `FrontendApi`, `Realtime`, `Dashboard`, `CameraFeed`, `EventLog`,
  `AvailableSlots`, `FloorStatus`, with the shared view types in
  `FrontendData`.

The helper modules `Wrappers` (Option/Result), `Strings` (ASCII lowering,
Python `strip`/`split`/`join`, integer rendering), `Numbers` (JavaScript
`Math.round`, Python `int()` truncation, truncated midpoint) and `Seqs`
(filter, count, subsequence, de-duplication) hold the shared definitions.

How the source is modelled:

- Objects whose fields the source updates become classes with `modifies`
  clauses: the rate limiter, the monitoring state, the database, the dashboard
  state, the frame poller, the realtime client, the event handler, the
  tracker, the backend client, the video source, the frame-rate regulator and
  the performance monitor.
- Pure computations become functions, with lemmas beside them.
- The loops of the source become methods with loop invariants, each proved
  against a specification function.
- Everything the core does not compute itself becomes a parameter:
  - clocks and the current time
  - network replies, as a sequence of replies or a function `(payload, attempt) -> outcome`
  - file existence and directory listings
  - the model and tracker outputs
  - whether a capture opens

  Sleeps are recorded in a sequence instead of being performed.
- Floating-point numbers are exact reals.
- Python's `int()` truncates toward zero, and JavaScript's `Math.round` is
  `floor(x + 1/2)`.
- Database timestamps are integers in microseconds.

Where the code and its documentation differ, the model follows the code. In
particular:

- Dashboard polling uses fixed-rate `setInterval` timers, and nothing
  prevents two fetches from overlapping.
- The HTTP client retries by calling itself again, which the model writes as
  a recursive function over the sequence of replies.
- The backend's alert evaluation compares rounded values. See "Left out".

## Model

| member | source | states |
|---|---|---|
| FrontendApi.DefaultHeaders | frontend/src/services/api.js:3-16 | The JSON content type is always sent. The API-key header is added, under the configured header name, exactly when a key is configured. |
| FrontendApi.UserMessage | frontend/src/services/api.js:53-59 | The message shown to the user is never empty. It prefers the reply's `detail`, then `error`, then `message`, then the fixed fallback text. |
| FrontendApi.SendBounds | frontend/src/services/api.js:7-49 | A request is sent at least once and at most once more than the remaining retry budget. Before retry k the client waits `delay * (retryCount + k + 1)` ms, so the backoff is linear. |
| FrontendApi.SendRetryStep | frontend/src/services/api.js:45-50 | A retryable failure re-sends the request with the retry count plus one, after waiting for the backoff of the current count. |
| FrontendApi.SendRetriedOnlyRetryable | frontend/src/services/api.js:39-45 | Every reply but the last is a failure of a retryable request (method GET, HEAD or OPTIONS after lowercasing, or a request marked retryable) with a retryable status: no response, 429, or 500 and above. |
| FrontendApi.SendStopsOnLastReply | frontend/src/services/api.js:33-51 | The request resolves exactly when the last reply consumed is a success, and then with that reply's status. |
| FrontendApi.SendRejectsOnLastFailure | frontend/src/services/api.js:45-61 | A rejection carries the last failed reply and its user message. Either that failure was not retryable or the retry budget was spent. |
| FrontendApi.NonRetryableSentOnce | frontend/src/services/api.js:39-45 | A POST, or any request that is not retryable, is sent exactly once and waits for nothing. |
| FrontendApi.GetRetriedAfterServerError | frontend/src/services/__tests__/api.retry.test.js:18-27 | A GET that gets a 500 and then a 200 resolves with 200 after two sends and one backoff wait. |
| FrontendApi.PostNotRetried | frontend/src/services/__tests__/api.retry.test.js:29-33 | A POST that gets a 500 is rejected after one send, and its message is the reply's detail. |
| Realtime.ToWebSocketUrlScheme | frontend/src/services/realtime.js:1-12 | `https://` becomes `wss://` and `http://` becomes `ws://`. Any other URL is left unchanged. |
| Realtime.ToWebSocketUrlRoundTrip | frontend/src/services/realtime.js:1-12 | Turning an http(s) URL into a WebSocket URL and back gives the original URL. |
| Realtime.DefaultSocketUrl | frontend/src/services/realtime.js:16-18 | With nothing configured, the socket URL is `ws://localhost:8000/ws`. |
| Realtime.RealtimeClient.constructor | frontend/src/services/realtime.js:14-31 | A new client is enabled according to its flag, has its socket URL, holds no socket and no timer, and will reconnect. |
| Realtime.RealtimeClient.ScheduleReconnect | frontend/src/services/realtime.js:33-38 | While reconnecting is wanted, a new timer is armed and stored as the reconnect timer, and the timer counter advances. Otherwise nothing changes. |
| Realtime.RealtimeClient.Connect | frontend/src/services/realtime.js:40-51 | Nothing happens when the client is disabled or already open. Otherwise one new socket is created and the stored timer is left alone. If the constructor throws, the failure is reported and, while reconnecting is wanted, a reconnect timer is armed and stored. |
| Realtime.RealtimeClient.SocketOpened | frontend/src/services/realtime.js:53-55 | The open is reported. The current socket becomes open, and a stale socket's event changes no socket. |
| Realtime.RealtimeClient.SocketMessage | frontend/src/services/realtime.js:57-64 | A parsed message is delivered, and an unparsable one is reported as a failure. Nothing else changes. |
| Realtime.RealtimeClient.SocketClosed | frontend/src/services/realtime.js:66-69 | The close is reported. While reconnecting is still wanted, a new timer is armed and stored as the reconnect timer (so a later `Close` clears it). Otherwise the timers stay as they were. |
| Realtime.RealtimeClient.SocketError | frontend/src/services/realtime.js:71-73 | A socket error is reported and changes nothing else. |
| Realtime.RealtimeClient.TimerFired | frontend/src/services/realtime.js:33-38 | A fired timer is consumed and reconnects: unless the held socket is open, one new socket is created in the connecting state; if its constructor throws, the error is reported and, while reconnecting is wanted, a new timer is armed and stored. The stored timer handle is otherwise unchanged. |
| Realtime.RealtimeClient.Close | frontend/src/services/realtime.js:76-86 | Closing stops reconnection, drops the socket and clears the pending reconnect timer. |
| Dashboard.ShownTimesSpaced | frontend/src/components/Dashboard.jsx:30-38 | Over a run of pushes of one alert key, with non-decreasing clocks, the times at which the alert is shown are at least the dedupe window apart, and so is the first one from the last time it was shown before. |
| Dashboard.KeysIndependent | frontend/src/components/Dashboard.jsx:33-37 | Showing an alert under one key never suppresses an alert under another key. |
| Dashboard.RemoveAlert | frontend/src/components/Dashboard.jsx:42-44 | Removing an alert keeps exactly the alerts with other ids and adds none. |
| Dashboard.RemoveAlertIdempotent | frontend/src/components/Dashboard.jsx:42-44 | Removing the same alert twice is the same as removing it once. |
| Dashboard.RemoveAbsentAlert | frontend/src/components/Dashboard.jsx:42-44 | Removing an id that no alert has leaves the list unchanged. An expiry timer that fires after a dismissal is therefore harmless. |
| Dashboard.PrependEvent | frontend/src/components/Dashboard.jsx:139-142 | A realtime event goes first, the previous events follow in order, and the list is capped at the maximum length. |
| Dashboard.SortById | frontend/src/components/Dashboard.jsx:168-170 | Ordering the floors for display is a permutation of them. |
| Dashboard.SortByIdSorted | frontend/src/components/Dashboard.jsx:168-170 | The displayed floors are ordered by id. |
| Dashboard.OrderedFloorsKeepTotals | frontend/src/components/Dashboard.jsx:168-170 | Reordering the floors does not change the total, occupied or available slot counts. |
| Dashboard.DashboardState.constructor | frontend/src/components/Dashboard.jsx:14-24 | The initial state has no data, both loading flags set, no errors, no alerts, no history and is offline. |
| Dashboard.DashboardState.PushAlert | frontend/src/components/Dashboard.jsx:30-45 | An alert is shown exactly when its key was not shown within the dedupe window. Showing it records the time and arms its expiry. Nothing else changes. |
| Dashboard.DashboardState.ExpireAlert | frontend/src/components/Dashboard.jsx:42-44 | An expiry timer removes its alert and consumes the timer. |
| Dashboard.DashboardState.DismissAlert | frontend/src/components/Dashboard.jsx:200-210 | Dismissing removes the alert and leaves its expiry timer pending. |
| Dashboard.DashboardState.LowAvailabilityEffect | frontend/src/components/Dashboard.jsx:153-166 | A low-availability alert is pushed exactly when the floors are short of free slots. Otherwise nothing changes. |
| Dashboard.DashboardState.BeginOverviewFetch | frontend/src/components/Dashboard.jsx:47-52 | A foreground fetch sets the loading flag, and a background poll does not. Nothing else changes. |
| Dashboard.DashboardState.ApplyOverview | frontend/src/components/Dashboard.jsx:58-61 | The floors, the recommendation and the update time are replaced and the error cleared. Then a low-availability alert is pushed exactly when the new floors are low, with its expiry timer pending exactly when shown. |
| Dashboard.DashboardState.ApplyOverviewFailure | frontend/src/components/Dashboard.jsx:62-66 | The error text is the server's message or the fallback, and the API-error alert is pushed under its dedupe key, with its expiry timer pending exactly when shown. The data and everything else stay unchanged. |
| Dashboard.DashboardState.CompleteOverviewFetch | frontend/src/components/Dashboard.jsx:53-70 | Success replaces the floors and the recommendation, stamps the time, clears the error and re-runs the low-availability check. Failure keeps the old data, sets the error text and pushes a deduplicated API-error alert. In both cases the pending expiry timers gain the pushed alert's id exactly when it was shown. |
| Dashboard.DashboardState.BeginEventsFetch | frontend/src/components/Dashboard.jsx:73-78 | A foreground fetch sets the events-loading flag. Nothing else changes. |
| Dashboard.DashboardState.CompleteEventsFetch | frontend/src/components/Dashboard.jsx:79-90 | Success replaces the events and clears their error. Failure keeps them, sets the error text and pushes a deduplicated warning, whose expiry timer is pending exactly when it was shown. |
| Dashboard.DashboardState.RealtimeOpened | frontend/src/components/Dashboard.jsx:108-111 | Realtime is marked connected, and a deduplicated "connected" alert is pushed. |
| Dashboard.DashboardState.RealtimeLost | frontend/src/components/Dashboard.jsx:112-117 | Realtime is marked disconnected. Nothing else changes. |
| Dashboard.DashboardState.RealtimeKindsDistinct | frontend/src/components/Dashboard.jsx:118-143 | The four realtime message kinds are distinct, so at most one branch applies. |
| Dashboard.DashboardState.RealtimeMessage | frontend/src/components/Dashboard.jsx:118-143 | Each message kind that carries its payload updates exactly its slice of the state: floors, recommendation, the event list, or one event prepended (newest first, at most 500). A floor list or recommendation stamps the update time and clears the overview error; otherwise both stay as they were. A floor list then runs the low-availability effect on the new floors (the effect at lines 153-166), which is the only way a message changes the alerts, the dedupe record or the pending expiry timers. Loading flags and the connection flag never change. |
| Dashboard.OverviewFetchDecidesStatus | frontend/src/components/Dashboard.jsx:47-70 | After an overview fetch, the header shows the system online exactly when the fetch succeeded. |
| CameraFeed.ParseBlobErrorDetail | frontend/src/components/CameraFeed.jsx:4-14 | The detail is read only from a non-empty blob body that parses as JSON. It prefers `detail` to `error` and is empty otherwise. |
| CameraFeed.ToFriendlyMessage | frontend/src/components/CameraFeed.jsx:16-28 | The message is never empty. The "no frame yet" and "missing directory" details are recognised case-insensitively, in that order. Any other 404 is "not found", and any other detail is shown as it is. |
| CameraFeed.BackendDetailsRecognised | frontend/src/components/CameraFeed.jsx:16-23 | The two error details the backend's frame endpoint really sends (backend/main.py lines 357 and 365) are both turned into their friendly messages. |
| CameraFeed.NoDetailMessages | frontend/src/components/CameraFeed.jsx:24-27 | Without a detail, a 404 reads "not found" and anything else reads "unavailable". |
| CameraFeed.Render | frontend/src/components/CameraFeed.jsx:84-98 | The image is shown exactly when a URL is held. Without one, a placeholder chosen by loading and error is shown. The error line appears exactly when there is an error and loading is finished. |
| CameraFeed.FramePoller.constructor | frontend/src/components/CameraFeed.jsx:31-43 | The poller starts loading, holds no object URL and has created none. |
| CameraFeed.FramePoller.FetchSucceeded | frontend/src/components/CameraFeed.jsx:51-57 | As written: the new object URL replaces the previous one, the previous one is revoked, and the error is cleared, even after teardown. |
| CameraFeed.FramePoller.FetchSucceededChecked | frontend/src/components/CameraFeed.jsx:45-57 | Corrected: after teardown the new object URL is revoked at once and the state is left unchanged, so no URL is leaked. |
| CameraFeed.FramePoller.FetchFailed | frontend/src/components/CameraFeed.jsx:58-64 | A failure sets the friendly error and keeps the current frame and its URL. |
| CameraFeed.FramePoller.Teardown | frontend/src/components/CameraFeed.jsx:71-74 | Teardown stops the interval and revokes the active object URL, so no URL is outstanding. |
| CameraFeed.AtMostOneOutstanding | frontend/src/components/CameraFeed.jsx:51-56 | While mounted, at most one object URL is unrevoked. |
| CameraFeed.LateSuccessLeaks | frontend/src/components/CameraFeed.jsx:45-74 | A fetch that resolves after teardown leaves its object URL unrevoked (the first finding). |
| CameraFeed.LateSuccessChecked | frontend/src/components/CameraFeed.jsx:45-74 | With the mounted check, the same sequence leaks nothing. |
| CameraFeed.FailureKeepsFrame | frontend/src/components/CameraFeed.jsx:58-62 | A failed poll after a good frame keeps showing that frame. |
| EventLog.FloorIds | frontend/src/components/EventLog.jsx:41-43 | Lists each event's floor id as a string, in order. |
| EventLog.FloorOptions | frontend/src/components/EventLog.jsx:41-43 | The floor options are the distinct floor ids of the events, in order of first appearance: no duplicates, and every event's floor is among them. |
| EventLog.FilterEventsExact | frontend/src/components/EventLog.jsx:45-56 | The shown rows are an order-preserving subsequence of the events, containing exactly the events that pass the time-range, floor and vehicle filters. |
| EventLog.FloorSelectionNarrows | frontend/src/components/EventLog.jsx:52 | Selecting a floor shows exactly the rows for "all floors" that belong to that floor. |
| EventLog.Render | frontend/src/components/EventLog.jsx:9-32 | Loading shows a spinner, then an error panel, then the empty state. Otherwise a table of the filtered rows is shown, with the "no match" line exactly when none pass. |
| EventLog.SamplePasses | frontend/src/components/__tests__/EventLog.test.jsx:7-54 | Of the three sample events, only the truck on floor 2 passes the floor-2 filter, and only when the vehicle filter allows trucks. |
| EventLog.SampleFloorTwo | frontend/src/components/__tests__/EventLog.test.jsx:7-54 | Filtering the samples by floor 2 shows the truck row, or nothing when the vehicle filter excludes trucks. |
| EventLog.SampleFiltering | frontend/src/components/__tests__/EventLog.test.jsx:7-54 | The test's three filter settings give the truck row, the truck row, and the "no match" table. |
| EventLog.HookCountChangesAsWritten | frontend/src/components/EventLog.jsx:5-45 | Running the body as written (three `useState`, three early returns, two `useMemo`), an empty or loading log calls 3 hooks and a log with an event calls 5 (the second finding). |
| EventLog.HooksFirstCallsAll | frontend/src/components/EventLog.jsx:5-45 | Any body whose hooks all come before its early returns calls every one of its hooks on every render, whatever the props. |
| EventLog.HookCountStable | frontend/src/components/EventLog.jsx:5-45 | The corrected body, with both `useMemo` calls above the early returns, calls all five hooks on every render. |
| AvailableSlots.OccupancyPercent | frontend/src/components/AvailableSlots.jsx:5 | The percentage is the occupied share of the total, rounded to the nearest integer by `Math.round`, and 0 when there are no slots. |
| AvailableSlots.Render | frontend/src/components/AvailableSlots.jsx:7-9 | The skeleton is shown exactly while loading. |
| AvailableSlots.SumPermutation | frontend/src/components/AvailableSlots.jsx:2-4 | The per-floor sums do not depend on the order of the floors. |
| AvailableSlots.ConsistentTotals | frontend/src/components/AvailableSlots.jsx:2-5 | For floors that keep `available = total - occupied` (backend/app/models/floor.py lines 31-34), the totals do too, and the percentage lies in 0..100. |
| AvailableSlots.SampleFloors | frontend/src/components/__tests__/AvailableSlots.test.jsx:5-18 | The test's two floors give 90 slots, 40 occupied, 50 available and 44%. |
| FloorStatus.RowOccupancy | frontend/src/components/FloorStatus.jsx:45 | A row's occupancy is 0 without slots, and lies in 0..100 for a consistent floor. |
| FloorStatus.BandThresholds | frontend/src/components/FloorStatus.jsx:46-47 | The colour band is green below 50%, yellow from 50% to below 80%, and red from 80%. |
| FloorStatus.BandMonotone | frontend/src/components/FloorStatus.jsx:46-47 | More occupancy never moves a row from red back to a lower band. |
| FloorStatus.Render | frontend/src/components/FloorStatus.jsx:3-44 | Loading shows a spinner, then an error panel, then the empty state. Otherwise there is one row per floor, in order. |
| FloorStatus.RowDisplayAgrees | frontend/src/components/FloorStatus.jsx:45-55 | The rounded percentage shown agrees with the band: a red row shows at least 80 and a green row at most 50. |
| Security.DropStale | backend/app/core/security.py:31-32 | Pruning removes a prefix of the bucket: requests at least a window old, up to the first one that is not. |
| Security.DropStaleFresh | backend/app/core/security.py:31-32 | For a bucket in time order, every request kept is younger than the window. |
| Security.DecideMeaning | backend/app/core/security.py:34-39 | A request is allowed exactly when fewer than the maximum are in the window. A denial's Retry-After lies in 1..window seconds. A limit of 0 with an empty bucket is the source's crash (indexing an empty list). |
| Security.PruneBucket | backend/app/core/security.py:31-32 | The loop that pops stale timestamps computes `DropStale`. |
| Security.RateLimiter.constructor | backend/app/core/security.py:16-20 | A new limiter has its limits and no buckets. |
| Security.RateLimiter.Check | backend/app/core/security.py:22-39 | The decision is made on the pruned bucket of the key. The bucket is replaced by its pruned form, plus the current time when the request is allowed. Other keys are untouched. |
| Security.SecondCallDenied | backend/app/core/security.py:34-39 | With a limit of one per 60 s, a second immediate request is denied with Retry-After 60. |
| Security.KeysIndependent | backend/app/core/security.py:19-30 | Filling one client's bucket still allows another client. |
| Security.AnyPrefix | backend/app/core/security.py:45-58 | Tells whether the path starts with some prefix of the list. |
| Security.BelowPrefixPublic | backend/app/core/security.py:45-58 | Every path below a public prefix (health, docs, OpenAPI, ReDoc) is public. |
| Security.ProtectedBySecondChar | backend/app/core/security.py:45-58 | A path other than `/` whose second character starts no public prefix is protected. |
| Security.PublicPathExamples | backend/app/core/security.py:45-58 | `/`, `/health`, `/health/ready` and `/docs` are public. `/floors`, `/event`, `/events` and the empty path are not. |
| Security.ClientIsFirstHop | backend/app/core/security.py:61-68 | With a forwarded-for header, the client is its first, stripped hop. |
| Security.ClientWithoutProxy | backend/app/core/security.py:61-68 | Without that header, the client is the peer host, or "unknown". |
| Security.ApiKeySet | backend/app/core/security.py:43 | The configured key set never contains the empty key. |
| Security.RequireApiKey | backend/app/core/security.py:71-81 | A request passes exactly when its path is public or it presents a configured non-empty key. Otherwise it fails with 401 and the fixed detail. |
| Security.DefaultKeyGate | backend/app/core/security.py:71-81 | Under the default settings, a protected path accepts exactly the development key `smartpark-dev-key` (backend/tests/test_api_endpoints.py lines 17-20). |
| FloorModel.AvailableSlots | backend/app/models/floor.py:31-34 | The available slots are `total - current`, clamped at 0. |
| FloorModel.OccupancyPercentage | backend/app/models/floor.py:36-41 | The occupancy is 0 for a floor without slots, and otherwise exactly `current / total * 100`. |
| FloorModel.ConstrainedFloor | backend/app/models/floor.py:13-41 | On a row that meets the table's check constraints, no clamping happens, and the occupancy lies in 0..100. |
| FloorModel.OccupancyMonotone | backend/app/models/floor.py:36-41 | More vehicles never mean a lower occupancy. |
| EventModel.VehicleTypeRoundTrip | backend/app/models/event.py:11-16 | Each vehicle type's value parses back to that type, and every string that parses is that type's value. |
| EventModel.DirectionRoundTrip | backend/app/models/event.py:18-20 | The same holds for entry and exit. |
| EventModel.AllVehicleTypesComplete | backend/app/models/event.py:11-16 | The list of vehicle types contains every type exactly once, as the statistics' iteration over the enum needs. |
| DatabaseOps.FindFloor | backend/app/core/database_ops.py:66-70 | Finds the first floor with the id, or reports that there is none. |
| DatabaseOps.RecommendedFloor | backend/app/core/database_ops.py:48-63 | The recommended floor is an active floor with the most free slots. There is none only when no floor is active. |
| DatabaseOps.CountStep | backend/app/core/database_ops.py:76-88 | A count step changes only the vehicle count of the floor. |
| DatabaseOps.CountStepMeaning | backend/app/core/database_ops.py:66-91 | An entry adds one exactly when the floor is not full, and an exit removes one exactly when it is not empty. Otherwise the floor is unchanged, and the check constraints are kept. |
| DatabaseOps.CountStepInverse | backend/app/core/database_ops.py:76-88 | An entry followed by an exit, or the other way round, restores the floor. |
| DatabaseOps.WindowMicros | backend/app/core/database_ops.py:142 | The dedupe window in microseconds is never negative. |
| DatabaseOps.Latest | backend/app/core/database_ops.py:156 | Picks one event with the latest timestamp, or nothing from an empty list. |
| DatabaseOps.LatestDuplicate | backend/app/core/database_ops.py:142-156 | Finds the latest event with the same camera, track, floor and direction inside `±window` of the timestamp. There is none exactly when no event matches. |
| DatabaseOps.NewestFirst | backend/app/core/database_ops.py:312 | Ordering by timestamp, newest first, is a permutation of the events. |
| DatabaseOps.NewestFirstSorted | backend/app/core/database_ops.py:312 | That ordering is newest first. |
| DatabaseOps.FilteredEvents | backend/app/core/database_ops.py:276-314 | The total counts the events in the time range, the filtered count the matching ones. The page is the window `[offset, offset+limit)` of the matches, newest first, and holds `min(limit, filtered - offset)` events. |
| DatabaseOps.FilteredPageMeaning | backend/app/core/database_ops.py:290-314 | Every event on a page is stored, lies in the time range and matches every given filter, and the page is newest first. |
| DatabaseOps.CountOfType | backend/app/core/database_ops.py:337-340 | Counts the events of one vehicle type. |
| DatabaseOps.CountOnFloor | backend/app/core/database_ops.py:342-346 | Counts the events of one floor. |
| DatabaseOps.ByFloor | backend/app/core/database_ops.py:342-346 | The per-floor statistics have one entry for each floor name. |
| DatabaseOps.ByFloorCounts | backend/app/core/database_ops.py:342-346 | A floor name's entry is the number of events on the last floor of that name, as the loop's later writes overwrite earlier ones. |
| DatabaseOps.ByFloorUniqueNames | backend/app/core/database_ops.py:342-346 | Under the unique-name constraint (backend/app/models/floor.py line 12) every floor's name maps to the number of its own events. |
| DatabaseOps.EntriesPlusExits | backend/app/core/database_ops.py:329-332 | Entries plus exits are all the events. |
| DatabaseOps.TypesPartition | backend/app/core/database_ops.py:337-340 | The four vehicle-type counts add up to all the events. |
| DatabaseOps.StatisticsConsistent | backend/app/core/database_ops.py:319-348 | In the statistics, entries plus exits and the sum over vehicle types both equal the total. |
| DatabaseOps.KeptPlusDeleted | backend/app/core/database_ops.py:358-367 | The rows kept plus the rows deleted are all the rows. |
| DatabaseOps.CleanupKeepsValid | backend/app/core/database_ops.py:358-367 | Deleting old events keeps the database invariant: constrained floors, unique idempotency keys and ids, and known floors. |
| DatabaseOps.StepKeepsValid | backend/app/core/database_ops.py:76-91 | Applying a count step to a floor keeps the database invariant. |
| DatabaseOps.InsertKeepsValid | backend/app/core/database_ops.py:188-206 | Inserting an event with a fresh id and a fresh idempotency key on a known floor keeps the invariant. |
| DatabaseOps.ParkingDb.constructor | backend/app/core/database_ops.py:21-25 | A database over a valid floor table starts with no events. |
| DatabaseOps.ParkingDb.ActiveFloors | backend/app/core/database_ops.py:21-25 | The active floors are exactly the floors marked active. |
| DatabaseOps.ParkingDb.UpdateVehicleCount | backend/app/core/database_ops.py:66-91 | An unknown floor changes nothing. Otherwise exactly that floor takes one count step, and the updated floor is returned. |
| DatabaseOps.ParkingDb.RecordEvent | backend/app/core/database_ops.py:113-206 | In order: an unknown floor is a not-found error, and a duplicate in the window returns the existing event and floor, marked duplicate. A full entry or empty exit is a guard error. A clashing idempotency key is an integrity error. Otherwise the event is appended with the next id and the floor takes one step. Every error and every duplicate changes nothing. |
| DatabaseOps.ParkingDb.CleanupOldEvents | backend/app/core/database_ops.py:354-367 | Deletes exactly the events older than the cutoff, returns how many, and keeps the floors. |
| DatabaseOps.RecordedIsDuplicate | backend/app/core/database_ops.py:142-164 | An event just recorded is the latest duplicate of itself. |
| DatabaseOps.RecordTwice | backend/app/core/database_ops.py:142-164 | Recording the same crossing twice stores it once. The second call reports the first event as a duplicate (backend/tests/test_database_ops_integration.py lines 51-81). |
| ApiMonitoring.BoundedAppend | backend/app/core/monitoring.py:24-32 | Appending to the bounded history keeps its last `min(size+1, max)` records, ending with the new one. |
| ApiMonitoring.AppendAllKeepsRecent | backend/app/core/monitoring.py:21-32 | After any run of requests, the history is exactly the latest `max` records. |
| ApiMonitoring.Bump | backend/app/core/monitoring.py:40-41 | A counter increments one key, starting from 0, and keeps the others. |
| ApiMonitoring.ErrorClassMeaning | backend/app/core/monitoring.py:42-45 | A status of 500 or more is counted as 5xx, 400-499 as 4xx, and lower statuses are not errors. |
| ApiMonitoring.TakeSnapshot | backend/app/core/monitoring.py:47-58 | The error rate is the 5xx share of the history and lies in 0..1. The average latency is the mean duration. Both are 0 for an empty history. |
| ApiMonitoring.AverageLatencyNonNegative | backend/app/core/monitoring.py:53-57 | Non-negative durations give a non-negative average latency. |
| ApiMonitoring.NamedFloors | backend/app/core/monitoring.py:100 | The alert names at most the first five low floors, in order. |
| ApiMonitoring.EvaluateAlertsMeaning | backend/app/core/monitoring.py:71-111 | The error-rate, latency and low-availability alerts are each raised exactly when their threshold is reached. They come in that order, and only the error-rate alert is high severity. |
| ApiMonitoring.MonitoringState.constructor | backend/app/core/monitoring.py:20-28 | The history size is at least the minimum, and all counters start empty. |
| ApiMonitoring.MonitoringState.RecordRequest | backend/app/core/monitoring.py:30-45 | A request is appended to the bounded history and bumps its route and status counters. It bumps its error class only when it has one. |
| ApiMonitoring.MonitoringState.Snapshot | backend/app/core/monitoring.py:47-69 | The snapshot reports the history window and the number of recent requests. |
| BackendApi.OrWildcard | backend/main.py:108-111 | An empty origin list becomes the wildcard, and any other list is kept. |
| BackendApi.CorsAsWritten | backend/main.py:83-111 | As written: the origins fall back to `*` when none are configured, but credentials are allowed unless the raw parse is exactly `["*"]`. |
| BackendApi.CorsAsWrittenEmptyOrigins | backend/main.py:83-109 | As written, an empty origin setting allows every origin and credentials together (the third finding). |
| BackendApi.Cors | backend/main.py:83-111 | Corrected: credentials are allowed exactly when the effective origin list has no wildcard. |
| BackendApi.CorsAgreesOnListedOrigins | backend/main.py:83-111 | The corrected policy never pairs credentials with `*`. It equals the code as written whenever origins are configured and either `*` alone or no `*`. |
| BackendApi.DefaultCors | backend/app/core/config.py:15-17 | The default settings give `*` without credentials, as written and corrected. |
| BackendApi.GateOrder | backend/main.py:124-154 | OPTIONS skips every check. A protected path without a valid key is refused with 401. Only requests with a valid key on a protected path are rate-limited. Public paths are neither. |
| BackendApi.RespondMeaning | backend/main.py:124-158 | A 429 with Retry-After is returned exactly for a denied rate-limited request. A 401 carries the authentication error body. Every other request is forwarded and gets the handler's status, or raises. |
| BackendApi.HandleRequest | backend/main.py:115-166 | The middleware updates the limiter (its buckets and its clock) only for rate-limited requests. It records every request in monitoring exactly once, with its final status, which is 500 when the handler raises: one history entry, one route count, one status count, and one 4xx/5xx count when that status is an error. |
| BackendApi.RecordErrorStatus | backend/main.py:425-433 | An integrity error becomes 500. A value error becomes 409 exactly when its message mentions "full" or "empty", and 400 otherwise, keeping the message as detail. |
| BackendApi.GuardErrorsConflict | backend/main.py:427-430 | The "floor full" and "floor empty" guard messages of the database (backend/app/core/database_ops.py lines 167-186) become 409. |
| BackendApi.NotFoundIsBadRequest | backend/main.py:427-430 | The database's "floor not found" message (backend/app/core/database_ops.py lines 138-140) becomes 400: it contains neither "full" nor "empty". |
| BackendApi.RecordEventResponse | backend/main.py:392-423 | A recorded outcome gives a success response with the event id, the floor, its count, free slots and occupancy, and with a message that tells duplicates apart. An error gives its HTTP status. |
| BackendApi.RecordedMessagesDiffer | backend/main.py:411-417 | The duplicate message differs from both recorded messages (backend/tests/test_api_endpoints.py lines 68-85). |
| BackendApi.RecordEventEndpoint | backend/main.py:384-433 | Without a database the endpoint answers 503. Otherwise the database outcome follows the recording rules on the old tables, at time `now` with the default window: unknown floor, then the latest duplicate, then a full or empty floor, then an id clash, else the insert. The response is that outcome's mapping (success body, or 400/409/500). Errors and duplicates leave both tables unchanged, and a new event is appended while its floor takes one count step. |
| BackendApi.GetFloors | backend/main.py:443-469 | With no active floor the endpoint answers 404. Otherwise it lists exactly the active floors in order; total capacity, total vehicles and total available slots are the sums of `total_slots`, `current_vehicles` and `available_slots` over those floors; and the average occupancy is total vehicles over total capacity, times 100, or 0 without capacity. |
| BackendApi.Summary | backend/main.py:453-457 | The summary counts the listed floors, its three totals are the sums of capacity, vehicles and available slots over them, and the average occupancy is derived from the capacity and vehicle totals. |
| BackendApi.SummaryConsistent | backend/main.py:453-457 | For constrained floors (backend/app/models/floor.py lines 13-15), available equals capacity minus vehicles, and the average lies in 0..100. |
| BackendApi.GetFloorsConsistent | backend/main.py:443-469 | On a valid floor table the totals of the floor list are consistent in the same way. |
| BackendApi.ReasonBands | backend/main.py:523-531 | The recommendation reason is chosen by occupancy bands below 30, 50 and 70 percent, and "best available" from 70. |
| BackendApi.InsertByOccupancy | backend/main.py:520 | Inserting into the occupancy order adds exactly that floor. |
| BackendApi.SortByOccupancy | backend/main.py:520 | Sorting by occupancy is a permutation. |
| BackendApi.SortByOccupancyOrdered | backend/main.py:520 | The sort orders the floors by occupancy, lowest first. |
| BackendApi.Recommend | backend/main.py:502-540 | Without an active floor the endpoint answers 404. Otherwise it recommends the database's floor with the most free slots, gives the reason for its occupancy, and lists at most three alternatives. |
| BackendApi.OtherFloorsMembers | backend/main.py:520-521 | The candidate alternatives are exactly the other active floors. |
| BackendApi.AlternativesMeaning | backend/main.py:517-521 | The alternatives are other active floors in occupancy order. A floor left out means all three places are taken by floors no more occupied than it. |
| BackendApi.LowAvailabilityFloors | backend/main.py:329-337 | Reports the floors at or below the threshold of free slots. |
| BackendApi.LowAvailabilityAlert | backend/main.py:326-346 | The low-availability alert is raised exactly when some active floor has at most the threshold of free slots. |
| BackendApi.LastIndexOf | backend/main.py:368 | Finds the last position of the character, or -1. |
| BackendApi.Suffix | backend/main.py:368 | The file suffix is the last dot-part of the name (not a leading dot), or empty when there is none. |
| BackendApi.MediaTypeMeaning | backend/main.py:368 | The media type is JPEG exactly for a `.jpg` or `.jpeg` suffix in any case, and PNG otherwise. |
| BackendApi.Newest | backend/main.py:359-367 | Picks the first frame file with the greatest modification time. |
| BackendApi.LatestFrame | backend/main.py:349-369 | A missing directory answers 404 "Frame directory not found", and an empty one 404 "No camera frame available yet". Otherwise the answer is always a success: a file with the greatest modification time, the first such file in listing order (the stable descending sort), with the media type of its suffix. |
| BackendApi.LatestFrameErrorsReadable | backend/main.py:355-365 | Both 404 details of the frame endpoint are recognised by the camera feed (frontend/src/components/CameraFeed.jsx lines 16-23). |
| BackendConfig.StripAll | backend/app/core/config.py:35 | Strips each item of the list, in order. |
| BackendConfig.ParseCsv | backend/app/core/config.py:34-35 | Every parsed item is non-empty, stripped and free of commas. |
| BackendConfig.ParseCsvKeepsOrder | backend/app/core/config.py:35 | The parsed items keep the order of the comma-separated text. |
| BackendConfig.ParseCsvKeepsEveryItem | backend/app/core/config.py:35 | Every non-blank piece of the text appears among the items. |
| BackendConfig.ParseCsvEmpty | backend/app/core/config.py:35 | An empty setting parses to no items. |
| BackendConfig.ParseCsvJoin | backend/app/core/config.py:35 | Joining well-formed items with commas and parsing the result gives them back. |
| BackendConfig.ParseCsvRoundTrip | backend/app/core/config.py:35 | Parsing is idempotent through a join. |
| BackendConfig.ParseCsvBlank | backend/app/core/config.py:35 | A setting of blanks and commas parses to no items. |
| Schemas.ValidateCreateRequest | backend/app/schemas/__init__.py:25-32 | A refusal names at least one invalid field. |
| Schemas.ValidateCreateRequestMeaning | backend/app/schemas/__init__.py:25-32 | A create request is accepted exactly when the camera id has 1-50 characters, the floor id is positive, the track id has 1-100 characters, the type and direction are valid values, and the confidence, 0.95 by default, lies in 0..1. The accepted request carries those values. |
| Schemas.ValidateQuery | backend/app/schemas/__init__.py:47-54 | A refused query names at least one invalid parameter. |
| Schemas.ValidateQueryMeaning | backend/app/schemas/__init__.py:47-54 | A query is accepted exactly when hours lies in 1..8760, limit in 1..1000, offset is at least 0, and the type and direction are valid. Missing parameters take their defaults. |
| Schemas.ZeroHoursRefused | backend/app/schemas/__init__.py:52 | `hours=0` is refused, as the endpoint test expects (backend/tests/test_api_endpoints.py lines 54-56). |
| Schemas.DefaultQuery | backend/app/schemas/__init__.py:52-54 | A query without parameters means the last 24 hours, 100 results and offset 0. |
| Schemas.MakeErrorResponse | backend/app/schemas/__init__.py:226-231 | An error body is unsuccessful and carries its error, detail and status. |
| Seed.SeedFloorTableValid | backend/app/core/seed.py:23-48 | The four seed floors form a valid table. The first three are active, and all start empty. |
| Seed.SampleEvents | backend/app/core/seed.py:87-98 | There are fifteen sample events. |
| Seed.SampleTracksDistinct | backend/app/core/seed.py:94 | Sample track ids are distinct. |
| Seed.SampleDirections | backend/app/core/seed.py:96 | The samples alternate entry and exit: eight entries and seven exits. |
| Seed.SampleEventsMeaning | backend/app/core/seed.py:84-98 | The samples have distinct tracks, strictly increasing timestamps and ids, and confidences in range. Exactly the last two lie after the seeding time. |
| Seed.SampleEventsValid | backend/app/core/seed.py:87-98 | The samples form a valid event table on known floors, with ids below the next free one. |
| Seed.RebuiltCount | backend/app/core/seed.py:108-113 | The rebuilt count is entries minus exits on the floor, clamped to 0..total. |
| Seed.Rebuilt | backend/app/core/seed.py:107-114 | Rebuilding keeps one row per floor. |
| Seed.RebuiltValid | backend/app/core/seed.py:107-114 | Rebuilding the counts keeps the floor table valid and changes only the vehicle counts. |
| Seed.SeedFloors | backend/app/core/seed.py:12-56 | Seeding does nothing when floors exist, and installs the four seed floors otherwise. |
| Seed.SeedSampleEvents | backend/app/core/seed.py:66-116 | Sample events are added only when there are no events and some active floor. The counts are then rebuilt from them. |
| Seed.BuildSample | backend/app/core/seed.py:87-102 | The loop builds exactly the sample events. |
| Seed.RebuildCounts | backend/app/core/seed.py:107-114 | The loop computes the rebuilt floor table. |
| Seed.SeedKeepsValid | backend/app/core/seed.py:87-114 | The seeded database satisfies the database invariant. |
| VisionEventHandler.MakeConfig | vision/app/services/event_handler.py:14-41 | The windows are clamped (cooldown, occlusion and reversal to at least 1, distance to at least 0). An empty direction mapping falls back to the default, and a given line is used. |
| VisionEventHandler.CheckLineCrossing | vision/app/services/event_handler.py:133-160 | A crossing happens exactly when the two positions lie strictly on opposite sides of the line. It is reported at the truncated midpoint, with the sign of the new side. |
| VisionEventHandler.CrossingSymmetric | vision/app/services/event_handler.py:141-158 | A point on the line never crosses. Reversing the motion crosses exactly as often, with the opposite sign. |
| VisionEventHandler.LineEndsOnLine | vision/app/services/event_handler.py:141-144 | Both ends of the line lie on it. |
| VisionEventHandler.MapDirection | vision/app/services/event_handler.py:162-177 | The direction is the mapping of the primary motion, then the mapping of the crossing sign, then "entry". It is never empty. |
| VisionEventHandler.DefaultMappingHorizontal | vision/app/services/event_handler.py:30-37 | For a mostly horizontal line under the default mapping, moving down is an exit and moving up or sideways is an entry. |
| VisionEventHandler.Decide | vision/app/services/event_handler.py:86-121 | An event is detected exactly when a previous position exists within the occlusion window, the object moved far enough, it crossed the line, no reversal is suppressed and the cooldown has passed. The event carries the mapped direction and the crossing point. |
| VisionEventHandler.SuppressionWindows | vision/app/services/event_handler.py:179-210 | No event falls inside the cooldown. No opposite direction falls inside the reversal window. No event follows a gap longer than the occlusion window. |
| VisionEventHandler.StepObject | vision/app/services/event_handler.py:60-82 | A small or centroid-less object changes nothing. Any other object updates its track position, and a detected crossing becomes an event with the object's and camera's fields. |
| VisionEventHandler.ProcessObjects | vision/app/services/event_handler.py:50-84 | A frame yields at most one event per object. |
| VisionEventHandler.ProcessObjectsEvents | vision/app/services/event_handler.py:60-84 | Every event of a frame was reported by one of its qualifying objects, in that frame. |
| VisionEventHandler.SkippedObjectsChangeNothing | vision/app/services/event_handler.py:61-69 | A frame of objects that all fail the size or centroid check changes nothing and yields nothing. |
| VisionEventHandler.ClearStale | vision/app/services/event_handler.py:212-222 | Removes exactly the tracks last seen more than the maximum age ago, together with their crossing records, and keeps the rest unchanged. |
| VisionEventHandler.ClearStaleIdempotent | vision/app/services/event_handler.py:212-222 | Clearing twice is the same as clearing once. |
| VisionEventHandler.SingleEventPerCrossing | vision/tests/test_event_handler_accuracy.py:39-55 | Jitter around the line after one crossing produces no second event within the cooldown. |
| VisionEventHandler.EventHandler.constructor | vision/app/services/event_handler.py:43-44 | A new handler has its configuration and no track state. |
| VisionEventHandler.EventHandler.DetectLineCrossing | vision/app/services/event_handler.py:86-131 | The decision is `Decide` on the track's previous state. The position is always recorded, and the crossing only when detected. |
| VisionEventHandler.EventHandler.ProcessFrame | vision/app/services/event_handler.py:50-84 | The per-object loop computes `ProcessObjects` on the handler state. |
| VisionEventHandler.EventHandler.ClearOldTracks | vision/app/services/event_handler.py:212-222 | The state becomes `ClearStale` of the old state. |
| VisionTracker.FirstOfClass | vision/app/services/tracker.py:103-106 | Finds the first raw detection of the class, or -1 when there is none. |
| VisionTracker.ClassNameMeaning | vision/app/services/tracker.py:103-106 | A tracked object is named after the first detection of its class, or "unknown". |
| VisionTracker.CentroidInsideBox | vision/app/services/tracker.py:117-133 | A tracked object's centroid lies inside its box, and the width and height are non-negative. |
| VisionTracker.ToTrackedObjects | vision/app/services/tracker.py:87-137 | Without tracker rows there are no objects. Otherwise the loop gives one object per row, each built from its row. |
| VisionTracker.FallbackIdsDistinct | vision/app/services/tracker.py:112-115 | The fallback track ids of one frame are distinct. |
| VisionTracker.ToHandlerInput | vision/app/services/tracker.py:117-133 | The event handler receives the track id, the centroid and the box size. |
| VisionTracker.PyTail | vision/app/services/tracker.py:154-155 | Python's `h[-n:]`: for positive n, the last n items; for 0, the whole list. |
| VisionTracker.TrimHistory | vision/app/services/tracker.py:154-155 | The history keeps its last `buffer` points, or all of them for a buffer of 0. |
| VisionTracker.ZeroBufferKeepsAll | vision/app/services/tracker.py:154-155 | A buffer of 0 never trims, because `h[-0:]` is the whole list. |
| VisionTracker.See | vision/app/services/tracker.py:147-163 | A sighting refreshes a known track (position, frame, hit plus one, misses reset, history trimmed) or starts a new one. Other tracks are unchanged. |
| VisionTracker.Age | vision/app/services/tracker.py:165-174 | Unseen tracks gain a miss and are dropped past the buffer. Seen tracks are unchanged. |
| VisionTracker.UpdateTracksValid | vision/app/services/tracker.py:139-174 | An update keeps every track well formed. |
| VisionTracker.UpdateTracksKeepsSeen | vision/app/services/tracker.py:147-168 | Every object of the frame has a track, with no misses and this frame as its last sighting. |
| VisionTracker.UpdateTracksAgesUnseen | vision/app/services/tracker.py:165-174 | An unseen track survives exactly while its misses stay within the buffer, with one more miss. |
| VisionTracker.HitSumAtLeastCount | vision/app/services/tracker.py:193-198 | The total hit count is at least the number of active tracks. |
| VisionTracker.VehicleTracker.constructor | vision/app/services/tracker.py:28-32 | A new tracker has its buffer and no tracks. |
| VisionTracker.VehicleTracker.UpdateTrackState | vision/app/services/tracker.py:139-174 | The sighting, miss and eviction loops compute `UpdateTracks`. |
| VisionTracker.VehicleTracker.MissUnseen | vision/app/services/tracker.py:165-172 | The loop adds a miss to each unseen track and collects those past the buffer. |
| VisionTracker.VehicleTracker.Evict | vision/app/services/tracker.py:173-174 | Removes exactly the stale tracks. |
| VisionTracker.VehicleTracker.Update | vision/app/services/tracker.py:176-188 | No tracker result gives no objects; otherwise object `idx` is tracker row `idx` merged with the raw detections (id, class name from the first raw detection of its class, truncated box and centroid), and the track state is updated with exactly those objects. |
| VisionTracker.VehicleTracker.TrackingMetrics | vision/app/services/tracker.py:193-198 | Reports the number of active tracks and their total hits, which are at least that number. |
| VisionTracker.VehicleTracker.Reset | vision/app/services/tracker.py:200-205 | Resetting drops every track. |
| VisionDetector.ClassNameById | vision/app/services/detector.py:15-20 | Exactly the COCO ids 2, 3, 5 and 7 have vehicle names. |
| VisionDetector.TargetClasses | vision/app/services/detector.py:39 | The target class names are lower-cased. |
| VisionDetector.MakeDetector | vision/app/services/detector.py:22-43 | The detector targets the configured classes, or all four vehicle classes by default. |
| VisionDetector.DefaultTargetsAllVehicles | vision/app/services/detector.py:15-39 | By default every vehicle class the model can name is a target. |
| VisionDetector.Preprocess | vision/app/services/detector.py:63-71 | A missing frame and a frame that is not three-dimensional are refused. A dark frame is replaced by its enhanced version when enhancement is on. |
| VisionDetector.EffectiveThresholdBounds | vision/app/services/detector.py:138-145 | Bright frames use the configured threshold. Dark frames use the factor-scaled threshold, but never below the low-light minimum, and never above the configured threshold. |
| VisionDetector.LowLightDefaults | vision/app/services/detector.py:138-145 | With the defaults, a dark frame's threshold is 0.4 and a bright frame's is 0.5 (vision/tests/test_detector_low_light_handling.py lines 8-35). |
| VisionDetector.KeptMeaning | vision/app/services/detector.py:92-121 | A kept detection has a vehicle class among the targets and a confidence at or above the threshold. Every box that passes is kept. |
| VisionDetector.KeptAppend | vision/app/services/detector.py:92-121 | Filtering boxes distributes over concatenation, so the order is kept. |
| VisionDetector.CentroidInBox | vision/app/services/detector.py:102-121 | A detection's centroid lies in its box. |
| VisionDetector.Postprocess | vision/app/services/detector.py:85-123 | Without results there are no detections. Otherwise the loop computes the filtered detections at the threshold in force. |
| VisionDetector.KeptCountsPassing | vision/app/services/detector.py:92-100 | A prefix of passing boxes is kept whole, and a failing last box is dropped. |
| VisionDetector.AllPassKept | vision/app/services/detector.py:92-100 | When every box passes, all of them are kept. |
| VisionDetector.SyntheticAccuracy | vision/tests/test_detector_postprocess_accuracy.py:20-64 | The test's synthetic batch keeps nine detections at threshold 0.5. |
| VisionDetector.OnlyConfiguredClasses | vision/tests/test_detector_postprocess_accuracy.py:20-64 | Targeting only cars drops the motorcycle. |
| VisionDetector.Detect | vision/app/services/detector.py:125-136 | A refused frame or a missing inference result gives no detections. Otherwise the inference output is filtered at the threshold for the frame's brightness. |
| VisionApiClient.NormalizeMeaning | vision/app/services/api_client.py:43-54 | Missing fields take their defaults: floor 0, empty track, "car", "entry", 0.8. Normalising an already normalised payload is the identity. |
| VisionApiClient.CrossingPayload | vision/app/services/api_client.py:43-54 | A crossing event from the handler (vision/app/services/event_handler.py lines 73-81) is posted with its own camera, floor, track, type, direction and confidence. |
| VisionApiClient.FirstAccepted | vision/app/services/api_client.py:99-110 | Finds the first attempt that the backend accepts (200 or 201), if any. |
| VisionApiClient.SubmitMeaning | vision/app/services/api_client.py:99-127 | A submission tries at most the configured number of times and sleeps between tries. It is delivered exactly when some attempt is accepted, and then the last try was the accepted one. |
| VisionApiClient.DeliveredMonotone | vision/app/services/api_client.py:99-110 | More attempts never lose a delivery. |
| VisionApiClient.Undelivered | vision/app/services/api_client.py:149-153 | The events kept back are among those flushed, and none of them was delivered. |
| VisionApiClient.DeliveredPlusUndelivered | vision/app/services/api_client.py:144-155 | Delivered plus kept back are all the flushed events. |
| VisionApiClient.FlushMeaning | vision/app/services/api_client.py:135-161 | A flush handles at most the batch size. The queue then holds the undelivered batch events followed by the untouched rest, and shrinks by exactly the number delivered. |
| VisionApiClient.LastSlash | vision/app/services/api_client.py:166-167 | Finds the last slash of the URL, or -1. |
| VisionApiClient.HealthUrlMeaning | vision/app/services/api_client.py:166-167 | The health URL replaces the last path segment of the event URL with `health`, or appends `/health` when there is no slash. |
| VisionApiClient.EventHealthUrl | vision/app/services/api_client.py:166-167 | The default event URL's health URL is `http://localhost:8000/health` (vision/app/core/config.py lines 15-16). |
| VisionApiClient.LoadQueue | vision/app/services/api_client.py:65-79 | A missing queue file loads nothing. Otherwise a payload is loaded exactly when some line parses to it; order and repeats are given by the lemmas below. |
| VisionApiClient.Parsed | vision/app/services/api_client.py:65-79 | A payload is kept exactly when some line parses to it. |
| VisionApiClient.ParsedAppend | vision/app/services/api_client.py:70-78 | The lines are read in file order: parsing a concatenation gives the concatenation of the parses. |
| VisionApiClient.ParsedLine | vision/app/services/api_client.py:70-78 | Each further line appends its payload once when it parses, and nothing when it is blank or malformed. |
| VisionApiClient.RewriteThenLoad | vision/app/services/api_client.py:60-79 | Writing the queue file (one JSON line per payload) and loading it back returns the same queue, in order and with repeats. |
| VisionApiClient.PostWithRetries | vision/app/services/api_client.py:97-123 | The retry loop reports delivery exactly as `Delivered`, with one delay per failed try that is followed by another. |
| VisionApiClient.BackendClient.constructor | vision/app/services/api_client.py:17-41 | A new client is online, with the queue loaded from its file, and has logged and slept nothing. |
| VisionApiClient.BackendClient.QueueSize | vision/app/services/api_client.py:81-82 | Reports the queue length. |
| VisionApiClient.BackendClient.SubmitEvent | vision/app/services/api_client.py:97-127 | Online status follows the outcome. A failure is queued when queueing is asked for, and the sleeps are recorded. |
| VisionApiClient.BackendClient.ProcessEvent | vision/app/services/api_client.py:129-133 | Every event is logged locally first. Its normalised payload is then submitted and queued on failure. |
| VisionApiClient.BackendClient.FlushQueuedEvents | vision/app/services/api_client.py:135-161 | The batch is retried in order. Delivered events leave the queue, undelivered ones stay ahead of the rest, and the counts and sleeps are reported. |
| VisionApiClient.BackendClient.TryEach | vision/app/services/api_client.py:144-153 | The flush loop computes the delivered count and the undelivered list. |
| VisionApiClient.BackendClient.HealthCheck | vision/app/services/api_client.py:163-179 | The probe is a GET of the health URL derived from the client's API URL. The backend is healthy exactly on a 200 reply, and online status follows. |
| VisionApiClient.OfflineTwoTries | vision/tests/test_api_client_reliability.py:9-74 | With the backend down, two attempts fail after one sleep. |
| VisionApiClient.RecoveredFlush | vision/tests/test_api_client_reliability.py:9-74 | Once the backend is back, a flush delivers the queued event and empties the queue. |
| VisionVideoSource.InferSourceType | vision/app/services/video_source.py:55-60 | A source is a stream exactly when it starts with `rtsp://` in any case. Anything else is a file. |
| VisionVideoSource.InferSourceTypeCaseInsensitive | vision/app/services/video_source.py:57-58 | The inference ignores case. |
| VisionVideoSource.SleepFor | vision/app/services/video_source.py:32-43 | The regulator sleeps only after a first tick, and only for the positive remainder of the frame interval. |
| VisionVideoSource.SleepWithinInterval | vision/app/services/video_source.py:38-41 | A sleep never exceeds the frame interval. |
| VisionVideoSource.TenFpsHalfInterval | vision/tests/test_monitoring_and_performance.py:34-45 | At 10 fps, a tick 50 ms after the last one sleeps 50 ms, and the first tick does not sleep. |
| VisionVideoSource.FrameRateRegulator.constructor | vision/app/services/video_source.py:27-30 | The fps is at least 1, and the interval is its inverse. |
| VisionVideoSource.FrameRateRegulator.Tick | vision/app/services/video_source.py:32-43 | A tick records the needed sleep and moves the last tick to after the sleep. |
| VisionVideoSource.VideoSource.constructor | vision/app/services/video_source.py:49-53 | A new source holds its configuration and no capture. |
| VisionVideoSource.VideoSource.Open | vision/app/services/video_source.py:62-91 | Opening an open source succeeds. A missing file fails. Otherwise a capture is created with the requested size, and it is open exactly when it opens. |
| VisionVideoSource.VideoSource.Close | vision/app/services/video_source.py:93-97 | Closing releases the capture. |
| VisionVideoSource.VideoSource.ReadFrame | vision/app/services/video_source.py:99-116 | A read succeeds exactly when a frame is returned. A failed stream read sleeps the reconnect delay, reopens and reads once more. A failed file read stays failed. |
| VisionMonitoring.CameraStatus.constructor | vision/app/services/monitoring.py:13-19 | A camera starts "initializing" with no frame and no failures. |
| VisionMonitoring.AddLatencyMeaning | vision/app/services/monitoring.py:45-47 | Only known stages accumulate. The stage's sum grows by a positive latency, and others stay unchanged. |
| VisionMonitoring.AverageLatencyMeaning | vision/app/services/monitoring.py:52-55 | Each stage's average is its sum over the frame count, or 0 before any frame. It is non-negative for non-negative sums. |
| VisionMonitoring.PerformanceMonitor.constructor | vision/app/services/monitoring.py:22-38 | The totals and stage sums start at zero, and there is no dashboard yet. |
| VisionMonitoring.PerformanceMonitor.RecordStageLatency | vision/app/services/monitoring.py:45-47 | Adds the latency to its stage. |
| VisionMonitoring.PerformanceMonitor.WriteDashboard | vision/app/services/monitoring.py:49-74 | The dashboard holds the time, an uptime of at least the minimum and fps equal to frames over uptime. It also holds the camera snapshot, backend and queue status, the totals and the average stage latencies. |
| VisionMonitoring.FourStagesRecorded | vision/app/services/monitoring.py:36-47 | Latencies of the four pipeline stages accumulate, and an unknown stage is ignored. |
| VisionConfig.DefaultUrls | vision/app/core/config.py:90-93 | The default event URL is `http://localhost:8000/event`, and its health URL is `/health`. |
| VisionConfig.LowerAll | vision/app/core/config.py:95-98 | Lower-cases every item, in order. |
| VisionConfig.TargetClassNamesMeaning | vision/app/core/config.py:98 | Every configured class name is non-empty, stripped, lower-case and free of commas, and the names keep the order of the setting. |
| VisionConfig.TargetClassNamesJoin | vision/app/core/config.py:98 | Joining well-formed names with commas and parsing them back gives the names. |
| VisionConfig.DefaultTargetClassNames | vision/app/core/config.py:31 | The default classes are car, motorcycle, bus and truck. |
| VisionConfig.DefaultSettingsDetector | vision/app/core/config.py:28-31 | The default settings build the default detector (vision/main.py lines 57-67). |
| VisionConfig.DefaultNamesAreDefaultTargets | vision/app/services/detector.py:39 | Naming the four default classes is the same as naming none. |
| VisionMain.CamerasByIdKeys | vision/main.py:40 | A camera id is configured exactly when some entry has it. |
| VisionMain.LastEntryWins | vision/main.py:40 | With duplicate ids, the last entry wins. |
| VisionMain.LoadCameraConfigMeaning | vision/main.py:34-43 | A missing camera file gives no cameras. Otherwise the cameras are keyed by id, and the last entry wins. |
| VisionMain.DuplicateCameraLastWins | vision/main.py:40 | Two entries with one id keep the second. |
| VisionMain.CameraFor | vision/main.py:161-162 | Looks up the selected camera's entry, if any. |
| VisionMain.HandlerConfigOverrides | vision/main.py:79-101 | A camera entry's line, id, floor and non-empty mapping override the settings, and an empty mapping falls back to the handler's default. |
| VisionMain.DefaultHandlerConfig | vision/main.py:79-101 | With the default settings and no camera entry, the handler uses the default line, `cam_001`, floor 1 and the default windows. |
| VisionMain.VideoSourceConfigFor | vision/main.py:129-151 | A camera entry's source and type override the settings. An empty type is inferred from the source, and the size, fps and reconnect delay come from the settings. |
| VisionMain.UntypedStreamIsRtsp | vision/main.py:138-139 | An `rtsp://` entry without a type is a stream. |
| VisionMain.DueFramesMembers | vision/main.py:250-293 | A periodic task runs on frame f exactly when f is counted and a multiple of its interval, where intervals below 1 count as 1. |
| VisionMain.DueFramesIncreasing | vision/main.py:250-293 | The frames a task runs on are increasing. |
| VisionMain.DueFramesCount | vision/main.py:250-293 | Over n frames a task runs `n / interval` times. |
| VisionMain.EveryFrameBelowOne | vision/main.py:250 | An interval below one makes a periodic job run on every frame. |
| VisionMain.DefaultSchedule | vision/main.py:250-263 | With the defaults, 120 frames flush the queue four times and check the backend twice. |
| VisionMain.StaleTrackAge | vision/main.py:227-230 | Tracks are forgotten after twice the tracker buffer, and never before 120 frames. |
| VisionMain.Successes | vision/main.py:215 | Counts the reads that returned a frame. |
| VisionMain.FailuresCountTrailingRun | vision/main.py:203-213 | The failure count is the length of the trailing run of failed reads. |
| VisionMain.OfflineOnFifthFailure | vision/main.py:204-205 | A camera is degraded for four failed reads in a row, offline on the fifth, and running again after a frame. |
| VisionMain.RecordRead | vision/main.py:203-213 | A frame resets the failures, marks the camera running and stamps the time. A failure counts one more and marks it degraded, or offline from five. |
| VisionMain.RunDueTasks | vision/main.py:249-299 | Each periodic task (flush, health check, fps log, dashboard) runs on exactly its due frames. |
| VisionMain.AcquisitionLoop | vision/main.py:199-303 | The loop stops at the first file read that fails or the frame that reaches `MAX_FRAMES`, never exceeding it. It counts the frames, keeps the camera status, and runs each task on its due frames. |
| VisionMain.ReadStep | vision/main.py:203-215 | One more read updates the frame count, failure count, status and frame time as the loop does. |
| VisionMain.FileStopsAtFirstFailure | vision/main.py:207-209 | A file source reads frames until its first failure. |
| VisionMain.StreamStopsOnlyAtLimit | vision/main.py:210 | A stream never stops on a failed read. It stops only at the frame limit (lines 301-303). |
| VisionMain.TotalsAfterFrames | vision/main.py:234-247 | Updating the totals keeps the set of counters. |
| VisionMain.TotalsAfterFramesMeaning | vision/main.py:234-247 | After a run, the totals count its frames, sum its generated and transmitted events and show the last queue size. Transmitted events never exceed generated ones. |
| VisionMain.RecordFrameTotals | vision/main.py:234-247 | The per-frame update overwrites the frame count and queue size and accumulates the other four counters. |

## Left out

- Concurrency: the locks of the rate limiter, the database and monitoring, and overlapping dashboard polls. Every operation is modelled as one atomic step, in a sequence.
- The database's race recovery after an `IntegrityError` (backend/app/core/database_ops.py lines 208-226) is not modelled. It re-queries the winning row. The model reports the integrity error and changes nothing.
- The ORM, sessions, commits and rollbacks, Pydantic serialisation and FastAPI routing: rows are values, and the database is a class over sequences.
- axios, browser WebSocket objects, `requests.Session`, uvicorn, Sentry and logging: their effects are replies, outcomes or recorded notices.
- Real clocks and sleeps: times are parameters, and sleeps are recorded in sequences.
- YOLO, ByteTrack and OpenCV: the model outputs, the tracker rows, the enhanced frame and the frame brightness are inputs.
- The annotated-frame visualisation of the vision loop and its `print`-free logging.
- File I/O: the JSONL event log and the offline queue file are sequences. The monitoring dashboard is a field. The frame directory is a list of names with modification times, and its globbing and sorting are not modelled.
- Reading environment variables and `.env` files, and creating directories: settings are values with their default constants (backend/app/core/config.py lines 11-27, vision/app/core/config.py lines 11-80).
- Floating-point representation: floats are exact reals, and display rounding is not modelled (backend/main.py line 467, backend/app/core/monitoring.py lines 65-66). The frontend's `Math.round` is modelled.
- ApiMonitoring.EvaluateAlertsMeaning: it compares the unrounded error rate and latency with the thresholds. The source compares values rounded to 4 and 2 decimals, so a value just below a threshold can raise the alert in the source and not in the model.
- ApiMonitoring.TakeSnapshot: does not model the top-ten route list (`most_common(10)`) or the start time, only the counts and averages.
- The health, readiness and root endpoints (backend/main.py lines 233-315 and 372-379), the startup seeding wiring (lines 211-225), `get_floor` by id, and the serialisation of `get_events`.
- VisionTracker.VehicleTracker.Update: the catch-all that returns `[]` when the tracker raises (vision/app/services/tracker.py lines 189-191) is not modelled. The tracker rows are an input, and `None` stands for "no result".
- VisionDetector.Detect: only the missing-frame, shape and missing-result errors are modelled, not arbitrary exceptions of the model library.
- VisionTracker.HitSumAtLeastCount: the total hit count is a ghost sum over a map, and `TrackingMetrics` returns it as that ghost value.
- The presentational components (Header, Alert, FloorRecommendation), `floorService` and `useFetch`: they are not part of this model.
- Text case: `Strings.Lower` folds ASCII letters only, while Python's `str.lower()` and JavaScript's `toLowerCase()` also fold non-ASCII letters. (`Strings.Strip` removes exactly the characters of Python's `str.isspace`, so it matches `str.strip()`.)
- VisionApiClient.BackendClient.constructor: the queue file is modelled as the parsed queue, so malformed lines that stay in the file until the next rewrite are not represented (vision/app/services/api_client.py lines 60-79).
- VisionApiClient.BackendClient.FlushQueuedEvents: one network function `(payload, attempt) -> outcome` answers the whole flush, so two equal queued payloads share their outcome within one flush: both are delivered or both are kept. In the source each queued item is posted separately, and a transient failure (a timeout or a dropped connection) can keep the second copy after the first was delivered (vision/app/services/api_client.py lines 144-153).

## Findings

| source | as written | input that shows it | evidently intended | confidence | as-written member | corrected member |
|---|---|---|---|---|---|---|
| frontend/src/components/CameraFeed.jsx:45-74 | A frame fetch that resolves after the component unmounts still creates an object URL and stores it. Teardown has already run, so that URL is never revoked. | Start one poll, unmount, then let the fetch resolve with a blob. | A success after teardown revokes its URL at once and leaves the state alone. | medium, not executed | CameraFeed.LateSuccessLeaks | CameraFeed.LateSuccessChecked |
| frontend/src/components/EventLog.jsx:5-45 | The `useMemo` hooks come after the early returns for loading, error and empty data. The number of hooks called therefore changes between renders, which React's rules of hooks forbid. | Render with `loading` true, then with one event and `loading` false. | Every hook is called on every render, before the early returns. | high, not executed | EventLog.HookCountChangesAsWritten | EventLog.HookCountStable |
| backend/main.py:83-111 | When `CORS_ALLOW_ORIGINS` is empty, the origin list falls back to `["*"]`. `allow_credentials` is computed from the raw, empty parse, so it becomes true alongside the wildcard. | `CORS_ALLOW_ORIGINS=""` | Credentials are allowed only when the effective origin list has no wildcard. | low, not executed | BackendApi.CorsAsWrittenEmptyOrigins | BackendApi.CorsAgreesOnListedOrigins |
