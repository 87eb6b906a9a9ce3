/**
 * The backend application (backend/main.py): the CORS policy derived from
 * the settings, the security middleware's decision order and its
 * monitoring record, and the computations behind the endpoints — the error
 * mapping of POST /event, the GET /floors aggregates, the GET /recommend
 * reason and alternatives, the low-availability floors of
 * GET /monitoring/alerts, and the choice of the latest camera frame.
 * FastAPI, Starlette and the file system are not modelled; the downstream
 * handler's status and the frame directory's listing are inputs.
 */
module BackendApi {
  import opened Wrappers
  import opened Strings
  import opened Seqs
  import opened Numbers
  import BackendConfig
  import opened Security
  import opened FloorModel
  import opened EventModel
  import DatabaseOps
  import ApiMonitoring
  import opened Schemas
  import CameraFeed

  const NoActiveFloorsDetail := "No active floors found"
  const NoSuitableFloorDetail := "No suitable floor found"
  const DatabaseUnavailableDetail := "Database not initialized"
  const InternalErrorDetail := "Internal server error"
  const FrameDirectoryMissingDetail := "Frame directory not found"
  const NoFrameYetDetail := "No camera frame available yet"
  const MaxAlternatives := 3

  // ---------------------------------------------------------------------
  // CORS
  // ---------------------------------------------------------------------

  datatype CorsPolicy = CorsPolicy(origins: seq<string>, methods: seq<string>, headers: seq<string>, allowCredentials: bool)

  /** An empty list falls back to `["*"]`. */
  function OrWildcard(items: seq<string>): (r: seq<string>)
    ensures r != []
    ensures items != [] ==> r == items
  {
    if items != [] then items else ["*"]
  }

  /**
   * The policy as written: credentials are refused only when the parsed
   * origins are exactly `["*"]`, but the middleware is given the list after
   * the empty-list fallback.
   */
  function CorsAsWritten(origins: string, methods: string, headers: string): (p: CorsPolicy)
    ensures p.origins == OrWildcard(BackendConfig.ParseCsv(origins))
    ensures p.allowCredentials <==> BackendConfig.ParseCsv(origins) != ["*"]
  {
    var parsed := BackendConfig.ParseCsv(origins);
    CorsPolicy(OrWildcard(parsed), OrWildcard(BackendConfig.ParseCsv(methods)),
               OrWildcard(BackendConfig.ParseCsv(headers)), !(parsed == ["*"]))
  }

  /** An empty origins setting yields the wildcard together with credentials. */
  lemma CorsAsWrittenEmptyOrigins(methods: string, headers: string)
    ensures CorsAsWritten("", methods, headers).origins == ["*"]
    ensures CorsAsWritten("", methods, headers).allowCredentials
  {
    BackendConfig.ParseCsvEmpty();
  }

  /** The policy with credentials decided on the origins actually allowed. */
  function Cors(origins: string, methods: string, headers: string): (p: CorsPolicy)
    ensures p.origins == OrWildcard(BackendConfig.ParseCsv(origins))
    ensures p.allowCredentials <==> "*" !in p.origins
  {
    var allowed := OrWildcard(BackendConfig.ParseCsv(origins));
    CorsPolicy(allowed, OrWildcard(BackendConfig.ParseCsv(methods)),
               OrWildcard(BackendConfig.ParseCsv(headers)), "*" !in allowed)
  }

  /**
   * The corrected policy never allows credentials for all origins, and it
   * agrees with the written one on every origins setting that lists either
   * the wildcard alone or explicit origins only.
   */
  lemma CorsAgreesOnListedOrigins(origins: string, methods: string, headers: string)
    ensures Cors(origins, methods, headers).allowCredentials ==> "*" !in Cors(origins, methods, headers).origins
    ensures var parsed := BackendConfig.ParseCsv(origins);
      parsed != [] && (parsed == ["*"] || "*" !in parsed) ==> Cors(origins, methods, headers) == CorsAsWritten(origins, methods, headers)
  {
  }

  /** With the default settings all origins are allowed and credentials are not. */
  lemma DefaultCors()
    ensures Cors(BackendConfig.DefaultCorsAllowOrigins, BackendConfig.DefaultCorsAllowMethods, BackendConfig.DefaultCorsAllowHeaders).origins == ["*"]
    ensures !Cors(BackendConfig.DefaultCorsAllowOrigins, BackendConfig.DefaultCorsAllowMethods, BackendConfig.DefaultCorsAllowHeaders).allowCredentials
  {
    BackendConfig.ParseCsvJoin(["*"]);
  }

  // ---------------------------------------------------------------------
  // Security middleware
  // ---------------------------------------------------------------------

  /** Which checks a request meets before reaching its handler. */
  datatype Gate = SkipChecks | Unauthorized(error: HttpError) | NoRateLimit | RateLimited

  function GateFor(httpMethod: string, path: string, providedKey: string, keys: set<string>): Gate
  {
    if httpMethod == "OPTIONS" then SkipChecks
    else if RequireApiKey(path, providedKey, keys).Some? then Unauthorized(RequireApiKey(path, providedKey, keys).value)
    else if IsPublicPath(path) then NoRateLimit
    else RateLimited
  }

  /**
   * OPTIONS skips both checks; otherwise the key check comes first and
   * refuses exactly the protected paths without a configured key; the rate
   * limit applies exactly to protected paths with a good key.
   */
  lemma GateOrder(httpMethod: string, path: string, providedKey: string, keys: set<string>)
    ensures httpMethod == "OPTIONS" <==> GateFor(httpMethod, path, providedKey, keys) == SkipChecks
    ensures GateFor(httpMethod, path, providedKey, keys).Unauthorized? <==>
      (httpMethod != "OPTIONS" && !IsPublicPath(path) && (providedKey == "" || providedKey !in keys))
    ensures GateFor(httpMethod, path, providedKey, keys).Unauthorized? ==>
      GateFor(httpMethod, path, providedKey, keys).error == HttpError(401, AuthFailureDetail)
    ensures GateFor(httpMethod, path, providedKey, keys) == RateLimited <==>
      (httpMethod != "OPTIONS" && !IsPublicPath(path) && providedKey != "" && providedKey in keys)
  {
  }

  /** What the middleware answers. `Raised`: an exception escaped, recorded as a 500. */
  datatype Outcome =
    | Rejected(status: int, body: ErrorResponse, retryAfter: Option<string>)
    | Forwarded(status: int)
    | Raised

  function RecordedStatus(o: Outcome): int
  {
    match o
    case Rejected(status, _, _) => status
    case Forwarded(status) => status
    case Raised => 500
  }

  function Forward(downstream: Option<int>): Outcome
  {
    if downstream.Some? then Forwarded(downstream.value) else Raised
  }

  /** The answer, given the gate, the rate limiter's verdict and the handler's status (None: it raised). */
  function Respond(gate: Gate, check: CheckResult, downstream: Option<int>): (o: Outcome)
  {
    match gate
    case SkipChecks => Forward(downstream)
    case NoRateLimit => Forward(downstream)
    case Unauthorized(e) => Rejected(e.status, MakeErrorResponse("Authentication Error", Some(e.detail), e.status), None)
    case RateLimited =>
      match check
      case Allowed => Forward(downstream)
      case Denied(retryAfter) =>
        Rejected(429, MakeErrorResponse("Too Many Requests", Some("Rate limit exceeded"), 429), Some(IntToString(retryAfter)))
      case Crashed => Raised
  }

  /**
   * A 429 comes only from a rate-limit denial and always carries its
   * Retry-After; a refused key never reaches the handler; a request that
   * passes the gate answers with the handler's status.
   */
  lemma RespondMeaning(gate: Gate, check: CheckResult, downstream: Option<int>)
    ensures var o := Respond(gate, check, downstream);
      (o.Rejected? && o.retryAfter.Some?) <==> (gate == RateLimited && check.Denied?)
    ensures var o := Respond(gate, check, downstream);
      o.Rejected? ==> !o.body.success && o.body.statusCode == o.status
    ensures var o := Respond(gate, check, downstream);
      o.Rejected? && o.retryAfter.Some? ==> o.status == 429 && o.retryAfter == Some(IntToString(check.retryAfter))
    ensures var o := Respond(gate, check, downstream);
      gate.Unauthorized? ==> o == Rejected(gate.error.status, MakeErrorResponse("Authentication Error", Some(gate.error.detail), gate.error.status), None)
    ensures var o := Respond(gate, check, downstream);
      (gate == SkipChecks || gate == NoRateLimit || (gate == RateLimited && check == Allowed)) ==>
        (downstream.Some? ==> o == Forwarded(downstream.value)) && (downstream.None? ==> o == Raised)
  {
  }

  /**
   * `request_security_and_logging_middleware`: runs the gate, consults the
   * rate limiter only for protected paths, and records every request once,
   * with the status it finally answered with.
   */
  method HandleRequest(limiter: RateLimiter, monitoring: ApiMonitoring.MonitoringState, keys: set<string>,
                       httpMethod: string, path: string, providedKey: string, client: string, now: real,
                       downstream: Option<int>, durationMs: real)
    returns (o: Outcome)
    requires limiter.Valid() && now >= limiter.clock && monitoring.Valid()
    modifies limiter, monitoring
    ensures limiter.Valid() && monitoring.Valid()
    ensures limiter.clock == if GateFor(httpMethod, path, providedKey, keys) == RateLimited then now else old(limiter.clock)
    ensures GateFor(httpMethod, path, providedKey, keys) != RateLimited ==>
      limiter.buckets == old(limiter.buckets) && o == Respond(GateFor(httpMethod, path, providedKey, keys), Allowed, downstream)
    ensures GateFor(httpMethod, path, providedKey, keys) == RateLimited ==>
      var check := Decide(DropStale(old(limiter.Bucket(client)), now, limiter.windowSeconds), now, limiter.maxRequests, limiter.windowSeconds);
      o == Respond(RateLimited, check, downstream)
      && limiter.buckets == old(limiter.buckets)[client := DropStale(old(limiter.Bucket(client)), now, limiter.windowSeconds)
                                                 + (if check.Allowed? then [now] else [])]
    ensures monitoring.history == ApiMonitoring.BoundedAppend(old(monitoring.history),
      ApiMonitoring.RequestRecord(httpMethod, path, RecordedStatus(o), durationMs), monitoring.historySize)
    ensures monitoring.routeCounts == ApiMonitoring.Bump(old(monitoring.routeCounts), ApiMonitoring.RouteKey(httpMethod, path))
    ensures monitoring.statusCounts == ApiMonitoring.Bump(old(monitoring.statusCounts), IntToString(RecordedStatus(o)))
    ensures monitoring.errorCounts ==
      if ApiMonitoring.ErrorClass(RecordedStatus(o)).Some?
      then ApiMonitoring.Bump(old(monitoring.errorCounts), ApiMonitoring.ErrorClass(RecordedStatus(o)).value)
      else old(monitoring.errorCounts)
  {
    var gate := GateFor(httpMethod, path, providedKey, keys);
    var check := Allowed;
    if gate == RateLimited {
      check := limiter.Check(client, now);
    }
    o := Respond(gate, check, downstream);
    monitoring.RecordRequest(httpMethod, path, RecordedStatus(o), durationMs);
  }

  // ---------------------------------------------------------------------
  // POST /event
  // ---------------------------------------------------------------------

  /** A ValueError is a conflict when it speaks of a full or empty floor, else a bad request; anything else is a 500. */
  function RecordErrorStatus(e: DatabaseOps.DbError): (r: HttpError)
    ensures e.IntegrityError? ==> r == HttpError(500, InternalErrorDetail)
    ensures e.ValueError? ==> r.detail == e.message
    ensures e.ValueError? ==> (r.status == 409 <==> Contains(Lower(e.message), "full") || Contains(Lower(e.message), "empty"))
    ensures e.ValueError? ==> (r.status == 400 <==> !(Contains(Lower(e.message), "full") || Contains(Lower(e.message), "empty")))
  {
    match e
    case ValueError(m) =>
      HttpError(if Contains(Lower(m), "full") || Contains(Lower(m), "empty") then 409 else 400, m)
    case IntegrityError => HttpError(500, InternalErrorDetail)
  }

  /** The tail of `s` from `i` is text `t` already in lower case. */
  lemma LowerTail(s: string, t: string, i: nat)
    requires i + |t| == |s| && s[i..] == t && IsLower(t)
    ensures OccursAt(Lower(s), t, i)
  {
    var l := Lower(s);
    forall k | 0 <= k < |t|
      ensures l[i + k] == t[k]
    {
      assert s[i + k] == t[k];
    }
    assert l[i..i + |t|] == t;
  }

  /** Refusals of a full or an empty floor are conflicts. */
  lemma GuardErrorsConflict(floorId: int, d: Direction)
    ensures RecordErrorStatus(DatabaseOps.ValueError(DatabaseOps.GuardMessage(floorId, d))).status == 409
  {
    var m := DatabaseOps.GuardMessage(floorId, d);
    var word := if d == Entry then "full" else "empty";
    var head := "Floor " + IntToString(floorId) + " is ";
    assert m == head + word;
    assert (head + word)[|head|..] == word;
    LowerTail(m, word, |m| - |word|);
    ContainsAt(Lower(m), word, |m| - |word|);
  }

  /** No letter `e`, and no `f` followed by `u`, occurs in the lowered not-found message. */
  lemma NotFoundLetters(floorId: int, i: nat)
    requires i < |DatabaseOps.NotFoundMessage(floorId)|
    ensures var l := Lower(DatabaseOps.NotFoundMessage(floorId));
      l[i] != 'e' && (l[i] == 'f' ==> i + 1 < |l| && l[i + 1] != 'u')
  {
    var digits := IntToString(floorId);
    var head, tail := "Floor ", " not found";
    var m := DatabaseOps.NotFoundMessage(floorId);
    var l := Lower(m);
    assert m == head + digits + tail;
    if i < |head| {
      assert m[i] == head[i];
      if i == 0 {
        assert m[1] == 'l';
      }
    } else if i < |head| + |digits| {
      assert m[i] == digits[i - |head|];
    } else {
      var j := i - |head| - |digits|;
      assert m[i] == tail[j];
      if j == 5 {
        assert m[i + 1] == tail[6];
      }
    }
  }

  /** An unknown floor is a bad request: its message speaks of neither a full nor an empty floor. */
  lemma NotFoundIsBadRequest(floorId: int)
    ensures RecordErrorStatus(DatabaseOps.ValueError(DatabaseOps.NotFoundMessage(floorId))).status == 400
  {
    var l := Lower(DatabaseOps.NotFoundMessage(floorId));
    ContainsIff(l, "full");
    ContainsIff(l, "empty");
    forall i | 0 <= i && i + 4 <= |l|
      ensures !OccursAt(l, "full", i)
    {
      NotFoundLetters(floorId, i);
      assert l[i..i + 4][0] == l[i] && l[i..i + 4][1] == l[i + 1];
    }
    forall i | 0 <= i && i + 5 <= |l|
      ensures !OccursAt(l, "empty", i)
    {
      NotFoundLetters(floorId, i);
      assert l[i..i + 5][0] == l[i];
    }
  }

  datatype EventCreateResponse = EventCreateResponse(
    success: bool,
    message: string,
    eventId: int,
    floorId: int,
    currentVehicles: int,
    availableSlots: nat,
    occupancyPercentage: real)

  function RecordedMessage(d: Direction, isDuplicate: bool): string
  {
    if isDuplicate then "Duplicate vehicle " + DirectionValue(d) + " ignored"
    else "Vehicle " + DirectionValue(d) + " recorded successfully"
  }

  /** The endpoint's answer to the database's outcome. */
  function RecordEventResponse(req: EventCreateRequest, outcome: Result<DatabaseOps.Recorded, DatabaseOps.DbError>)
    : (r: Result<EventCreateResponse, HttpError>)
    ensures outcome.Err? ==> r == Err(RecordErrorStatus(outcome.error))
    ensures outcome.Ok? ==>
      (r.Ok? && r.value.success
       && r.value.message == RecordedMessage(req.direction, outcome.value.isDuplicate)
       && r.value.eventId == outcome.value.event.id && r.value.floorId == outcome.value.floor.id
       && r.value.currentVehicles == outcome.value.floor.currentVehicles
       && r.value.availableSlots == FloorModel.AvailableSlots(outcome.value.floor)
       && r.value.occupancyPercentage == FloorModel.OccupancyPercentage(outcome.value.floor))
  {
    match outcome
    case Err(e) => Err(RecordErrorStatus(e))
    case Ok(rec) =>
      Ok(EventCreateResponse(true, RecordedMessage(req.direction, rec.isDuplicate), rec.event.id, rec.floor.id,
                             rec.floor.currentVehicles, FloorModel.AvailableSlots(rec.floor),
                             FloorModel.OccupancyPercentage(rec.floor)))
  }

  /** The two success messages differ, so a duplicate is always told apart from a new event. */
  lemma RecordedMessagesDiffer(d: Direction, e: Direction)
    ensures RecordedMessage(d, true) != RecordedMessage(e, false)
  {
    var dup, recorded := RecordedMessage(d, true), RecordedMessage(e, false);
    assert dup[0] == 'D' && recorded[0] == 'V';
  }

  /**
   * `record_event`: 503 without a database; otherwise the request is
   * recorded with its confidence at the current time and the default
   * window, and the outcome mapped to the response.
   */
  method RecordEventEndpoint(db: DatabaseOps.ParkingDb?, req: EventCreateRequest, now: int)
    returns (r: Result<EventCreateResponse, HttpError>, ghost outcome: Option<Result<DatabaseOps.Recorded, DatabaseOps.DbError>>)
    requires db != null ==> db.Valid()
    modifies db
    ensures db == null ==> r == Err(HttpError(503, DatabaseUnavailableDetail)) && outcome.None?
    ensures db != null ==> db.Valid()
    ensures db != null ==> (r.Err? ==> r.error.status in {400, 409, 500}) && (r.Ok? ==> r.value.success)
    ensures db != null ==> outcome.Some? && r == RecordEventResponse(req, outcome.value)
    ensures db != null && (outcome.value.Err? || outcome.value.value.isDuplicate) ==>
      db.floors == old(db.floors) && db.events == old(db.events) && db.nextEventId == old(db.nextEventId)
    ensures db != null && outcome.value.Ok? && !outcome.value.value.isDuplicate ==>
      var e := outcome.value.value.event;
      old(DatabaseOps.FindFloor(db.floors, req.floorId)).Some?
      && var i := old(DatabaseOps.FindFloor(db.floors, req.floorId)).value;
      db.floors == old(db.floors)[i := DatabaseOps.CountStep(old(db.floors[i]), req.direction)]
      && db.events == old(db.events) + [e] && db.nextEventId == old(db.nextEventId) + 1
      && e == Event(old(db.nextEventId), req.cameraId, req.floorId, req.trackId, req.vehicleType, req.direction,
                    req.confidence, now)
    ensures db != null && old(DatabaseOps.FindFloor(db.floors, req.floorId)).None? ==>
      outcome.value == Err(DatabaseOps.ValueError(DatabaseOps.NotFoundMessage(req.floorId)))
    ensures db != null && old(DatabaseOps.FindFloor(db.floors, req.floorId)).Some? ==>
      var i := old(DatabaseOps.FindFloor(db.floors, req.floorId)).value;
      var dup := old(DatabaseOps.LatestDuplicate(db.events, req.cameraId, req.trackId, req.floorId, req.direction, now,
                                                 DatabaseOps.DefaultIdempotencyWindowSeconds));
      var e := Event(old(db.nextEventId), req.cameraId, req.floorId, req.trackId, req.vehicleType, req.direction,
                     req.confidence, now);
      if dup.Some? then outcome.value == Ok(DatabaseOps.Recorded(dup.value, old(db.floors[i]), true))
      else if !DatabaseOps.CanStep(old(db.floors[i]), req.direction) then
        outcome.value == Err(DatabaseOps.ValueError(DatabaseOps.GuardMessage(req.floorId, req.direction)))
      else if !DatabaseOps.Insertable(old(db.events), e) then outcome.value == Err(DatabaseOps.IntegrityError)
      else outcome.value == Ok(DatabaseOps.Recorded(e, db.floors[i], false))
  {
    if db == null {
      return Err(HttpError(503, DatabaseUnavailableDetail)), None;
    }
    var res := db.RecordEvent(req.cameraId, req.floorId, req.trackId, req.vehicleType, req.direction,
                              req.confidence, None, now, DatabaseOps.DefaultIdempotencyWindowSeconds);
    outcome := Some(res);
    r := RecordEventResponse(req, res);
  }

  // ---------------------------------------------------------------------
  // GET /floors
  // ---------------------------------------------------------------------

  function IsActiveFloor(f: Floor): bool { f.isActive }
  function TotalOf(f: Floor): int { f.totalSlots }
  function VehiclesOf(f: Floor): int { f.currentVehicles }
  function AvailableOf(f: Floor): int { FloorModel.AvailableSlots(f) }

  function SumOf(floors: seq<Floor>, count: Floor -> int): int
    decreases |floors|
  {
    if |floors| == 0 then 0 else count(floors[0]) + SumOf(floors[1..], count)
  }

  datatype FloorsList = FloorsList(
    totalFloors: nat,
    totalCapacity: int,
    totalVehicles: int,
    totalAvailable: int,
    averageOccupancy: real,
    floors: seq<Floor>)

  /** `get_floors`, before rounding the average: 404 without an active floor, else the sums over the active floors. */
  function GetFloors(floors: seq<Floor>): (r: Result<FloorsList, HttpError>)
    ensures r.Err? <==> forall k :: 0 <= k < |floors| ==> !floors[k].isActive
    ensures r.Err? ==> r.error == HttpError(404, NoActiveFloorsDetail)
    ensures r.Ok? ==> r.value.floors == Filter(floors, IsActiveFloor) && r.value.totalFloors == |r.value.floors|
    ensures r.Ok? ==> r.value.totalCapacity <= 0 ==> r.value.averageOccupancy == 0.0
    ensures r.Ok? ==> r.value.totalCapacity > 0 ==>
      r.value.averageOccupancy * r.value.totalCapacity as real == r.value.totalVehicles as real * 100.0
    ensures r.Ok? ==> r.value.totalCapacity == SumOf(r.value.floors, TotalOf)
    ensures r.Ok? ==> r.value.totalVehicles == SumOf(r.value.floors, VehiclesOf)
    ensures r.Ok? ==> r.value.totalAvailable == SumOf(r.value.floors, AvailableOf)
  {
    var active := Filter(floors, IsActiveFloor);
    if |active| == 0 then
      assert forall k :: 0 <= k < |floors| ==> !floors[k].isActive by {
        forall k | 0 <= k < |floors|
          ensures !IsActiveFloor(floors[k])
        {
          assert floors[k] !in active;
        }
      }
      Err(HttpError(404, NoActiveFloorsDetail))
    else
      assert active[0] in floors;
      Ok(Summary(active))
  }

  /** The sums over the listed floors, and the occupancy of their total capacity. */
  function Summary(active: seq<Floor>): (l: FloorsList)
    ensures l.floors == active && l.totalFloors == |active|
    ensures l.totalCapacity == SumOf(active, TotalOf) && l.totalVehicles == SumOf(active, VehiclesOf)
    ensures l.totalAvailable == SumOf(active, AvailableOf)
    ensures l.totalCapacity <= 0 ==> l.averageOccupancy == 0.0
    ensures l.totalCapacity > 0 ==> l.averageOccupancy * l.totalCapacity as real == l.totalVehicles as real * 100.0
  {
    var capacity := SumOf(active, TotalOf);
    var vehicles := SumOf(active, VehiclesOf);
    var average := if capacity > 0 then (vehicles as real / capacity as real) * 100.0 else 0.0;
    FloorsList(|active|, capacity, vehicles, SumOf(active, AvailableOf), average, active)
  }

  /** Over constrained floors the free slots are capacity minus vehicles, and the average is a percentage. */
  lemma SummaryConsistent(active: seq<Floor>)
    requires forall k :: 0 <= k < |active| ==> Constrained(active[k])
    ensures var l := Summary(active);
      l.totalAvailable == l.totalCapacity - l.totalVehicles && 0.0 <= l.averageOccupancy <= 100.0
  {
    ConstrainedSums(active);
    var l := Summary(active);
    if l.totalCapacity > 0 {
      PercentageBounds(l.averageOccupancy, l.totalVehicles as real, l.totalCapacity as real);
    }
  }

  lemma {:induction false} ConstrainedSums(floors: seq<Floor>)
    requires forall k :: 0 <= k < |floors| ==> Constrained(floors[k])
    ensures SumOf(floors, AvailableOf) == SumOf(floors, TotalOf) - SumOf(floors, VehiclesOf)
    ensures 0 <= SumOf(floors, VehiclesOf) <= SumOf(floors, TotalOf)
    decreases |floors|
  {
    if |floors| > 0 {
      assert forall k :: 0 <= k < |floors| - 1 ==> floors[1..][k] == floors[k + 1];
      ConstrainedSums(floors[1..]);
      ConstrainedFloor(floors[0]);
    }
  }

  /** Under the table constraints the free slots are capacity minus vehicles, and the average is a percentage. */
  lemma GetFloorsConsistent(floors: seq<Floor>)
    requires FloorModel.TableValid(floors)
    ensures var r := GetFloors(floors);
      r.Ok? ==>
        (r.value.totalAvailable == r.value.totalCapacity - r.value.totalVehicles
         && 0.0 <= r.value.averageOccupancy <= 100.0)
  {
    var r := GetFloors(floors);
    if r.Ok? {
      var active := Filter(floors, IsActiveFloor);
      assert r.value == Summary(active);
      forall k | 0 <= k < |active|
        ensures Constrained(active[k])
      {
        assert active[k] in floors;
      }
      SummaryConsistent(active);
    }
  }

  // ---------------------------------------------------------------------
  // GET /recommend
  // ---------------------------------------------------------------------

  /** The reason given for a recommendation with this occupancy. */
  function Reason(occupancy: real): string
  {
    if occupancy < 30.0 then "Very low occupancy rate (< 30%)"
    else if occupancy < 50.0 then "Low occupancy rate (< 50%)"
    else if occupancy < 70.0 then "Moderate occupancy rate (< 70%)"
    else "Best available option"
  }

  /** Each reason is given exactly on its band of occupancy. */
  lemma ReasonBands(occupancy: real)
    ensures Reason(occupancy) == "Very low occupancy rate (< 30%)" <==> occupancy < 30.0
    ensures Reason(occupancy) == "Low occupancy rate (< 50%)" <==> 30.0 <= occupancy < 50.0
    ensures Reason(occupancy) == "Moderate occupancy rate (< 70%)" <==> 50.0 <= occupancy < 70.0
    ensures Reason(occupancy) == "Best available option" <==> occupancy >= 70.0
  {
    var a, b, c, d := "Very low occupancy rate (< 30%)", "Low occupancy rate (< 50%)",
      "Moderate occupancy rate (< 70%)", "Best available option";
    assert a[0] != b[0] && a[0] != c[0] && a[0] != d[0] && b[0] != c[0] && b[0] != d[0] && c[0] != d[0];
  }

  predicate ByOccupancyOrdered(s: seq<Floor>)
  {
    forall i, j :: 0 <= i < j < |s| ==> OccupancyPercentage(s[i]) <= OccupancyPercentage(s[j])
  }

  predicate OccupancyAtLeast(b: real, s: seq<Floor>)
  {
    forall k :: 0 <= k < |s| ==> b <= OccupancyPercentage(s[k])
  }

  /** Inserts after the floors of equal occupancy, so that ordering is stable as Python's `sorted` is. */
  function InsertByOccupancy(f: Floor, sorted: seq<Floor>): (r: seq<Floor>)
    ensures |r| == |sorted| + 1
    ensures multiset(r) == multiset(sorted) + multiset{f}
    decreases |sorted|
  {
    if |sorted| == 0 then [f]
    else if OccupancyPercentage(f) < OccupancyPercentage(sorted[0]) then [f] + sorted
    else
      assert sorted == [sorted[0]] + sorted[1..];
      [sorted[0]] + InsertByOccupancy(f, sorted[1..])
  }

  lemma InsertKeepsOccupancyBound(b: real, f: Floor, sorted: seq<Floor>)
    requires OccupancyAtLeast(b, sorted) && b <= OccupancyPercentage(f)
    ensures OccupancyAtLeast(b, InsertByOccupancy(f, sorted))
  {
    var r := InsertByOccupancy(f, sorted);
    forall k | 0 <= k < |r|
      ensures b <= OccupancyPercentage(r[k])
    {
      assert r[k] in multiset(r);
      if r[k] != f {
        assert r[k] in multiset(sorted);
      }
    }
  }

  lemma {:induction false} InsertByOccupancyOrdered(f: Floor, sorted: seq<Floor>)
    requires ByOccupancyOrdered(sorted)
    ensures ByOccupancyOrdered(InsertByOccupancy(f, sorted))
    decreases |sorted|
  {
    if |sorted| > 0 && OccupancyPercentage(f) >= OccupancyPercentage(sorted[0]) {
      InsertByOccupancyOrdered(f, sorted[1..]);
      InsertKeepsOccupancyBound(OccupancyPercentage(sorted[0]), f, sorted[1..]);
    }
  }

  /** `sorted(floors, key=occupancy_percentage)`. */
  function SortByOccupancy(s: seq<Floor>): (r: seq<Floor>)
    ensures |r| == |s|
    ensures multiset(r) == multiset(s)
    decreases |s|
  {
    if |s| == 0 then []
    else
      assert s == s[..|s| - 1] + [s[|s| - 1]];
      InsertByOccupancy(s[|s| - 1], SortByOccupancy(s[..|s| - 1]))
  }

  lemma {:induction false} SortByOccupancyOrdered(s: seq<Floor>)
    ensures ByOccupancyOrdered(SortByOccupancy(s))
    decreases |s|
  {
    if |s| > 0 {
      SortByOccupancyOrdered(s[..|s| - 1]);
      InsertByOccupancyOrdered(s[|s| - 1], SortByOccupancy(s[..|s| - 1]));
    }
  }

  lemma {:induction false} FilterKeepsOrdered(s: seq<Floor>, p: Floor -> bool)
    requires ByOccupancyOrdered(s)
    ensures ByOccupancyOrdered(Filter(s, p))
    decreases |s|
  {
    if |s| > 0 {
      var tail := s[1..];
      OrderedTail(s);
      FilterKeepsOrdered(tail, p);
      var rest := Filter(tail, p);
      if p(s[0]) {
        assert Filter(s, p) == [s[0]] + rest;
        HeadAtMostFiltered(s, p);
        ConsOrdered(s[0], rest);
      } else {
        assert Filter(s, p) == rest;
      }
    }
  }

  lemma OrderedTail(s: seq<Floor>)
    requires ByOccupancyOrdered(s) && |s| > 0
    ensures ByOccupancyOrdered(s[1..])
  {
    var tail := s[1..];
    forall i, j | 0 <= i < j < |tail|
      ensures OccupancyPercentage(tail[i]) <= OccupancyPercentage(tail[j])
    {
      assert tail[i] == s[i + 1] && tail[j] == s[j + 1];
    }
  }

  /** In an ordered sequence, whatever a filter keeps of the tail is at least as occupied as the head. */
  lemma HeadAtMostFiltered(s: seq<Floor>, p: Floor -> bool)
    requires ByOccupancyOrdered(s) && |s| > 0
    ensures OccupancyAtLeast(OccupancyPercentage(s[0]), Filter(s[1..], p))
  {
    var tail := s[1..];
    var rest := Filter(tail, p);
    forall k | 0 <= k < |rest|
      ensures OccupancyPercentage(s[0]) <= OccupancyPercentage(rest[k])
    {
      assert rest[k] in tail;
      var m :| 0 <= m < |tail| && tail[m] == rest[k];
      assert tail[m] == s[m + 1];
    }
  }

  lemma ConsOrdered(f: Floor, rest: seq<Floor>)
    requires ByOccupancyOrdered(rest) && OccupancyAtLeast(OccupancyPercentage(f), rest)
    ensures ByOccupancyOrdered([f] + rest)
  {
    var r := [f] + rest;
    forall i, j | 0 <= i < j < |r|
      ensures OccupancyPercentage(r[i]) <= OccupancyPercentage(r[j])
    {
      assert r[j] == rest[j - 1];
      if i > 0 {
        assert r[i] == rest[i - 1];
      }
    }
  }

  datatype Recommendation = Recommendation(recommended: Floor, reason: string, alternatives: seq<Floor>)

  /** The active floors other than `id`, least occupied first. */
  function OtherFloors(floors: seq<Floor>, id: int): seq<Floor>
  {
    Filter(SortByOccupancy(Filter(floors, IsActiveFloor)), (f: Floor) => f.id != id)
  }

  /** `get_recommendation`: 404 without an active floor; otherwise the reason and up to three alternatives. */
  function Recommend(floors: seq<Floor>): (r: Result<Recommendation, HttpError>)
    ensures r.Err? <==> DatabaseOps.RecommendedFloor(floors).None?
    ensures r.Err? ==> r.error == HttpError(404, NoSuitableFloorDetail)
    ensures r.Ok? ==>
      (r.value.recommended == DatabaseOps.RecommendedFloor(floors).value
       && r.value.reason == Reason(OccupancyPercentage(r.value.recommended))
       && |r.value.alternatives| <= MaxAlternatives)
  {
    var best := DatabaseOps.RecommendedFloor(floors);
    if best.None? then Err(HttpError(404, NoSuitableFloorDetail))
    else
      var others := OtherFloors(floors, best.value.id);
      Ok(Recommendation(best.value, Reason(OccupancyPercentage(best.value)), others[..Min(MaxAlternatives, |others|)]))
  }

  /** An active floor with an id other than `id` is among the other floors, and only such floors are. */
  lemma OtherFloorsMembers(floors: seq<Floor>, id: int, g: Floor)
    ensures g in OtherFloors(floors, id) <==> g in floors && g.isActive && g.id != id
  {
    var active := Filter(floors, IsActiveFloor);
    var sorted := SortByOccupancy(active);
    if g in OtherFloors(floors, id) {
      FilterMember(sorted, (f: Floor) => f.id != id, g);
      assert g in multiset(sorted);
      FilterMember(floors, IsActiveFloor, g);
    }
    if g in floors && g.isActive && g.id != id {
      var k :| 0 <= k < |floors| && floors[k] == g;
      assert IsActiveFloor(floors[k]);
      assert g in active;
      assert g in multiset(sorted);
      var j :| 0 <= j < |sorted| && sorted[j] == g;
    }
  }

  /**
   * The alternatives are active floors other than the recommended one, in
   * ascending occupancy, and they are the least occupied of those: an
   * eligible floor left out means three were listed, none more occupied.
   */
  lemma AlternativesMeaning(floors: seq<Floor>, g: Floor)
    requires Recommend(floors).Ok?
    ensures var rec := Recommend(floors).value;
      ByOccupancyOrdered(rec.alternatives)
      && (forall k :: 0 <= k < |rec.alternatives| ==>
            rec.alternatives[k] in floors && rec.alternatives[k].isActive && rec.alternatives[k].id != rec.recommended.id)
    ensures var rec := Recommend(floors).value;
      g in floors && g.isActive && g.id != rec.recommended.id && g !in rec.alternatives ==>
        |rec.alternatives| == MaxAlternatives
        && forall k :: 0 <= k < |rec.alternatives| ==> OccupancyPercentage(rec.alternatives[k]) <= OccupancyPercentage(g)
  {
    var rec := Recommend(floors).value;
    var id := rec.recommended.id;
    var others := OtherFloors(floors, id);
    assert rec.alternatives == others[..Min(MaxAlternatives, |others|)];
    OtherFloorsOrdered(floors, id);
    PrefixMeaning(floors, id, others, rec.alternatives, g);
  }

  /** The other floors are in ascending occupancy. */
  lemma OtherFloorsOrdered(floors: seq<Floor>, id: int)
    ensures ByOccupancyOrdered(OtherFloors(floors, id))
  {
    SortByOccupancyOrdered(Filter(floors, IsActiveFloor));
    FilterKeepsOrdered(SortByOccupancy(Filter(floors, IsActiveFloor)), (f: Floor) => f.id != id);
  }

  /** The first (at most three) of the ordered other floors, described member by member. */
  lemma PrefixMeaning(floors: seq<Floor>, id: int, others: seq<Floor>, alts: seq<Floor>, g: Floor)
    requires others == OtherFloors(floors, id) && ByOccupancyOrdered(others)
    requires alts == others[..Min(MaxAlternatives, |others|)]
    ensures ByOccupancyOrdered(alts)
    ensures forall k :: 0 <= k < |alts| ==> alts[k] in floors && alts[k].isActive && alts[k].id != id
    ensures g in floors && g.isActive && g.id != id && g !in alts ==>
      |alts| == MaxAlternatives && forall k :: 0 <= k < |alts| ==> OccupancyPercentage(alts[k]) <= OccupancyPercentage(g)
  {
    assert forall k | 0 <= k < |alts| :: alts[k] == others[k];
    forall k | 0 <= k < |alts|
      ensures alts[k] in floors && alts[k].isActive && alts[k].id != id
    {
      OtherFloorsMembers(floors, id, alts[k]);
    }
    if g in floors && g.isActive && g.id != id && g !in alts {
      OtherFloorsMembers(floors, id, g);
      var j :| 0 <= j < |others| && others[j] == g;
      assert j >= |alts|;
    }
  }

  // ---------------------------------------------------------------------
  // GET /monitoring/alerts
  // ---------------------------------------------------------------------

  function IsLow(threshold: int, f: Floor): bool
  {
    f.isActive && FloorModel.AvailableSlots(f) as int <= threshold
  }

  /** The floors passed to the alert rules: active ones with at most `threshold` free slots, in table order. */
  function LowAvailabilityFloors(floors: seq<Floor>, threshold: int): (r: seq<ApiMonitoring.LowFloor>)
    ensures |r| == |Filter(floors, f => IsLow(threshold, f))|
    ensures forall k :: 0 <= k < |r| ==> r[k].availableSlots <= threshold
  {
    var low := Filter(floors, f => IsLow(threshold, f));
    seq(|low|, k requires 0 <= k < |low| => ApiMonitoring.LowFloor(low[k].id, low[k].name, FloorModel.AvailableSlots(low[k])))
  }

  /** The low-availability alert is raised exactly when some active floor has at most the threshold free. */
  lemma LowAvailabilityAlert(s: ApiMonitoring.Snapshot, t: ApiMonitoring.Thresholds, floors: seq<Floor>)
    ensures var alerts := ApiMonitoring.EvaluateAlerts(s, t, LowAvailabilityFloors(floors, t.lowAvailability));
      (exists k :: 0 <= k < |alerts| && alerts[k].code == ApiMonitoring.LowParkingAvailability) <==>
        exists k :: 0 <= k < |floors| && floors[k].isActive && FloorModel.AvailableSlots(floors[k]) as int <= t.lowAvailability
  {
    var low := Filter(floors, f => IsLow(t.lowAvailability, f));
    ApiMonitoring.EvaluateAlertsMeaning(s, t, LowAvailabilityFloors(floors, t.lowAvailability));
    if exists k :: 0 <= k < |floors| && floors[k].isActive && FloorModel.AvailableSlots(floors[k]) as int <= t.lowAvailability {
      var k :| 0 <= k < |floors| && floors[k].isActive && FloorModel.AvailableSlots(floors[k]) as int <= t.lowAvailability;
      assert IsLow(t.lowAvailability, floors[k]);
      assert floors[k] in low;
    }
    if |low| > 0 {
      FilterMember(floors, f => IsLow(t.lowAvailability, f), low[0]);
      var k :| 0 <= k < |floors| && floors[k] == low[0];
    }
  }

  // ---------------------------------------------------------------------
  // GET /camera/latest-frame
  // ---------------------------------------------------------------------

  /** A listed frame file: its name and modification time. */
  datatype FrameFile = FrameFile(name: string, mtime: real)

  datatype FrameResponse = FrameResponse(name: string, mediaType: string)

  /** The last index of `c` in `s`, or -1 (`str.rfind`). */
  function LastIndexOf(s: string, c: char): (r: int)
    ensures -1 <= r < |s|
    ensures r >= 0 ==> s[r] == c
    ensures forall k :: r < k < |s| ==> s[k] != c
    decreases |s|
  {
    if |s| == 0 then -1
    else if s[|s| - 1] == c then |s| - 1
    else LastIndexOf(s[..|s| - 1], c)
  }

  /** `PurePath.suffix`: from the last dot, unless the dot is first or last. */
  function Suffix(name: string): (r: string)
    ensures r == "" || (r[0] == '.' && |r| >= 2 && |r| < |name| && r == name[|name| - |r|..])
    ensures Free(if r == "" then "" else r[1..], '.')
  {
    var i := LastIndexOf(name, '.');
    if 0 < i < |name| - 1 then
      var ext := name[i + 1..];
      forall k | 0 <= k < |ext|
        ensures ext[k] != '.'
      {
        assert ext[k] == name[i + 1 + k];
      }
      name[i..]
    else ""
  }

  function MediaType(name: string): string
  {
    if Lower(Suffix(name)) in {".jpg", ".jpeg"} then "image/jpeg" else "image/png"
  }

  /** JPEG exactly for the `.jpg` and `.jpeg` suffixes in any case. */
  lemma MediaTypeMeaning(name: string)
    ensures MediaType(name) == "image/jpeg" <==> (Lower(Suffix(name)) == ".jpg" || Lower(Suffix(name)) == ".jpeg")
    ensures MediaType(name) != "image/jpeg" ==> MediaType(name) == "image/png"
  {
    var jpeg, png := "image/jpeg", "image/png";
    assert jpeg[6] != png[6];
  }

  /** The first of the newest files (a stable sort by time, newest first, then `[0]`). */
  function Newest(files: seq<FrameFile>): (i: nat)
    requires |files| > 0
    ensures i < |files|
    ensures forall k :: 0 <= k < |files| ==> files[k].mtime <= files[i].mtime
    ensures forall k :: 0 <= k < i ==> files[k].mtime < files[i].mtime
    decreases |files|
  {
    if |files| == 1 then 0
    else
      var j := Newest(files[..|files| - 1]);
      assert forall k :: 0 <= k < |files| - 1 ==> files[..|files| - 1][k] == files[k];
      if files[|files| - 1].mtime > files[j].mtime then |files| - 1 else j
  }

  /** `latest_camera_frame`, given whether the directory exists and its matching files. */
  function LatestFrame(dirExists: bool, files: seq<FrameFile>): (r: Result<FrameResponse, HttpError>)
    ensures !dirExists ==> r == Err(HttpError(404, FrameDirectoryMissingDetail))
    ensures dirExists && |files| == 0 ==> r == Err(HttpError(404, NoFrameYetDetail))
    ensures dirExists && |files| > 0 ==> r.Ok?
    ensures r.Ok? ==>
      exists k :: (0 <= k < |files| && files[k].name == r.value.name
                   && (forall j :: 0 <= j < |files| ==> files[j].mtime <= files[k].mtime)
                   && (forall j :: 0 <= j < k ==> files[j].mtime < files[k].mtime)
                   && r.value.mediaType == MediaType(files[k].name))
  {
    if !dirExists then Err(HttpError(404, FrameDirectoryMissingDetail))
    else if |files| == 0 then Err(HttpError(404, NoFrameYetDetail))
    else
      var i := Newest(files);
      Ok(FrameResponse(files[i].name, MediaType(files[i].name)))
  }

  /** Both of the endpoint's refusals read as their own message in the camera panel. */
  lemma LatestFrameErrorsReadable(dirExists: bool, files: seq<FrameFile>)
    requires LatestFrame(dirExists, files).Err?
    ensures var e := LatestFrame(dirExists, files).error;
      CameraFeed.ToFriendlyMessage(e.detail, e.status) ==
        (if dirExists then CameraFeed.NoFrameYetMessage else CameraFeed.MissingDirectoryMessage)
  {
    CameraFeed.BackendDetailsRecognised(404);
  }
}
