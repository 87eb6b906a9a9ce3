/**
 * Floor and event operations (backend/app/core/database_ops.py) over an
 * in-memory database: the `floors` table and the `events` table as sequences
 * of rows, changed in place by the recording, counting and cleanup
 * operations. Queries are functions of the tables. Timestamps are integer
 * microseconds; the current time is a parameter.
 */
module DatabaseOps {
  import opened Wrappers
  import opened Strings
  import opened Seqs
  import opened Numbers
  import opened FloorModel
  import opened EventModel

  const MicrosPerSecond := 1000000
  const MicrosPerHour := 3600 * MicrosPerSecond
  const MicrosPerDay := 24 * MicrosPerHour
  const DefaultIdempotencyWindowSeconds := 5

  // ---------------------------------------------------------------------
  // Floor queries
  // ---------------------------------------------------------------------

  /** The first row with the given id (`filter(Floor.id == floor_id).first()`). */
  function FindFloor(floors: seq<Floor>, id: int): (r: Option<nat>)
    ensures r.Some? ==> r.value < |floors| && floors[r.value].id == id
    ensures r.Some? ==> forall k :: 0 <= k < r.value ==> floors[k].id != id
    ensures r.None? <==> forall k :: 0 <= k < |floors| ==> floors[k].id != id
    decreases |floors|
  {
    if |floors| == 0 then None
    else if floors[0].id == id then Some(0)
    else
      var rest := FindFloor(floors[1..], id);
      if rest.None? then None else Some(rest.value + 1)
  }

  function FreeSlots(f: Floor): int
  {
    f.totalSlots - f.currentVehicles
  }

  /**
   * `get_recommended_floor`: an active floor with the most free slots
   * (`order_by((total_slots - current_vehicles).desc()).first()`), or None
   * when no floor is active.
   */
  function RecommendedFloor(floors: seq<Floor>): (r: Option<Floor>)
    ensures r.None? <==> forall k :: 0 <= k < |floors| ==> !floors[k].isActive
    ensures r.Some? ==> r.value in floors && r.value.isActive
    ensures r.Some? ==> forall k :: 0 <= k < |floors| && floors[k].isActive ==> FreeSlots(floors[k]) <= FreeSlots(r.value)
    decreases |floors|
  {
    if |floors| == 0 then None
    else
      var rest := RecommendedFloor(floors[1..]);
      assert forall k :: 1 <= k < |floors| ==> floors[k] == floors[1..][k - 1];
      if !floors[0].isActive then rest
      else if rest.Some? && FreeSlots(floors[0]) < FreeSlots(rest.value) then rest
      else Some(floors[0])
  }

  // ---------------------------------------------------------------------
  // Counting one vehicle in or out
  // ---------------------------------------------------------------------

  /** Whether the guarded count update applies: below capacity for an entry, above zero for an exit. */
  predicate CanStep(f: Floor, d: Direction)
  {
    match d
    case Entry => f.currentVehicles < f.totalSlots
    case Exit => f.currentVehicles > 0
  }

  /** The floor after counting one vehicle, where the guard allows it. */
  function CountStep(f: Floor, d: Direction): (g: Floor)
    ensures g == f.(currentVehicles := g.currentVehicles)
  {
    if !CanStep(f, d) then f
    else match d
      case Entry => f.(currentVehicles := f.currentVehicles + 1)
      case Exit => f.(currentVehicles := f.currentVehicles - 1)
  }

  /**
   * An entry adds one vehicle exactly when the floor is below capacity, an
   * exit removes one exactly when it is not empty; otherwise nothing
   * changes, and the table constraints are kept either way.
   */
  lemma CountStepMeaning(f: Floor, d: Direction)
    ensures d == Entry ==> (CountStep(f, d).currentVehicles == f.currentVehicles + 1 <==> f.currentVehicles < f.totalSlots)
    ensures d == Exit ==> (CountStep(f, d).currentVehicles == f.currentVehicles - 1 <==> f.currentVehicles > 0)
    ensures !CanStep(f, d) ==> CountStep(f, d) == f
    ensures Constrained(f) ==> Constrained(CountStep(f, d))
  {
  }

  /** On a constrained floor, an entry followed by an exit restores the floor, and conversely. */
  lemma CountStepInverse(f: Floor)
    requires Constrained(f)
    ensures CanStep(f, Entry) ==> CountStep(CountStep(f, Entry), Exit) == f
    ensures CanStep(f, Exit) ==> CountStep(CountStep(f, Exit), Entry) == f
  {
  }

  // ---------------------------------------------------------------------
  // Duplicate detection
  // ---------------------------------------------------------------------

  /** The idempotency half-width, `max(0, window)` seconds. */
  function WindowMicros(windowSeconds: int): (w: int)
    ensures w >= 0
    ensures windowSeconds >= 0 ==> w == windowSeconds * MicrosPerSecond
  {
    Max(0, windowSeconds) * MicrosPerSecond
  }

  /** The duplicate query's condition: same camera, track, floor and direction, within `lo..hi`. */
  predicate IsDuplicateOf(e: Event, cameraId: string, trackId: string, floorId: int, direction: Direction, lo: int, hi: int)
  {
    e.cameraId == cameraId && e.trackId == trackId && e.floorId == floorId
    && e.direction == direction && lo <= e.timestamp <= hi
  }

  /** An event with the latest timestamp (`order_by(Event.timestamp.desc()).first()`). */
  function Latest(s: seq<Event>): (r: Option<Event>)
    ensures r.None? <==> |s| == 0
    ensures r.Some? ==> r.value in s && forall k :: 0 <= k < |s| ==> s[k].timestamp <= r.value.timestamp
    decreases |s|
  {
    if |s| == 0 then None
    else
      var rest := Latest(s[1..]);
      assert forall k :: 1 <= k < |s| ==> s[k] == s[1..][k - 1];
      if rest.Some? && s[0].timestamp < rest.value.timestamp then rest else Some(s[0])
  }

  /** The stored event `record_event` reports as the duplicate of a new one, if any. */
  function LatestDuplicate(events: seq<Event>, cameraId: string, trackId: string, floorId: int,
                           direction: Direction, ts: int, windowSeconds: int): (r: Option<Event>)
    ensures r.None? <==> forall k :: 0 <= k < |events| ==>
      !IsDuplicateOf(events[k], cameraId, trackId, floorId, direction, ts - WindowMicros(windowSeconds), ts + WindowMicros(windowSeconds))
    ensures r.Some? ==>
      r.value in events
      && IsDuplicateOf(r.value, cameraId, trackId, floorId, direction, ts - WindowMicros(windowSeconds), ts + WindowMicros(windowSeconds))
    ensures r.Some? ==>
      forall k :: 0 <= k < |events|
        && IsDuplicateOf(events[k], cameraId, trackId, floorId, direction, ts - WindowMicros(windowSeconds), ts + WindowMicros(windowSeconds))
        ==> events[k].timestamp <= r.value.timestamp
  {
    var w := WindowMicros(windowSeconds);
    var p := (e: Event) => IsDuplicateOf(e, cameraId, trackId, floorId, direction, ts - w, ts + w);
    var candidates := Filter(events, p);
    var r := Latest(candidates);
    assert r.Some? ==> p(r.value) && r.value in events by {
      if r.Some? {
        FilterMember(events, p, r.value);
      }
    }
    assert r.Some? ==> exists k :: 0 <= k < |events| && p(events[k]) by {
      if r.Some? {
        var k :| 0 <= k < |events| && events[k] == r.value;
      }
    }
    r
  }

  // ---------------------------------------------------------------------
  // Errors
  // ---------------------------------------------------------------------

  /** The exceptions `record_event` lets escape. */
  datatype DbError = ValueError(message: string) | IntegrityError

  function NotFoundMessage(floorId: int): string
  {
    "Floor " + IntToString(floorId) + " not found"
  }

  function FullMessage(floorId: int): string
  {
    "Floor " + IntToString(floorId) + " is full"
  }

  function EmptyMessage(floorId: int): string
  {
    "Floor " + IntToString(floorId) + " is empty"
  }

  /** The guard's failure message for a direction. */
  function GuardMessage(floorId: int, d: Direction): string
  {
    match d
    case Entry => FullMessage(floorId)
    case Exit => EmptyMessage(floorId)
  }

  /** `(event, floor, is_duplicate)`. */
  datatype Recorded = Recorded(event: Event, floor: Floor, isDuplicate: bool)

  /** The row constraints let a new event in: confidence in range and no stored event with its key. */
  predicate Insertable(events: seq<Event>, e: Event)
  {
    ConfidenceInRange(e.confidence) && forall k :: 0 <= k < |events| ==> KeyOf(events[k]) != KeyOf(e)
  }

  // ---------------------------------------------------------------------
  // Event queries
  // ---------------------------------------------------------------------

  predicate SortedByTimeDesc(s: seq<Event>)
  {
    forall i, j :: 0 <= i < j < |s| ==> s[i].timestamp >= s[j].timestamp
  }

  predicate TimesAtMost(b: int, s: seq<Event>)
  {
    forall k :: 0 <= k < |s| ==> s[k].timestamp <= b
  }

  function InsertByTime(e: Event, sorted: seq<Event>): (r: seq<Event>)
    ensures |r| == |sorted| + 1
    ensures multiset(r) == multiset(sorted) + multiset{e}
    decreases |sorted|
  {
    if |sorted| == 0 then [e]
    else if e.timestamp > sorted[0].timestamp then [e] + sorted
    else
      assert sorted == [sorted[0]] + sorted[1..];
      [sorted[0]] + InsertByTime(e, sorted[1..])
  }

  lemma InsertKeepsTimeBound(b: int, e: Event, sorted: seq<Event>)
    requires TimesAtMost(b, sorted) && e.timestamp <= b
    ensures TimesAtMost(b, InsertByTime(e, sorted))
  {
    var r := InsertByTime(e, sorted);
    forall k | 0 <= k < |r|
      ensures r[k].timestamp <= b
    {
      assert r[k] in multiset(r);
      if r[k] != e {
        assert r[k] in multiset(sorted);
      }
    }
  }

  lemma {:induction false} InsertByTimeSorted(e: Event, sorted: seq<Event>)
    requires SortedByTimeDesc(sorted)
    ensures SortedByTimeDesc(InsertByTime(e, sorted))
    decreases |sorted|
  {
    if |sorted| > 0 && e.timestamp <= sorted[0].timestamp {
      InsertByTimeSorted(e, sorted[1..]);
      InsertKeepsTimeBound(sorted[0].timestamp, e, sorted[1..]);
    }
  }

  /** The events newest first (`order_by(Event.timestamp.desc())`). */
  function NewestFirst(s: seq<Event>): (r: seq<Event>)
    ensures |r| == |s|
    ensures multiset(r) == multiset(s)
    decreases |s|
  {
    if |s| == 0 then []
    else
      assert s == s[..|s| - 1] + [s[|s| - 1]];
      InsertByTime(s[|s| - 1], NewestFirst(s[..|s| - 1]))
  }

  lemma {:induction false} NewestFirstSorted(s: seq<Event>)
    ensures SortedByTimeDesc(NewestFirst(s))
    decreases |s|
  {
    if |s| > 0 {
      NewestFirstSorted(s[..|s| - 1]);
      InsertByTimeSorted(s[|s| - 1], NewestFirst(s[..|s| - 1]));
    }
  }

  predicate InTimeRange(e: Event, lo: int, hi: int)
  {
    lo <= e.timestamp <= hi
  }

  /** The optional filters of `get_filtered_events`; an absent one lets everything through. */
  predicate MatchesFilters(e: Event, floorId: Option<int>, vehicleType: Option<VehicleType>, direction: Option<Direction>)
  {
    (floorId.None? || e.floorId == floorId.value)
    && (vehicleType.None? || e.vehicleType == vehicleType.value)
    && (direction.None? || e.direction == direction.value)
  }

  /** `(events, total_count, filtered_count)`. */
  datatype EventPage = EventPage(events: seq<Event>, totalCount: nat, filteredCount: nat)

  function RecentEvents(events: seq<Event>, now: int, hours: int): seq<Event>
  {
    Filter(events, (e: Event) => InTimeRange(e, now - hours * MicrosPerHour, now))
  }

  function MatchingEvents(events: seq<Event>, now: int, hours: int, floorId: Option<int>,
                          vehicleType: Option<VehicleType>, direction: Option<Direction>): seq<Event>
  {
    Filter(RecentEvents(events, now, hours), (e: Event) => MatchesFilters(e, floorId, vehicleType, direction))
  }

  /**
   * `get_filtered_events`: events of the last `hours` hours, counted before
   * and after the optional filters, newest first, `offset` skipped and at
   * most `limit` kept.
   */
  function FilteredEvents(events: seq<Event>, now: int, hours: int, floorId: Option<int>,
                          vehicleType: Option<VehicleType>, direction: Option<Direction>,
                          limit: nat, offset: nat): (page: EventPage)
    ensures page.totalCount == |RecentEvents(events, now, hours)|
    ensures page.filteredCount == |MatchingEvents(events, now, hours, floorId, vehicleType, direction)|
    ensures page.filteredCount <= page.totalCount
    ensures |page.events| <= limit
    ensures offset <= page.filteredCount ==> |page.events| == Min(limit, page.filteredCount - offset)
    ensures offset >= page.filteredCount ==> page.events == []
    ensures page.events == NewestFirst(MatchingEvents(events, now, hours, floorId, vehicleType, direction))[Min(offset, page.filteredCount)..Min(offset + limit, page.filteredCount)]
  {
    var recent := RecentEvents(events, now, hours);
    var matching := MatchingEvents(events, now, hours, floorId, vehicleType, direction);
    var ordered := NewestFirst(matching);
    var n := |matching|;
    EventPage(ordered[Min(offset, n)..Min(offset + limit, n)], |recent|, n)
  }

  lemma SliceSorted(s: seq<Event>, lo: nat, hi: nat)
    requires SortedByTimeDesc(s) && lo <= hi <= |s|
    ensures SortedByTimeDesc(s[lo..hi])
  {
    var t := s[lo..hi];
    forall i, j | 0 <= i < j < |t|
      ensures t[i].timestamp >= t[j].timestamp
    {
      assert t[i] == s[lo + i] && t[j] == s[lo + j];
    }
  }

  /** An event on a page is a stored, recent event that passes the filters. */
  lemma PageMember(events: seq<Event>, now: int, hours: int, floorId: Option<int>,
                   vehicleType: Option<VehicleType>, direction: Option<Direction>, x: Event)
    requires x in multiset(NewestFirst(MatchingEvents(events, now, hours, floorId, vehicleType, direction)))
    ensures x in events
    ensures InTimeRange(x, now - hours * MicrosPerHour, now)
    ensures MatchesFilters(x, floorId, vehicleType, direction)
  {
    var recent := RecentEvents(events, now, hours);
    assert x in MatchingEvents(events, now, hours, floorId, vehicleType, direction);
    FilterMember(recent, (e: Event) => MatchesFilters(e, floorId, vehicleType, direction), x);
    FilterMember(events, (e: Event) => InTimeRange(e, now - hours * MicrosPerHour, now), x);
  }

  /** Every event on a page is recent, passes the filters, and the page is newest first. */
  lemma FilteredPageMeaning(events: seq<Event>, now: int, hours: int, floorId: Option<int>,
                            vehicleType: Option<VehicleType>, direction: Option<Direction>,
                            limit: nat, offset: nat)
    ensures var page := FilteredEvents(events, now, hours, floorId, vehicleType, direction, limit, offset).events;
      SortedByTimeDesc(page)
      && (forall k :: 0 <= k < |page| ==>
            page[k] in events
            && InTimeRange(page[k], now - hours * MicrosPerHour, now)
            && MatchesFilters(page[k], floorId, vehicleType, direction))
  {
    var matching := MatchingEvents(events, now, hours, floorId, vehicleType, direction);
    var ordered := NewestFirst(matching);
    var n := FilteredEvents(events, now, hours, floorId, vehicleType, direction, limit, offset).filteredCount;
    var lo, hi := Min(offset, n), Min(offset + limit, n);
    var page := ordered[lo..hi];
    NewestFirstSorted(matching);
    SliceSorted(ordered, lo, hi);
    forall k | 0 <= k < |page|
      ensures page[k] in events
      ensures InTimeRange(page[k], now - hours * MicrosPerHour, now)
      ensures MatchesFilters(page[k], floorId, vehicleType, direction)
    {
      assert page[k] == ordered[lo + k];
      PageMember(events, now, hours, floorId, vehicleType, direction, page[k]);
    }
  }

  /** The statistics of the last `hours` hours. */
  datatype EventStatistics = EventStatistics(
    totalEvents: nat,
    entries: nat,
    exits: nat,
    byVehicleType: map<string, nat>,
    byFloor: map<string, nat>)

  function IsEntry(e: Event): bool { e.direction == Entry }
  function IsExit(e: Event): bool { e.direction == Exit }

  /** Events of one vehicle type. */
  function CountOfType(s: seq<Event>, v: VehicleType): (n: nat)
    ensures n <= |s|
    decreases |s|
  {
    if |s| == 0 then 0 else (if s[0].vehicleType == v then 1 else 0) + CountOfType(s[1..], v)
  }

  /** Events on one floor. */
  function CountOnFloor(s: seq<Event>, floorId: int): (n: nat)
    ensures n <= |s|
    decreases |s|
  {
    if |s| == 0 then 0 else (if s[0].floorId == floorId then 1 else 0) + CountOnFloor(s[1..], floorId)
  }

  /** `by_floor`: each floor's name with its event count; a later floor of the same name overwrites. */
  function ByFloor(floors: seq<Floor>, s: seq<Event>): (m: map<string, nat>)
    ensures forall name :: name in m <==> exists k :: 0 <= k < |floors| && floors[k].name == name
    decreases |floors|
  {
    if |floors| == 0 then map[]
    else
      var last := floors[|floors| - 1];
      var m := ByFloor(floors[..|floors| - 1], s);
      assert forall k :: 0 <= k < |floors| - 1 ==> floors[..|floors| - 1][k] == floors[k];
      m[last.name := CountOnFloor(s, last.id)]
  }

  /** No floor after index `k` has the name of floor `k`. */
  predicate LastOfName(floors: seq<Floor>, k: int)
    requires 0 <= k < |floors|
  {
    forall j :: k < j < |floors| ==> floors[j].name != floors[k].name
  }

  /** The entry of a floor name counts the events of the last floor with that name. */
  lemma {:induction false} ByFloorCounts(floors: seq<Floor>, s: seq<Event>, k: int)
    requires 0 <= k < |floors| && LastOfName(floors, k)
    ensures floors[k].name in ByFloor(floors, s)
    ensures ByFloor(floors, s)[floors[k].name] == CountOnFloor(s, floors[k].id)
    decreases |floors|
  {
    var init := floors[..|floors| - 1];
    if k < |init| {
      assert floors[|floors| - 1].name != floors[k].name;
      assert init[k] == floors[k];
      assert forall j :: k < j < |init| ==> init[j] == floors[j];
      ByFloorCounts(init, s, k);
    }
  }

  /** With unique names (backend/app/models/floor.py line 12) every floor's name maps to its own event count. */
  lemma ByFloorUniqueNames(floors: seq<Floor>, s: seq<Event>)
    requires forall i, j :: 0 <= i < j < |floors| ==> floors[i].name != floors[j].name
    ensures forall k :: 0 <= k < |floors| ==>
      floors[k].name in ByFloor(floors, s) && ByFloor(floors, s)[floors[k].name] == CountOnFloor(s, floors[k].id)
  {
    forall k | 0 <= k < |floors|
      ensures floors[k].name in ByFloor(floors, s) && ByFloor(floors, s)[floors[k].name] == CountOnFloor(s, floors[k].id)
    {
      ByFloorCounts(floors, s, k);
    }
  }

  function SinceStart(events: seq<Event>, now: int, hours: int): seq<Event>
  {
    Filter(events, (e: Event) => e.timestamp >= now - hours * MicrosPerHour)
  }

  /** `get_event_statistics`: counts over events since `now - hours`, with no upper bound. */
  function Statistics(events: seq<Event>, floors: seq<Floor>, now: int, hours: int): EventStatistics
  {
    var window := SinceStart(events, now, hours);
    EventStatistics(|window|, Count(window, IsEntry), Count(window, IsExit), ByVehicleType(window), ByFloor(floors, window))
  }

  /** `by_vehicle_type`: the count of each of the four vehicle types. */
  function ByVehicleType(s: seq<Event>): map<string, nat>
  {
    map["car" := CountOfType(s, Car), "motorcycle" := CountOfType(s, Motorcycle),
        "bus" := CountOfType(s, Bus), "truck" := CountOfType(s, Truck)]
  }

  lemma {:induction false} EntriesPlusExits(s: seq<Event>)
    ensures Count(s, IsEntry) + Count(s, IsExit) == |s|
    decreases |s|
  {
    if |s| > 0 {
      EntriesPlusExits(s[1..]);
    }
  }

  lemma {:induction false} TypesPartition(s: seq<Event>)
    ensures CountOfType(s, Car) + CountOfType(s, Motorcycle) + CountOfType(s, Bus) + CountOfType(s, Truck) == |s|
    decreases |s|
  {
    if |s| > 0 {
      TypesPartition(s[1..]);
    }
  }

  /** Entries and exits together, and the four vehicle-type counts together, give the total. */
  lemma StatisticsConsistent(events: seq<Event>, floors: seq<Floor>, now: int, hours: int)
    ensures var st := Statistics(events, floors, now, hours);
      st.entries + st.exits == st.totalEvents
      && st.byVehicleType["car"] + st.byVehicleType["motorcycle"] + st.byVehicleType["bus"] + st.byVehicleType["truck"] == st.totalEvents
  {
    var window := SinceStart(events, now, hours);
    EntriesPlusExits(window);
    TypesPartition(window);
  }

  predicate Recent(cutoff: int, e: Event)
  {
    e.timestamp >= cutoff
  }

  predicate Old(cutoff: int, e: Event)
  {
    e.timestamp < cutoff
  }

  /** The rows a cleanup keeps: those at or after the cutoff, in table order. */
  function KeptRows(s: seq<Event>, cutoff: int): seq<Event>
  {
    Filter(s, (e: Event) => Recent(cutoff, e))
  }

  /** How many rows a cleanup deletes: those before the cutoff. */
  function DeletedRows(s: seq<Event>, cutoff: int): nat
  {
    Count(s, (e: Event) => Old(cutoff, e))
  }

  /** Every row is either kept or deleted. */
  lemma {:induction false} KeptPlusDeleted(s: seq<Event>, cutoff: int)
    ensures |KeptRows(s, cutoff)| + DeletedRows(s, cutoff) == |s|
    decreases |s|
  {
    if |s| > 0 {
      KeptPlusDeleted(s[1..], cutoff);
    }
  }

  /** A cleanup keeps the database's constraints. */
  lemma CleanupKeepsValid(floors: seq<Floor>, events: seq<Event>, nextEventId: int, cutoff: int)
    requires DbValid(floors, events, nextEventId)
    ensures DbValid(floors, KeptRows(events, cutoff), nextEventId)
  {
    var kept := KeptRows(events, cutoff);
    FilterKeepsUnique(events, (e: Event) => Recent(cutoff, e));
    forall k | 0 <= k < |kept|
      ensures ConfidenceInRange(kept[k].confidence) && kept[k].id < nextEventId
      ensures FindFloor(floors, kept[k].floorId).Some?
    {
      var j :| 0 <= j < |events| && events[j] == kept[k];
    }
  }

  /** Keeping some of the rows keeps the rows' uniqueness. */
  lemma {:induction false} FilterKeepsUnique(s: seq<Event>, p: Event -> bool)
    requires KeysUnique(s) && EventIdsUnique(s)
    ensures KeysUnique(Filter(s, p)) && EventIdsUnique(Filter(s, p))
    decreases |s|
  {
    if |s| > 0 {
      UniqueTail(s);
      FilterKeepsUnique(s[1..], p);
      var rest := Filter(s[1..], p);
      if p(s[0]) {
        assert Filter(s, p) == [s[0]] + rest;
        HeadDistinctFromFiltered(s, p);
        ConsUnique(s[0], rest);
      } else {
        assert Filter(s, p) == rest;
      }
    }
  }

  lemma UniqueTail(s: seq<Event>)
    requires KeysUnique(s) && EventIdsUnique(s) && |s| > 0
    ensures KeysUnique(s[1..]) && EventIdsUnique(s[1..])
  {
    assert forall k :: 1 <= k < |s| ==> s[k] == s[1..][k - 1];
  }

  /** The head of a table of unique rows shares neither key nor id with what a filter keeps of the rest. */
  lemma HeadDistinctFromFiltered(s: seq<Event>, p: Event -> bool)
    requires KeysUnique(s) && EventIdsUnique(s) && |s| > 0
    ensures forall e :: e in Filter(s[1..], p) ==> KeyOf(s[0]) != KeyOf(e) && s[0].id != e.id
  {
    var tail := s[1..];
    forall e | e in Filter(tail, p)
      ensures KeyOf(s[0]) != KeyOf(e) && s[0].id != e.id
    {
      FilterMember(tail, p, e);
      var m :| 0 <= m < |tail| && tail[m] == e;
      assert tail[m] == s[m + 1];
    }
  }

  lemma ConsUnique(e: Event, rest: seq<Event>)
    requires KeysUnique(rest) && EventIdsUnique(rest)
    requires forall x :: x in rest ==> KeyOf(e) != KeyOf(x) && e.id != x.id
    ensures KeysUnique([e] + rest) && EventIdsUnique([e] + rest)
  {
    var r := [e] + rest;
    assert forall k :: 1 <= k < |r| ==> r[k] == rest[k - 1];
  }

  // ---------------------------------------------------------------------
  // The database
  // ---------------------------------------------------------------------

  lemma UpdateKeepsFloorsValid(floors: seq<Floor>, i: nat, g: Floor)
    requires FloorModel.TableValid(floors) && i < |floors|
    requires g.id == floors[i].id && g.name == floors[i].name && Constrained(g)
    ensures FloorModel.TableValid(floors[i := g])
  {
  }

  /** Both tables satisfy their constraints, ids are below the next id and every event's floor exists. */
  ghost predicate DbValid(floors: seq<Floor>, events: seq<Event>, nextEventId: int)
  {
    FloorModel.TableValid(floors) && EventModel.TableValid(events)
    && (forall k :: 0 <= k < |events| ==> events[k].id < nextEventId)
    && (forall k :: 0 <= k < |events| ==> FindFloor(floors, events[k].floorId).Some?)
  }

  /** Changing one floor's count keeps the database valid. */
  lemma StepKeepsValid(floors: seq<Floor>, events: seq<Event>, nextEventId: int, i: nat, d: Direction)
    requires DbValid(floors, events, nextEventId) && i < |floors|
    ensures DbValid(floors[i := CountStep(floors[i], d)], events, nextEventId)
  {
    var g := CountStep(floors[i], d);
    CountStepMeaning(floors[i], d);
    UpdateKeepsFloorsValid(floors, i, g);
    forall id
      ensures FindFloor(floors, id) == FindFloor(floors[i := g], id)
    {
      FindFloorSameIds(floors, floors[i := g], id);
    }
  }

  /** Adding an event that the guards and constraints let in keeps the database valid. */
  lemma InsertKeepsValid(floors: seq<Floor>, events: seq<Event>, nextEventId: int, e: Event)
    requires DbValid(floors, events, nextEventId)
    requires FindFloor(floors, e.floorId).Some? && Insertable(events, e) && e.id == nextEventId
    ensures DbValid(floors, events + [e], nextEventId + 1)
  {
    var s := events + [e];
    assert s[|s| - 1] == e;
    assert forall k :: 0 <= k < |events| ==> s[k] == events[k];
  }

  class ParkingDb {
    var floors: seq<Floor>
    var events: seq<Event>
    /** The id the next inserted event receives. */
    var nextEventId: int

    ghost predicate Valid()
      reads this
    {
      DbValid(floors, events, nextEventId)
    }

    constructor(floors: seq<Floor>)
      requires FloorModel.TableValid(floors)
      ensures Valid()
      ensures this.floors == floors && events == [] && nextEventId == 1
    {
      this.floors := floors;
      events := [];
      nextEventId := 1;
    }

    /** `get_all_active_floors`. */
    function ActiveFloors(): (r: seq<Floor>)
      reads this
      ensures forall k :: 0 <= k < |r| ==> r[k].isActive && r[k] in floors
      ensures forall k :: 0 <= k < |floors| && floors[k].isActive ==> floors[k] in r
    {
      Filter(floors, (f: Floor) => f.isActive)
    }

    /**
     * `update_vehicle_count`: None for an unknown floor; otherwise the floor
     * after the guarded step, which is the only row that changes.
     */
    method UpdateVehicleCount(floorId: int, direction: Direction) returns (r: Option<Floor>)
      requires Valid()
      modifies this
      ensures Valid()
      ensures events == old(events) && nextEventId == old(nextEventId)
      ensures old(FindFloor(floors, floorId)).None? ==> r.None? && floors == old(floors)
      ensures old(FindFloor(floors, floorId)).Some? ==>
        var i := old(FindFloor(floors, floorId)).value;
        floors == old(floors)[i := CountStep(old(floors[i]), direction)] && r == Some(floors[i])
    {
      var found := FindFloor(floors, floorId);
      if found.None? {
        return None;
      }
      var i := found.value;
      var g := CountStep(floors[i], direction);
      StepKeepsValid(floors, events, nextEventId, i, direction);
      floors := floors[i := g];
      r := Some(g);
    }

    /**
     * `record_event`, run on its own. The request's timestamp defaults to
     * `now`. An unknown floor, a full floor on entry and an empty floor on
     * exit raise a ValueError; a stored event of the same camera, track,
     * floor and direction within the window is returned as a duplicate; a
     * row the constraints refuse raises an IntegrityError and the count
     * update is rolled back. Only a new event changes the tables: one row
     * is added and the floor's count moves by one.
     */
    method RecordEvent(cameraId: string, floorId: int, trackId: string, vehicleType: VehicleType,
                       direction: Direction, confidence: real, timestamp: Option<int>, now: int,
                       windowSeconds: int)
      returns (r: Result<Recorded, DbError>)
      requires Valid()
      modifies this
      ensures Valid()
      ensures r.Err? || (r.Ok? && r.value.isDuplicate) ==>
        floors == old(floors) && events == old(events) && nextEventId == old(nextEventId)
      ensures old(FindFloor(floors, floorId)).None? ==> r == Err(ValueError(NotFoundMessage(floorId)))
      ensures old(FindFloor(floors, floorId)).Some? ==>
        var i := old(FindFloor(floors, floorId)).value;
        var ts := timestamp.GetOr(now);
        var dup := old(LatestDuplicate(events, cameraId, trackId, floorId, direction, ts, windowSeconds));
        var e := Event(old(nextEventId), cameraId, floorId, trackId, vehicleType, direction, confidence, ts);
        if dup.Some? then r == Ok(Recorded(dup.value, old(floors[i]), true))
        else if !CanStep(old(floors[i]), direction) then r == Err(ValueError(GuardMessage(floorId, direction)))
        else if !Insertable(old(events), e) then r == Err(IntegrityError)
        else
          floors == old(floors)[i := CountStep(old(floors[i]), direction)]
          && r == Ok(Recorded(e, floors[i], false))
          && events == old(events) + [e]
          && nextEventId == old(nextEventId) + 1
    {
      var ts := timestamp.GetOr(now);
      var found := FindFloor(floors, floorId);
      if found.None? {
        return Err(ValueError(NotFoundMessage(floorId)));
      }
      var i := found.value;
      var dup := LatestDuplicate(events, cameraId, trackId, floorId, direction, ts, windowSeconds);
      if dup.Some? {
        return Ok(Recorded(dup.value, floors[i], true));
      }
      if !CanStep(floors[i], direction) {
        return Err(ValueError(GuardMessage(floorId, direction)));
      }
      var e := Event(nextEventId, cameraId, floorId, trackId, vehicleType, direction, confidence, ts);
      if !Insertable(events, e) {
        return Err(IntegrityError);
      }
      var g := CountStep(floors[i], direction);
      InsertKeepsValid(floors, events, nextEventId, e);
      StepKeepsValid(floors, events + [e], nextEventId + 1, i, direction);
      floors := floors[i := g];
      events := events + [e];
      nextEventId := nextEventId + 1;
      r := Ok(Recorded(e, g, false));
    }

    /** `cleanup_old_events`: deletes exactly the events older than `days` days and returns how many. */
    method CleanupOldEvents(now: int, days: int) returns (deleted: nat)
      requires Valid()
      modifies this
      ensures Valid()
      ensures floors == old(floors) && nextEventId == old(nextEventId)
      ensures events == KeptRows(old(events), now - days * MicrosPerDay)
      ensures deleted == DeletedRows(old(events), now - days * MicrosPerDay)
      ensures deleted + |events| == |old(events)|
    {
      var cutoff := now - days * MicrosPerDay;
      var kept := KeptRows(events, cutoff);
      KeptPlusDeleted(events, cutoff);
      CleanupKeepsValid(floors, events, nextEventId, cutoff);
      deleted := |events| - |kept|;
      events := kept;
    }
  }

  /** Rows whose ids agree position by position are found at the same index. */
  lemma {:induction false} FindFloorSameIds(a: seq<Floor>, b: seq<Floor>, id: int)
    requires |a| == |b| && forall k :: 0 <= k < |a| ==> a[k].id == b[k].id
    ensures FindFloor(a, id) == FindFloor(b, id)
    decreases |a|
  {
    if |a| > 0 {
      FindFloorSameIds(a[1..], b[1..], id);
    }
  }

  /**
   * A newly recorded event is the duplicate the same request finds next:
   * when nothing stored matched it, it is the only stored event that does.
   */
  lemma RecordedIsDuplicate(events: seq<Event>, e: Event, windowSeconds: int)
    requires LatestDuplicate(events, e.cameraId, e.trackId, e.floorId, e.direction, e.timestamp, windowSeconds).None?
    ensures LatestDuplicate(events + [e], e.cameraId, e.trackId, e.floorId, e.direction, e.timestamp, windowSeconds) == Some(e)
  {
    var s := events + [e];
    var w := WindowMicros(windowSeconds);
    assert s[|s| - 1] == e;
    assert IsDuplicateOf(e, e.cameraId, e.trackId, e.floorId, e.direction, e.timestamp - w, e.timestamp + w);
    var r := LatestDuplicate(s, e.cameraId, e.trackId, e.floorId, e.direction, e.timestamp, windowSeconds);
    assert r.Some? && r.value in s;
    if r.value != e {
      assert false;
    }
  }

  /**
   * Recording the same vehicle twice counts it once: when the first call
   * stores a new event, the second reports that event as a duplicate and
   * leaves both tables as the first call left them.
   */
  method RecordTwice(db: ParkingDb, cameraId: string, floorId: int, trackId: string, vehicleType: VehicleType,
                     direction: Direction, now: int)
    returns (first: Result<Recorded, DbError>, second: Result<Recorded, DbError>)
    requires db.Valid()
    modifies db
    ensures db.Valid()
    ensures first.Ok? && !first.value.isDuplicate ==>
      second.Ok? && second.value.isDuplicate && second.value.event == first.value.event
      && db.events == old(db.events) + [first.value.event]
  {
    first := db.RecordEvent(cameraId, floorId, trackId, vehicleType, direction, DefaultConfidence, Some(now), now,
                            DefaultIdempotencyWindowSeconds);
    if first.Ok? && !first.value.isDuplicate {
      FindFloorSameIds(old(db.floors), db.floors, floorId);
      RecordedIsDuplicate(old(db.events), first.value.event, DefaultIdempotencyWindowSeconds);
    }
    second := db.RecordEvent(cameraId, floorId, trackId, vehicleType, direction, DefaultConfidence, Some(now), now,
                             DefaultIdempotencyWindowSeconds);
  }
}
