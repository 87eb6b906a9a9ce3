/**
 * The event log view (frontend/src/components/EventLog.jsx): the floor
 * options offered by the floor filter, the floor / vehicle / time-range
 * filter, and which of loading / error / empty / table is shown.
 */
module EventLog {
  import opened Wrappers
  import opened Strings
  import opened Seqs
  import opened FrontendData

  const AllValues := "all"
  const DefaultRangeHours := 24
  const MsPerHour := 3600000

  /** Each event's floor id as text, as `String(event.floor_id)` gives it. */
  function FloorIds(events: seq<EventView>): (ids: seq<string>)
    ensures |ids| == |events|
    ensures forall i :: 0 <= i < |events| ==> ids[i] == IntToString(events[i].floor_id)
  {
    seq(|events|, i requires 0 <= i < |events| => IntToString(events[i].floor_id))
  }

  /** The floor filter's options: each floor id as text, once, in order of first appearance. */
  function FloorOptions(events: seq<EventView>): (opts: seq<string>)
    ensures NoDuplicates(opts)
    ensures IsSubsequence(opts, FloorIds(events))
    ensures forall i :: 0 <= i < |events| ==> IntToString(events[i].floor_id) in opts
    ensures forall k :: 0 <= k < |opts| ==> exists i :: 0 <= i < |events| && opts[k] == IntToString(events[i].floor_id)
  {
    var ids := FloorIds(events);
    DistinctFromIsSubsequence(ids, {});
    var r := Distinct(ids);
    assert forall k :: 0 <= k < |r| ==> r[k] in ids;
    assert forall i :: 0 <= i < |ids| ==> ids[i] in r;
    r
  }

  /** An event is shown when it is recent enough and matches both selections. */
  predicate Passes(e: EventView, nowMs: int, rangeHours: int, floorFilter: string, vehicleFilter: string)
  {
    var withinTime := e.timestampMs.Some? && nowMs - e.timestampMs.value <= rangeHours * MsPerHour;
    var floorMatch := floorFilter == AllValues || IntToString(e.floor_id) == floorFilter;
    var vehicleMatch := vehicleFilter == AllValues || e.vehicle_type == vehicleFilter;
    withinTime && floorMatch && vehicleMatch
  }

  function FilterEvents(events: seq<EventView>, nowMs: int, rangeHours: int,
                        floorFilter: string, vehicleFilter: string): seq<EventView>
  {
    Filter(events, e => Passes(e, nowMs, rangeHours, floorFilter, vehicleFilter))
  }

  /**
   * The table shows exactly the events passing the filters, in their order:
   * it keeps the order of the input, and an event appears in it exactly when
   * it is in the input and passes.
   */
  lemma FilterEventsExact(events: seq<EventView>, nowMs: int, rangeHours: int,
                          floorFilter: string, vehicleFilter: string)
    ensures var shown := FilterEvents(events, nowMs, rangeHours, floorFilter, vehicleFilter);
      IsSubsequence(shown, events)
      && (forall k :: 0 <= k < |shown| ==> Passes(shown[k], nowMs, rangeHours, floorFilter, vehicleFilter))
      && (forall i :: 0 <= i < |events| && Passes(events[i], nowMs, rangeHours, floorFilter, vehicleFilter)
            ==> events[i] in shown)
  {
    FilterIsSubsequence(events, e => Passes(e, nowMs, rangeHours, floorFilter, vehicleFilter));
  }

  /** Choosing a floor keeps exactly the events of that floor from the unfiltered-floor table. */
  lemma {:induction false} FloorSelectionNarrows(events: seq<EventView>, nowMs: int, rangeHours: int,
                                                 floorId: int, vehicleFilter: string)
    ensures FilterEvents(events, nowMs, rangeHours, IntToString(floorId), vehicleFilter)
         == Filter(FilterEvents(events, nowMs, rangeHours, AllValues, vehicleFilter),
                   (e: EventView) => e.floor_id == floorId)
    decreases |events|
  {
    if |events| > 0 {
      FloorSelectionNarrows(events[1..], nowMs, rangeHours, floorId, vehicleFilter);
      var e := events[0];
      if IntToString(e.floor_id) == IntToString(floorId) {
        IntToStringInjective(e.floor_id, floorId);
      }
      IntToStringSign(floorId);
      assert IntToString(floorId) != AllValues by {
        if floorId >= 0 {
          assert IsDigit(IntToString(floorId)[0]);
        }
      }
      var all := FilterEvents(events, nowMs, rangeHours, AllValues, vehicleFilter);
      if Passes(e, nowMs, rangeHours, AllValues, vehicleFilter) {
        assert all[1..] == FilterEvents(events[1..], nowMs, rangeHours, AllValues, vehicleFilter);
      }
    }
  }

  datatype LogView = Spinner | ErrorPanel(message: string) | NoEvents | Table(rows: seq<EventView>, noMatch: bool)

  /** Loading wins over an error, an error over an empty log; an empty filter result says so. */
  function Render(events: seq<EventView>, loading: bool, error: string, nowMs: int,
                  rangeHours: int, floorFilter: string, vehicleFilter: string): (v: LogView)
    ensures loading ==> v == Spinner
    ensures !loading && error != "" ==> v == ErrorPanel(error)
    ensures !loading && error == "" && |events| == 0 ==> v == NoEvents
    ensures !loading && error == "" && |events| > 0 ==>
              v.Table? && v.rows == FilterEvents(events, nowMs, rangeHours, floorFilter, vehicleFilter)
              && (v.noMatch <==> |v.rows| == 0)
  {
    if loading then Spinner
    else if error != "" then ErrorPanel(error)
    else if |events| == 0 then NoEvents
    else
      var rows := FilterEvents(events, nowMs, rangeHours, floorFilter, vehicleFilter);
      Table(rows, |rows| == 0)
  }

  /** The three events of the component's own filtering scenario. */
  function SampleEvents(nowMs: int): seq<EventView>
  {
    [ EventView(1, "cam-1", 1, "trk-1", "car", "entry", Some(nowMs - 15 * 60 * 1000)),
      EventView(2, "cam-2", 2, "trk-2", "truck", "exit", Some(nowMs - 30 * 60 * 1000)),
      EventView(3, "cam-3", 1, "trk-3", "motorcycle", "entry", Some(nowMs - 8 * 24 * MsPerHour)) ]
  }

  /** A first row that fails the filter is dropped. */
  lemma FilterEventsDrop(e: EventView, rest: seq<EventView>, nowMs: int, rangeHours: int,
                         floorFilter: string, vehicleFilter: string)
    requires !Passes(e, nowMs, rangeHours, floorFilter, vehicleFilter)
    ensures FilterEvents([e] + rest, nowMs, rangeHours, floorFilter, vehicleFilter)
         == FilterEvents(rest, nowMs, rangeHours, floorFilter, vehicleFilter)
  {
    assert ([e] + rest)[1..] == rest;
  }

  /** A first row that passes the filter is kept in front of the filtered rest. */
  lemma FilterEventsKeep(e: EventView, rest: seq<EventView>, nowMs: int, rangeHours: int,
                         floorFilter: string, vehicleFilter: string)
    requires Passes(e, nowMs, rangeHours, floorFilter, vehicleFilter)
    ensures FilterEvents([e] + rest, nowMs, rangeHours, floorFilter, vehicleFilter)
         == [e] + FilterEvents(rest, nowMs, rangeHours, floorFilter, vehicleFilter)
  {
    assert ([e] + rest)[1..] == rest;
  }

  /** Of the sample rows, only the truck's is on floor "2" within the last day; it is shown unless cars are chosen. */
  lemma SamplePasses(nowMs: int, vehicle: string)
    ensures var evs := SampleEvents(nowMs);
      !Passes(evs[0], nowMs, DefaultRangeHours, "2", vehicle)
      && !Passes(evs[2], nowMs, DefaultRangeHours, "2", vehicle)
      && (Passes(evs[1], nowMs, DefaultRangeHours, "2", vehicle) <==> vehicle == AllValues || vehicle == "truck")
  {
    assert IntToString(1) == "1";
    assert IntToString(2) == "2";
    assert "1" != "2" by {
      assert "1"[0] != "2"[0];
    }
  }

  /** Of three rows whose outer two fail the filter, a passing middle one is shown alone. */
  lemma MiddleRowShown(a: EventView, b: EventView, c: EventView, nowMs: int, rangeHours: int,
                       floorFilter: string, vehicleFilter: string)
    requires !Passes(a, nowMs, rangeHours, floorFilter, vehicleFilter)
    requires Passes(b, nowMs, rangeHours, floorFilter, vehicleFilter)
    requires !Passes(c, nowMs, rangeHours, floorFilter, vehicleFilter)
    ensures FilterEvents([a, b, c], nowMs, rangeHours, floorFilter, vehicleFilter) == [b]
  {
    var s2 := [b, c];
    var s1 := [c];
    var s0: seq<EventView> := [];
    assert [a, b, c] == [a] + s2;
    assert s2 == [b] + s1;
    assert s1 == [c] + s0;
    FilterEventsDrop(a, s2, nowMs, rangeHours, floorFilter, vehicleFilter);
    FilterEventsKeep(b, s1, nowMs, rangeHours, floorFilter, vehicleFilter);
    FilterEventsDrop(c, s0, nowMs, rangeHours, floorFilter, vehicleFilter);
    assert FilterEvents(s0, nowMs, rangeHours, floorFilter, vehicleFilter) == [];
  }

  /** Three rows that all fail the filter show nothing. */
  lemma NoRowShown(a: EventView, b: EventView, c: EventView, nowMs: int, rangeHours: int,
                   floorFilter: string, vehicleFilter: string)
    requires !Passes(a, nowMs, rangeHours, floorFilter, vehicleFilter)
    requires !Passes(b, nowMs, rangeHours, floorFilter, vehicleFilter)
    requires !Passes(c, nowMs, rangeHours, floorFilter, vehicleFilter)
    ensures FilterEvents([a, b, c], nowMs, rangeHours, floorFilter, vehicleFilter) == []
  {
    var s2 := [b, c];
    var s1 := [c];
    var s0: seq<EventView> := [];
    assert [a, b, c] == [a] + s2;
    assert s2 == [b] + s1;
    assert s1 == [c] + s0;
    FilterEventsDrop(a, s2, nowMs, rangeHours, floorFilter, vehicleFilter);
    FilterEventsDrop(b, s1, nowMs, rangeHours, floorFilter, vehicleFilter);
    FilterEventsDrop(c, s0, nowMs, rangeHours, floorFilter, vehicleFilter);
    assert FilterEvents(s0, nowMs, rangeHours, floorFilter, vehicleFilter) == [];
  }

  /** Floor "2" over the last day: the truck's row or nothing. */
  lemma SampleFloorTwo(nowMs: int, vehicle: string)
    ensures var evs := SampleEvents(nowMs);
      FilterEvents(evs, nowMs, DefaultRangeHours, "2", vehicle)
        == if vehicle == AllValues || vehicle == "truck" then [evs[1]] else []
  {
    var evs := SampleEvents(nowMs);
    SamplePasses(nowMs, vehicle);
    if vehicle == AllValues || vehicle == "truck" {
      MiddleRowShown(evs[0], evs[1], evs[2], nowMs, DefaultRangeHours, "2", vehicle);
    } else {
      NoRowShown(evs[0], evs[1], evs[2], nowMs, DefaultRangeHours, "2", vehicle);
    }
    assert evs == [evs[0], evs[1], evs[2]];
  }

  /**
   * Over the last 24 hours, floor "2" shows only the truck; adding the truck
   * filter keeps it, and switching to cars leaves no row.
   */
  lemma SampleFiltering(nowMs: int)
    ensures var evs := SampleEvents(nowMs);
      FilterEvents(evs, nowMs, DefaultRangeHours, "2", AllValues) == [evs[1]]
      && FilterEvents(evs, nowMs, DefaultRangeHours, "2", "truck") == [evs[1]]
      && Render(evs, false, "", nowMs, DefaultRangeHours, "2", "car") == Table([], true)
  {
    SampleFloorTwo(nowMs, AllValues);
    SampleFloorTwo(nowMs, "truck");
    SampleFloorTwo(nowMs, "car");
    assert "car" != AllValues && "car" != "truck";
  }

  /** The three early-return guards of the component, in source order. */
  datatype Guard = WhileLoading | OnError | WhenEmpty

  /** A statement of the component body, as far as hooks are concerned. */
  datatype Step = CallHook | ReturnIf(guard: Guard)

  predicate GuardHolds(g: Guard, events: seq<EventView>, loading: bool, error: string)
  {
    match g
    case WhileLoading => loading
    case OnError => error != ""
    case WhenEmpty => |events| == 0
  }

  /** Hooks one render calls: the body runs until the first early return whose guard holds. */
  function HooksCalled(body: seq<Step>, events: seq<EventView>, loading: bool, error: string): nat
    decreases |body|
  {
    if |body| == 0 then 0
    else match body[0]
      case CallHook => 1 + HooksCalled(body[1..], events, loading, error)
      case ReturnIf(g) => if GuardHolds(g, events, loading, error) then 0 else HooksCalled(body[1..], events, loading, error)
  }

  function HookSteps(body: seq<Step>): nat
    decreases |body|
  {
    if |body| == 0 then 0 else (if body[0].CallHook? then 1 else 0) + HookSteps(body[1..])
  }

  /** No hook follows an early return. */
  predicate HooksFirst(body: seq<Step>)
  {
    forall i, j :: 0 <= i < j < |body| && body[i].ReturnIf? ==> body[j].ReturnIf?
  }

  /** The body as written (EventLog.jsx lines 5-45): three `useState`, three guards, then two `useMemo`. */
  const AsWrittenBody: seq<Step> :=
    [CallHook, CallHook, CallHook, ReturnIf(WhileLoading), ReturnIf(OnError), ReturnIf(WhenEmpty), CallHook, CallHook]

  /** The corrected body: both `useMemo` calls moved above the guards. */
  const CorrectedBody: seq<Step> :=
    [CallHook, CallHook, CallHook, CallHook, CallHook, ReturnIf(WhileLoading), ReturnIf(OnError), ReturnIf(WhenEmpty)]

  /** A body whose hooks all precede its early returns calls every one of its hooks on every render. */
  lemma {:induction false} HooksFirstCallsAll(body: seq<Step>, events: seq<EventView>, loading: bool, error: string)
    requires HooksFirst(body)
    ensures HooksCalled(body, events, loading, error) == HookSteps(body)
    decreases |body|
  {
    if |body| > 0 {
      var rest := body[1..];
      assert forall i, j :: 0 <= i < j < |rest| && rest[i].ReturnIf? ==> rest[j].ReturnIf? by {
        forall i, j | 0 <= i < j < |rest| && rest[i].ReturnIf?
          ensures rest[j].ReturnIf?
        {
          assert rest[i] == body[i + 1] && rest[j] == body[j + 1];
        }
      }
      HooksFirstCallsAll(rest, events, loading, error);
      if body[0].ReturnIf? {
        NoHookSteps(body);
      }
    }
  }

  /** A body of early returns only has no hooks. */
  lemma {:induction false} NoHookSteps(body: seq<Step>)
    requires forall j :: 0 <= j < |body| ==> body[j].ReturnIf?
    ensures HookSteps(body) == 0
    decreases |body|
  {
    if |body| > 0 {
      assert forall j :: 0 <= j < |body| - 1 ==> body[1..][j] == body[j + 1];
      NoHookSteps(body[1..]);
    }
  }

  /**
   * React requires every render of a mounted component to call the same
   * hooks: as written, a log that is mounted while empty (or loading) and
   * then receives its first event calls two more hooks than before.
   */
  lemma HookCountChangesAsWritten(e: EventView)
    ensures HooksCalled(AsWrittenBody, [], false, "") == 3 && HooksCalled(AsWrittenBody, [e], false, "") == 5
    ensures HooksCalled(AsWrittenBody, [e], true, "") == 3
  {
  }

  /** With the hooks first, every render calls all five hooks, whatever the props. */
  lemma HookCountStable(events: seq<EventView>, loading: bool, error: string)
    ensures HooksCalled(CorrectedBody, events, loading, error) == 5
  {
    assert HooksFirst(CorrectedBody);
    HooksFirstCallsAll(CorrectedBody, events, loading, error);
  }
}
