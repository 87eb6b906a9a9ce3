/**
 * The JSON records the dashboard receives from the backend, as the frontend
 * components read them.
 */
module FrontendData {
  import opened Wrappers

  /** One entry of the `/floors` response. */
  datatype FloorView = FloorView(
    id: int,
    name: string,
    total_slots: int,
    current_vehicles: int,
    available_slots: int)

  /** One entry of the `/events` response; `timestampMs` is None for an unparseable date. */
  datatype EventView = EventView(
    id: int,
    camera_id: string,
    floor_id: int,
    track_id: string,
    vehicle_type: string,
    direction: string,
    timestampMs: Option<int>)

  /** The `/recommend` response. */
  datatype RecommendationView = RecommendationView(
    recommended_floor: FloorView,
    reason: string,
    available_alternatives: seq<FloorView>)

  /** The counts a floor row reports agree with each other. */
  predicate Consistent(f: FloorView)
  {
    0 <= f.current_vehicles <= f.total_slots
    && f.available_slots == f.total_slots - f.current_vehicles
  }
}
