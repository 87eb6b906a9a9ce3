/**
 * The `events` table (backend/app/models/event.py): the vehicle-type and
 * direction enumerations with their stored values, an event's row, and the
 * idempotency and confidence constraints. Every column is non-null, so no
 * field is optional.
 */
module EventModel {
  import opened Wrappers

  datatype VehicleType = Car | Motorcycle | Bus | Truck

  datatype Direction = Entry | Exit

  /** The members in declaration order, as iterating the enumeration yields them. */
  const AllVehicleTypes: seq<VehicleType> := [Car, Motorcycle, Bus, Truck]

  const DefaultConfidence := 0.8

  function VehicleTypeValue(v: VehicleType): string
  {
    match v
    case Car => "car"
    case Motorcycle => "motorcycle"
    case Bus => "bus"
    case Truck => "truck"
  }

  /** `VehicleType(s)`: the member whose value is `s`; None where Python raises ValueError. */
  function ParseVehicleType(s: string): Option<VehicleType>
  {
    if s == "car" then Some(Car)
    else if s == "motorcycle" then Some(Motorcycle)
    else if s == "bus" then Some(Bus)
    else if s == "truck" then Some(Truck)
    else None
  }

  function DirectionValue(d: Direction): string
  {
    match d
    case Entry => "entry"
    case Exit => "exit"
  }

  function ParseDirection(s: string): Option<Direction>
  {
    if s == "entry" then Some(Entry)
    else if s == "exit" then Some(Exit)
    else None
  }

  /** Parsing a stored value gives back its member, and only stored values parse. */
  lemma VehicleTypeRoundTrip(v: VehicleType, s: string)
    ensures ParseVehicleType(VehicleTypeValue(v)) == Some(v)
    ensures ParseVehicleType(s).Some? ==> VehicleTypeValue(ParseVehicleType(s).value) == s
  {
  }

  lemma DirectionRoundTrip(d: Direction, s: string)
    ensures ParseDirection(DirectionValue(d)) == Some(d)
    ensures ParseDirection(s).Some? ==> DirectionValue(ParseDirection(s).value) == s
  {
  }

  /** The enumeration lists each member once. */
  lemma AllVehicleTypesComplete(v: VehicleType)
    ensures v in AllVehicleTypes
    ensures forall i, j :: 0 <= i < j < |AllVehicleTypes| ==> AllVehicleTypes[i] != AllVehicleTypes[j]
  {
  }

  /** One row; `timestamp` is in microseconds. */
  datatype Event = Event(
    id: int,
    cameraId: string,
    floorId: int,
    trackId: string,
    vehicleType: VehicleType,
    direction: Direction,
    confidence: real,
    timestamp: int)

  /** The columns of the `uq_event_idempotency` constraint. */
  datatype IdempotencyKey = IdempotencyKey(cameraId: string, trackId: string, direction: Direction, timestamp: int)

  function KeyOf(e: Event): IdempotencyKey
  {
    IdempotencyKey(e.cameraId, e.trackId, e.direction, e.timestamp)
  }

  /** The `ck_confidence_range` constraint. */
  predicate ConfidenceInRange(c: real)
  {
    0.0 <= c <= 1.0
  }

  predicate KeysUnique(events: seq<Event>)
  {
    forall i, j :: 0 <= i < j < |events| ==> KeyOf(events[i]) != KeyOf(events[j])
  }

  predicate EventIdsUnique(events: seq<Event>)
  {
    forall i, j :: 0 <= i < j < |events| ==> events[i].id != events[j].id
  }

  /** Every row satisfies the constraints and no key is repeated. */
  predicate TableValid(events: seq<Event>)
  {
    (forall i :: 0 <= i < |events| ==> ConfidenceInRange(events[i].confidence))
    && KeysUnique(events) && EventIdsUnique(events)
  }
}
