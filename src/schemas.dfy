/**
 * Request and response schemas of the backend API
 * (backend/app/schemas/__init__.py): the field bounds and defaults of the
 * event-creation body and of the event-query parameters, and the error
 * body's default. A request that breaks a bound is refused with 422 and the
 * names of the offending fields, in field order.
 */
module Schemas {
  import opened Wrappers
  import opened EventModel

  const ValidationStatus := 422
  const DefaultRequestConfidence := 0.95
  const DefaultHours := 24
  const MaxHours := 365 * 24
  const DefaultLimit := 100
  const MaxLimit := 1000
  const DefaultOffset := 0

  /** A validated `EventCreateRequest`. */
  datatype EventCreateRequest = EventCreateRequest(
    cameraId: string,
    floorId: int,
    trackId: string,
    vehicleType: VehicleType,
    direction: Direction,
    confidence: real)

  predicate CreateRequestInBounds(r: EventCreateRequest)
  {
    1 <= |r.cameraId| <= 50 && r.floorId > 0 && 1 <= |r.trackId| <= 100
    && 0.0 <= r.confidence <= 1.0
  }

  /** The names of the fields that break their bounds, in declaration order. */
  function CreateRequestErrors(cameraId: string, floorId: int, trackId: string, vehicleType: string,
                               direction: string, confidence: Option<real>): seq<string>
  {
    var c := confidence.GetOr(DefaultRequestConfidence);
    (if 1 <= |cameraId| <= 50 then [] else ["camera_id"])
    + (if floorId > 0 then [] else ["floor_id"])
    + (if 1 <= |trackId| <= 100 then [] else ["track_id"])
    + (if ParseVehicleType(vehicleType).Some? then [] else ["vehicle_type"])
    + (if ParseDirection(direction).Some? then [] else ["direction"])
    + (if 0.0 <= c <= 1.0 then [] else ["confidence"])
  }

  /** Validation of a POST /event body; an absent confidence is 0.95. */
  function ValidateCreateRequest(cameraId: string, floorId: int, trackId: string, vehicleType: string,
                                 direction: string, confidence: Option<real>): (r: Result<EventCreateRequest, seq<string>>)
    ensures r.Err? ==> |r.error| > 0
  {
    var errors := CreateRequestErrors(cameraId, floorId, trackId, vehicleType, direction, confidence);
    if |errors| > 0 then Err(errors)
    else Ok(EventCreateRequest(cameraId, floorId, trackId, ParseVehicleType(vehicleType).value,
                               ParseDirection(direction).value, confidence.GetOr(DefaultRequestConfidence)))
  }

  /**
   * A body is accepted exactly when every field is within its bounds and
   * both enumerations parse; the accepted request keeps the given values.
   */
  lemma ValidateCreateRequestMeaning(cameraId: string, floorId: int, trackId: string, vehicleType: string,
                                     direction: string, confidence: Option<real>)
    ensures var r := ValidateCreateRequest(cameraId, floorId, trackId, vehicleType, direction, confidence);
      r.Ok? <==> (1 <= |cameraId| <= 50 && floorId > 0 && 1 <= |trackId| <= 100
                  && ParseVehicleType(vehicleType).Some? && ParseDirection(direction).Some?
                  && 0.0 <= confidence.GetOr(DefaultRequestConfidence) <= 1.0)
    ensures var r := ValidateCreateRequest(cameraId, floorId, trackId, vehicleType, direction, confidence);
      r.Ok? ==>
        (CreateRequestInBounds(r.value)
         && r.value.cameraId == cameraId && r.value.trackId == trackId && r.value.floorId == floorId
         && VehicleTypeValue(r.value.vehicleType) == vehicleType && DirectionValue(r.value.direction) == direction
         && (confidence.None? ==> r.value.confidence == DefaultRequestConfidence))
  {
    VehicleTypeRoundTrip(Car, vehicleType);
    DirectionRoundTrip(Entry, direction);
  }

  /** The validated query parameters of GET /events. */
  datatype EventQuery = EventQuery(
    floorId: Option<int>,
    vehicleType: Option<VehicleType>,
    direction: Option<Direction>,
    hours: int,
    limit: int,
    offset: int)

  predicate QueryInBounds(q: EventQuery)
  {
    1 <= q.hours <= MaxHours && 1 <= q.limit <= MaxLimit && q.offset >= 0
    && (q.floorId.Some? ==> q.floorId.value > 0)
  }

  function ParseOptional<T>(raw: Option<string>, parse: string -> Option<T>): Option<Option<T>>
  {
    if raw.None? then Some(None)
    else if parse(raw.value).Some? then Some(parse(raw.value))
    else None
  }

  function QueryErrors(floorId: Option<int>, vehicleType: Option<string>, direction: Option<string>,
                       hours: Option<int>, limit: Option<int>, offset: Option<int>): seq<string>
  {
    (if floorId.None? || floorId.value > 0 then [] else ["floor_id"])
    + (if ParseOptional(vehicleType, ParseVehicleType).Some? then [] else ["vehicle_type"])
    + (if ParseOptional(direction, ParseDirection).Some? then [] else ["direction"])
    + (if 1 <= hours.GetOr(DefaultHours) <= MaxHours then [] else ["hours"])
    + (if 1 <= limit.GetOr(DefaultLimit) <= MaxLimit then [] else ["limit"])
    + (if offset.GetOr(DefaultOffset) >= 0 then [] else ["offset"])
  }

  /** Validation of the GET /events parameters, with defaults 24 hours, limit 100 and offset 0. */
  function ValidateQuery(floorId: Option<int>, vehicleType: Option<string>, direction: Option<string>,
                         hours: Option<int>, limit: Option<int>, offset: Option<int>): (r: Result<EventQuery, seq<string>>)
    ensures r.Err? ==> |r.error| > 0
  {
    var errors := QueryErrors(floorId, vehicleType, direction, hours, limit, offset);
    if |errors| > 0 then Err(errors)
    else Ok(EventQuery(floorId, ParseOptional(vehicleType, ParseVehicleType).value,
                       ParseOptional(direction, ParseDirection).value,
                       hours.GetOr(DefaultHours), limit.GetOr(DefaultLimit), offset.GetOr(DefaultOffset)))
  }

  /** Accepted queries lie within the bounds, and a query within them is accepted. */
  lemma ValidateQueryMeaning(floorId: Option<int>, vehicleType: Option<string>, direction: Option<string>,
                             hours: Option<int>, limit: Option<int>, offset: Option<int>)
    ensures var r := ValidateQuery(floorId, vehicleType, direction, hours, limit, offset);
      r.Ok? <==> (QueryInBounds(EventQuery(floorId, None, None, hours.GetOr(DefaultHours), limit.GetOr(DefaultLimit), offset.GetOr(DefaultOffset)))
                  && (vehicleType.Some? ==> ParseVehicleType(vehicleType.value).Some?)
                  && (direction.Some? ==> ParseDirection(direction.value).Some?))
    ensures var r := ValidateQuery(floorId, vehicleType, direction, hours, limit, offset);
      r.Ok? ==>
        (QueryInBounds(r.value) && r.value.floorId == floorId
         && (hours.None? ==> r.value.hours == DefaultHours)
         && (limit.None? ==> r.value.limit == DefaultLimit)
         && (offset.None? ==> r.value.offset == DefaultOffset))
  {
  }

  /** A query for zero hours is refused, naming the `hours` field. */
  lemma ZeroHoursRefused()
    ensures ValidateQuery(None, None, None, Some(0), None, None) == Err(["hours"])
  {
    var none: Option<string> := None;
    assert ParseOptional(none, ParseVehicleType).Some? && ParseOptional(none, ParseDirection).Some?;
    var hoursOnly: seq<string> := ["hours"];
    assert QueryErrors(None, None, None, Some(0), None, None) == hoursOnly;
  }

  /** The parameterless query is accepted with the defaults. */
  lemma DefaultQuery()
    ensures ValidateQuery(None, None, None, None, None, None) == Ok(EventQuery(None, None, None, 24, 100, 0))
  {
  }

  /** The error body. */
  datatype ErrorResponse = ErrorResponse(success: bool, error: string, detail: Option<string>, statusCode: int)

  /** An error body built without `success` reports failure. */
  function MakeErrorResponse(error: string, detail: Option<string>, statusCode: int): (r: ErrorResponse)
    ensures !r.success
    ensures r.error == error && r.detail == detail && r.statusCode == statusCode
  {
    ErrorResponse(false, error, detail, statusCode)
  }
}
