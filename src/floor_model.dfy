/**
 * The `floors` table (backend/app/models/floor.py): a floor's row, the
 * table's check and uniqueness constraints, and the two computed properties.
 */
module FloorModel {
  import opened Numbers

  datatype Floor = Floor(
    id: int,
    name: string,
    description: string,
    totalSlots: int,
    currentVehicles: int,
    isActive: bool)

  /** The table's check constraints. */
  predicate Constrained(f: Floor)
  {
    f.totalSlots >= 0 && 0 <= f.currentVehicles <= f.totalSlots
  }

  /** `available_slots`: free slots, never negative. */
  function AvailableSlots(f: Floor): (n: nat)
    ensures n as int >= f.totalSlots - f.currentVehicles
    ensures n > 0 ==> n as int == f.totalSlots - f.currentVehicles
  {
    Max(0, f.totalSlots - f.currentVehicles)
  }

  /** `occupancy_percentage`: vehicles per slot, in percent; 0 without slots. */
  function OccupancyPercentage(f: Floor): (p: real)
    ensures f.totalSlots == 0 ==> p == 0.0
    ensures f.totalSlots != 0 ==> p * f.totalSlots as real == f.currentVehicles as real * 100.0
  {
    if f.totalSlots == 0 then 0.0
    else (f.currentVehicles as real / f.totalSlots as real) * 100.0
  }

  /** Under the constraints, free slots are exactly the unused ones and occupancy is a percentage. */
  lemma ConstrainedFloor(f: Floor)
    requires Constrained(f)
    ensures AvailableSlots(f) as int == f.totalSlots - f.currentVehicles
    ensures AvailableSlots(f) as int <= f.totalSlots
    ensures 0.0 <= OccupancyPercentage(f) <= 100.0
  {
    if f.totalSlots != 0 {
      PercentageBounds(OccupancyPercentage(f), f.currentVehicles as real, f.totalSlots as real);
    }
  }

  /** Occupancy grows with the number of vehicles. */
  lemma OccupancyMonotone(f: Floor, more: int)
    requires f.totalSlots > 0 && f.currentVehicles <= more
    ensures OccupancyPercentage(f) <= OccupancyPercentage(f.(currentVehicles := more))
  {
    var p := OccupancyPercentage(f);
    var q := OccupancyPercentage(f.(currentVehicles := more));
    assert p * f.totalSlots as real <= q * f.totalSlots as real;
  }

  /** The `uq_floor_name` constraint. */
  predicate NamesUnique(floors: seq<Floor>)
  {
    forall i, j :: 0 <= i < j < |floors| ==> floors[i].name != floors[j].name
  }

  /** The primary key. */
  predicate IdsUnique(floors: seq<Floor>)
  {
    forall i, j :: 0 <= i < j < |floors| ==> floors[i].id != floors[j].id
  }

  /** Every row satisfies the constraints and no key is repeated. */
  predicate TableValid(floors: seq<Floor>)
  {
    (forall i :: 0 <= i < |floors| ==> Constrained(floors[i])) && NamesUnique(floors) && IdsUnique(floors)
  }
}
