/**
 * The capacity summary cards (frontend/src/components/AvailableSlots.jsx):
 * total, occupied and available slots summed over the floors, and the
 * occupancy percentage rounded with `Math.round`.
 */
module AvailableSlots {
  import opened FrontendData
  import opened Numbers

  /** Sum of one count over the floors, as `reduce` adds it. */
  function Sum(floors: seq<FloorView>, count: FloorView -> int): int
    decreases |floors|
  {
    if |floors| == 0 then 0 else Sum(floors[..|floors| - 1], count) + count(floors[|floors| - 1])
  }

  function Capacity(f: FloorView): int { f.total_slots }
  function Occupied(f: FloorView): int { f.current_vehicles }
  function Available(f: FloorView): int { f.available_slots }

  function TotalSlots(floors: seq<FloorView>): int
  {
    Sum(floors, Capacity)
  }

  function OccupiedSlots(floors: seq<FloorView>): int
  {
    Sum(floors, Occupied)
  }

  function AvailableSlots(floors: seq<FloorView>): int
  {
    Sum(floors, Available)
  }

  /** The occupancy card: the nearest whole percentage, 0 without capacity. */
  function OccupancyPercent(floors: seq<FloorView>): (p: int)
    ensures TotalSlots(floors) <= 0 ==> p == 0
    ensures TotalSlots(floors) > 0 ==>
      var exact := OccupiedSlots(floors) as real / TotalSlots(floors) as real * 100.0;
      p as real - 0.5 <= exact < p as real + 0.5
  {
    var total := TotalSlots(floors);
    if total > 0 then JsRound(OccupiedSlots(floors) as real / total as real * 100.0) else 0
  }

  datatype SlotsView =
    | Skeleton
    | Cards(total: int, occupied: int, available: int, occupancyPercent: int)

  function Render(floors: seq<FloorView>, loading: bool): (v: SlotsView)
    ensures loading <==> v.Skeleton?
  {
    if loading then Skeleton
    else Cards(TotalSlots(floors), OccupiedSlots(floors), AvailableSlots(floors), OccupancyPercent(floors))
  }

  lemma {:induction false} SumAppend(a: seq<FloorView>, b: seq<FloorView>, count: FloorView -> int)
    ensures Sum(a + b, count) == Sum(a, count) + Sum(b, count)
    decreases |b|
  {
    if |b| > 0 {
      assert (a + b)[..|a + b| - 1] == a + b[..|b| - 1];
      SumAppend(a, b[..|b| - 1], count);
    } else {
      assert a + b == a;
    }
  }

  /** The sums do not depend on the order of the floors. */
  lemma {:induction false} SumPermutation(a: seq<FloorView>, b: seq<FloorView>, count: FloorView -> int)
    requires multiset(a) == multiset(b)
    ensures Sum(a, count) == Sum(b, count)
    decreases |a|
  {
    if |a| > 0 {
      var x := a[|a| - 1];
      assert x in multiset(b);
      var i :| 0 <= i < |b| && b[i] == x;
      var rest := b[..i] + b[i + 1..];
      assert b == b[..i] + [x] + b[i + 1..];
      assert a == a[..|a| - 1] + [x];
      assert multiset(b) == multiset(b[..i]) + multiset{x} + multiset(b[i + 1..]);
      assert multiset(a) == multiset(a[..|a| - 1]) + multiset{x};
      assert multiset(rest) == multiset(b[..i]) + multiset(b[i + 1..]);
      assert multiset(rest) == multiset(b) - multiset{x};
      assert multiset(a[..|a| - 1]) == multiset(a) - multiset{x};
      SumPermutation(a[..|a| - 1], rest, count);
      SumAppend(b[..i] + [x], b[i + 1..], count);
      SumAppend(b[..i], [x], count);
      SumAppend(b[..i], b[i + 1..], count);
      assert Sum([x], count) == count(x) by {
        assert [x][..0] == [];
      }
    }
  }

  /** When every floor reports consistent counts, available = capacity - occupied, and occupancy stays within 0..100. */
  lemma {:induction false} ConsistentTotals(floors: seq<FloorView>)
    requires forall i :: 0 <= i < |floors| ==> Consistent(floors[i])
    ensures AvailableSlots(floors) == TotalSlots(floors) - OccupiedSlots(floors)
    ensures 0 <= OccupiedSlots(floors) <= TotalSlots(floors)
    ensures 0 <= OccupancyPercent(floors) <= 100
    decreases |floors|
  {
    if |floors| > 0 {
      ConsistentTotals(floors[..|floors| - 1]);
    }
    var total := TotalSlots(floors);
    if total > 0 {
      QuotientPercentBounds(OccupiedSlots(floors) as real, total as real);
    }
  }

  /** Floors (50, 30, 20) and (40, 10, 30) show 90 slots, 40 occupied, 50 available and 44%. */
  lemma SampleFloors()
    ensures Render([FloorView(1, "A", 50, 30, 20), FloorView(2, "B", 40, 10, 30)], false)
         == Cards(90, 40, 50, 44)
  {
    var floors := [FloorView(1, "A", 50, 30, 20), FloorView(2, "B", 40, 10, 30)];
    assert floors[..1] == [FloorView(1, "A", 50, 30, 20)];
    assert floors[..1][..0] == [];
    assert Sum([FloorView(1, "A", 50, 30, 20)], Capacity) == 50;
    assert Sum([FloorView(1, "A", 50, 30, 20)], Occupied) == 30;
    assert Sum([FloorView(1, "A", 50, 30, 20)], Available) == 20;
    JsRoundUnique(40.0 / 90.0 * 100.0, 44);
  }
}
