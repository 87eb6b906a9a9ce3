/**
 * The floor occupancy table (frontend/src/components/FloorStatus.jsx): which
 * of loading / error / empty / rows is shown, and each row's occupancy
 * percentage and colour band.
 */
module FloorStatus {
  import opened FrontendData
  import opened Numbers

  /** A row's occupancy percentage, 0 for a floor without capacity. */
  function RowOccupancy(f: FloorView): (p: real)
    ensures f.total_slots <= 0 ==> p == 0.0
    ensures Consistent(f) ==> 0.0 <= p <= 100.0
  {
    if f.total_slots > 0 then
      assert Consistent(f) ==> f.current_vehicles as real <= f.total_slots as real;
      f.current_vehicles as real / f.total_slots as real * 100.0
    else 0.0
  }

  datatype Band = Green | Yellow | Red

  function BandOf(percent: real): Band
  {
    if percent < 50.0 then Green else if percent < 80.0 then Yellow else Red
  }

  /** The three bands split the percentages at 50 and 80. */
  lemma BandThresholds(percent: real)
    ensures BandOf(percent) == Green <==> percent < 50.0
    ensures BandOf(percent) == Yellow <==> 50.0 <= percent < 80.0
    ensures BandOf(percent) == Red <==> percent >= 80.0
  {
  }

  /** A fuller floor is never shown in a calmer band. */
  lemma BandMonotone(p: real, q: real)
    requires p <= q
    ensures BandOf(p) == Red ==> BandOf(q) == Red
    ensures BandOf(q) == Green ==> BandOf(p) == Green
  {
  }

  datatype Row = Row(floor: FloorView, percent: int, band: Band)

  function RowOf(f: FloorView): Row
  {
    Row(f, JsRound(RowOccupancy(f)), BandOf(RowOccupancy(f)))
  }

  datatype TableView = Spinner | ErrorPanel(message: string) | NoFloors | Table(rows: seq<Row>)

  /** Loading wins over an error, an error over an empty list; otherwise one row per floor, in order. */
  function Render(floors: seq<FloorView>, loading: bool, error: string): (v: TableView)
    ensures loading ==> v == Spinner
    ensures !loading && error != "" ==> v == ErrorPanel(error)
    ensures !loading && error == "" && |floors| == 0 ==> v == NoFloors
    ensures !loading && error == "" && |floors| > 0 ==>
              v.Table? && |v.rows| == |floors|
              && forall i :: 0 <= i < |floors| ==> v.rows[i] == RowOf(floors[i])
  {
    if loading then Spinner
    else if error != "" then ErrorPanel(error)
    else if |floors| == 0 then NoFloors
    else Table(seq(|floors|, i requires 0 <= i < |floors| => RowOf(floors[i])))
  }

  /** The colour and the shown percentage agree: red rows show at least 80%, green ones at most 50%. */
  lemma RowDisplayAgrees(f: FloorView)
    ensures RowOf(f).band == Red ==> RowOf(f).percent >= 80
    ensures RowOf(f).band == Green ==> RowOf(f).percent <= 50
    ensures Consistent(f) ==> 0 <= RowOf(f).percent <= 100
  {
  }
}
