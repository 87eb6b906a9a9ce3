/**
 * Initial data (backend/app/core/seed.py): four floors for an empty floor
 * table, then fifteen sample events spread over the active floors, after
 * which each active floor's vehicle count is rebuilt from its events. The
 * database is the in-memory `ParkingDb`; the seeding time is a parameter.
 */
module Seed {
  import opened Numbers
  import opened Strings
  import opened Seqs
  import opened FloorModel
  import opened EventModel
  import DatabaseOps

  const SampleEventCount := 15
  /** Sample events are ten minutes apart, starting two hours before the seeding time (in microseconds). */
  const SampleSpacingMicros := 600_000_000
  const SampleLeadMicros := 7_200_000_000

  /** The seeded floors, with the ids an empty table hands out. */
  const SeedFloorTable: seq<Floor> := [
    Floor(1, "Ground Floor", "Main parking level at ground floor - Main entry/exit point", 50, 0, true),
    Floor(2, "First Floor", "First level above ground - Accessible via ramp", 45, 0, true),
    Floor(3, "Second Floor", "Second level above ground - Premium spot area", 40, 0, true),
    Floor(4, "Basement Level 1", "Underground level 1 - Cool storage area", 60, 0, false)]

  /** Four empty floors with distinct names, of which only the last is inactive. */
  lemma SeedFloorTableValid()
    ensures FloorModel.TableValid(SeedFloorTable)
    ensures |SeedFloorTable| == 4
    ensures forall k :: 0 <= k < |SeedFloorTable| ==> (SeedFloorTable[k].isActive <==> k < 3)
    ensures forall k :: 0 <= k < |SeedFloorTable| ==> SeedFloorTable[k].currentVehicles == 0
  {
    var t := SeedFloorTable;
    assert t[0].name[0] == 'G' && t[1].name[0] == 'F' && t[2].name[0] == 'S' && t[3].name[0] == 'B';
    assert t[1].name[1] == 'i' && t[0].name[1] == 'r';
  }

  // ---------------------------------------------------------------------
  // The sample events
  // ---------------------------------------------------------------------

  function SampleCamera(i: nat): string
  {
    "cam_00" + IntToString(i % 3 + 1)
  }

  function SampleTrack(i: nat): string
  {
    "track_" + ZeroPad(i, 5)
  }

  function SampleDirection(i: nat): Direction
  {
    if i % 2 == 0 then Entry else Exit
  }

  function SampleConfidence(i: nat): real
  {
    0.85 + (i % 10) as real * 0.01
  }

  /** Event `i`, on the `i mod n`-th active floor, with the `i mod 4`-th vehicle type. */
  function SampleEvent(active: seq<Floor>, base: int, firstId: int, i: nat): Event
    requires |active| > 0
  {
    Event(firstId + i, SampleCamera(i), active[i % |active|].id, SampleTrack(i), AllVehicleTypes[i % 4],
          SampleDirection(i), SampleConfidence(i), base + i * SampleSpacingMicros)
  }

  function SampleEvents(active: seq<Floor>, base: int, firstId: int): (r: seq<Event>)
    requires |active| > 0
    ensures |r| == SampleEventCount
  {
    seq(SampleEventCount, i requires 0 <= i < SampleEventCount => SampleEvent(active, base, firstId, i))
  }

  /** Sample tracks are pairwise distinct. */
  lemma SampleTracksDistinct(i: nat, j: nat)
    ensures SampleTrack(i) == SampleTrack(j) ==> i == j
  {
    if SampleTrack(i) == SampleTrack(j) {
      var prefix := "track_";
      assert ZeroPad(i, 5) == SampleTrack(i)[|prefix|..];
      assert ZeroPad(j, 5) == SampleTrack(j)[|prefix|..];
      ZeroPadInjective(i, j, 5);
    }
  }

  /** A run of alternating directions starting at `offset` counts its even positions as entries. */
  lemma {:induction false} AlternatingEntries(s: seq<Event>, offset: nat)
    requires forall k :: 0 <= k < |s| ==> s[k].direction == SampleDirection(offset + k)
    ensures Count(s, DatabaseOps.IsEntry) == if offset % 2 == 0 then (|s| + 1) / 2 else |s| / 2
    decreases |s|
  {
    if |s| > 0 {
      assert forall k :: 0 <= k < |s| - 1 ==> s[1..][k] == s[k + 1];
      AlternatingEntries(s[1..], offset + 1);
    }
  }

  /** Each sample event's place in the sequence decides its fields. */
  lemma SampleEventAt(active: seq<Floor>, base: int, firstId: int, i: nat)
    requires |active| > 0 && i < SampleEventCount
    ensures SampleEvents(active, base, firstId)[i] == SampleEvent(active, base, firstId, i)
  {
  }

  /** The sample is eight entries and seven exits. */
  lemma SampleDirections(active: seq<Floor>, base: int, firstId: int)
    requires |active| > 0
    ensures Count(SampleEvents(active, base, firstId), DatabaseOps.IsEntry) == 8
    ensures Count(SampleEvents(active, base, firstId), DatabaseOps.IsExit) == 7
  {
    var s := SampleEvents(active, base, firstId);
    forall k | 0 <= k < |s|
      ensures s[k].direction == SampleDirection(k)
    {
      SampleEventAt(active, base, firstId, k);
    }
    AlternatingEntries(s, 0);
    DatabaseOps.EntriesPlusExits(s);
  }

  /**
   * Sample events have distinct track ids, confidences in range and
   * strictly increasing timestamps; exactly the last two are dated after
   * the seeding time.
   */
  lemma SampleEventsMeaning(active: seq<Floor>, now: int, firstId: int, i: nat, j: nat)
    requires |active| > 0 && i < j < SampleEventCount
    ensures var s := SampleEvents(active, now - SampleLeadMicros, firstId);
      s[i].trackId != s[j].trackId && s[i].timestamp < s[j].timestamp && s[i].id < s[j].id
    ensures var s := SampleEvents(active, now - SampleLeadMicros, firstId);
      ConfidenceInRange(s[i].confidence) && (s[i].timestamp > now <==> i >= 13)
  {
    SampleEventAt(active, now - SampleLeadMicros, firstId, i);
    SampleEventAt(active, now - SampleLeadMicros, firstId, j);
    SampleTracksDistinct(i, j);
  }

  /** The sample keeps both tables' constraints, references existing floors and uses ids from `firstId`. */
  lemma SampleEventsValid(floors: seq<Floor>, active: seq<Floor>, base: int, firstId: int)
    requires |active| > 0 && forall k :: 0 <= k < |active| ==> active[k] in floors
    ensures EventModel.TableValid(SampleEvents(active, base, firstId))
    ensures var s := SampleEvents(active, base, firstId);
      forall k :: 0 <= k < |s| ==> s[k].id < firstId + SampleEventCount && DatabaseOps.FindFloor(floors, s[k].floorId).Some?
  {
    var s := SampleEvents(active, base, firstId);
    forall k | 0 <= k < |s|
      ensures DatabaseOps.FindFloor(floors, s[k].floorId).Some?
    {
      var f := active[k % |active|];
      assert f in floors;
      var m :| 0 <= m < |floors| && floors[m] == f;
      assert floors[m].id == s[k].floorId;
    }
    assert KeysUnique(s) by {
      forall i, j | 0 <= i < j < |s|
        ensures KeyOf(s[i]) != KeyOf(s[j])
      {
        assert s[i].timestamp < s[j].timestamp;
      }
    }
  }

  // ---------------------------------------------------------------------
  // Rebuilding the counts
  // ---------------------------------------------------------------------

  function EntriesOn(events: seq<Event>, floorId: int): nat
  {
    Count(events, (e: Event) => e.floorId == floorId && e.direction == Entry)
  }

  function ExitsOn(events: seq<Event>, floorId: int): nat
  {
    Count(events, (e: Event) => e.floorId == floorId && e.direction == Exit)
  }

  /** A floor's count rebuilt from its events: entries minus exits, clamped to the floor's capacity. */
  function RebuiltCount(f: Floor, events: seq<Event>): (n: int)
    ensures f.totalSlots >= 0 ==> 0 <= n <= f.totalSlots
    ensures 0 <= EntriesOn(events, f.id) - ExitsOn(events, f.id) <= f.totalSlots ==>
      n == EntriesOn(events, f.id) - ExitsOn(events, f.id)
    ensures EntriesOn(events, f.id) <= ExitsOn(events, f.id) ==> n == Min(0, f.totalSlots)
  {
    Min(Max(0, EntriesOn(events, f.id) - ExitsOn(events, f.id)), f.totalSlots)
  }

  /** The table after rebuilding: active floors get their rebuilt count, inactive ones keep theirs. */
  function Rebuilt(floors: seq<Floor>, events: seq<Event>): (r: seq<Floor>)
    ensures |r| == |floors|
  {
    seq(|floors|, k requires 0 <= k < |floors| =>
      if floors[k].isActive then floors[k].(currentVehicles := RebuiltCount(floors[k], events)) else floors[k])
  }

  /** Rebuilding keeps the table's constraints and changes nothing but counts. */
  lemma RebuiltValid(floors: seq<Floor>, events: seq<Event>)
    requires FloorModel.TableValid(floors)
    ensures FloorModel.TableValid(Rebuilt(floors, events))
    ensures forall k :: 0 <= k < |floors| ==>
      Rebuilt(floors, events)[k] == floors[k].(currentVehicles := Rebuilt(floors, events)[k].currentVehicles)
  {
    var r := Rebuilt(floors, events);
    forall k | 0 <= k < |r|
      ensures Constrained(r[k])
    {
      assert Constrained(floors[k]);
    }
  }

  // ---------------------------------------------------------------------
  // The seeding steps
  // ---------------------------------------------------------------------

  lemma NoFloorsNoEvents(events: seq<Event>, nextEventId: int)
    requires DatabaseOps.DbValid([], events, nextEventId)
    ensures events == []
  {
    HeadTail(events);
  }

  /** `seed_floors`: an empty floor table receives the four seeded floors; otherwise nothing changes. */
  method SeedFloors(db: DatabaseOps.ParkingDb)
    requires db.Valid()
    modifies db
    ensures db.Valid()
    ensures |old(db.floors)| > 0 ==> db.floors == old(db.floors)
    ensures |old(db.floors)| == 0 ==> db.floors == SeedFloorTable
    ensures db.events == old(db.events) && db.nextEventId == old(db.nextEventId)
  {
    if |db.floors| > 0 {
      return;
    }
    NoFloorsNoEvents(db.events, db.nextEventId);
    var k := 0;
    while k < |SeedFloorTable|
      invariant 0 <= k <= |SeedFloorTable|
      invariant db.floors == SeedFloorTable[..k]
      invariant db.events == old(db.events) && db.nextEventId == old(db.nextEventId)
    {
      db.floors := db.floors + [SeedFloorTable[k]];
      k := k + 1;
    }
    SeedFloorTableValid();
  }

  /**
   * `seed_sample_events`: with no stored event and some active floor, adds
   * the fifteen sample events and rebuilds every active floor's count;
   * otherwise nothing changes.
   */
  method SeedSampleEvents(db: DatabaseOps.ParkingDb, now: int)
    requires db.Valid()
    modifies db
    ensures db.Valid()
    ensures (|old(db.events)| > 0 || |old(db.ActiveFloors())| == 0) ==>
      db.floors == old(db.floors) && db.events == old(db.events) && db.nextEventId == old(db.nextEventId)
    ensures (|old(db.events)| == 0 && |old(db.ActiveFloors())| > 0) ==>
      (db.events == SampleEvents(old(db.ActiveFloors()), now - SampleLeadMicros, old(db.nextEventId))
       && db.nextEventId == old(db.nextEventId) + SampleEventCount
       && db.floors == Rebuilt(old(db.floors), db.events))
  {
    if |db.events| > 0 {
      return;
    }
    var active := db.ActiveFloors();
    if |active| == 0 {
      return;
    }
    ghost var floors0 := db.floors;
    assert FloorModel.TableValid(floors0);
    var base := now - SampleLeadMicros;
    var firstId := db.nextEventId;
    var added := BuildSample(active, base, firstId);
    var table := RebuildCounts(db.floors, added);
    db.events := added;
    db.nextEventId := firstId + SampleEventCount;
    db.floors := table;
    SeedKeepsValid(floors0, active, base, firstId);
  }

  /** The sample events, built one at a time. */
  method BuildSample(active: seq<Floor>, base: int, firstId: int) returns (added: seq<Event>)
    requires |active| > 0
    ensures added == SampleEvents(active, base, firstId)
  {
    added := [];
    var i := 0;
    while i < SampleEventCount
      invariant 0 <= i <= SampleEventCount && |added| == i
      invariant forall j :: 0 <= j < i ==> added[j] == SampleEvent(active, base, firstId, j)
    {
      added := added + [SampleEvent(active, base, firstId, i)];
      i := i + 1;
    }
    ghost var sample := SampleEvents(active, base, firstId);
    assert forall j :: 0 <= j < |added| ==> added[j] == sample[j];
  }

  /** The floor table with each active floor's count rebuilt from the events, one floor at a time. */
  method RebuildCounts(floors: seq<Floor>, events: seq<Event>) returns (table: seq<Floor>)
    ensures table == Rebuilt(floors, events)
  {
    table := floors;
    ghost var target := Rebuilt(floors, events);
    var k := 0;
    while k < |table|
      invariant 0 <= k <= |floors| && |table| == |floors|
      invariant forall j :: 0 <= j < k ==> table[j] == target[j]
      invariant forall j :: k <= j < |floors| ==> table[j] == floors[j]
    {
      if table[k].isActive {
        table := table[k := table[k].(currentVehicles := RebuiltCount(table[k], events))];
      }
      k := k + 1;
    }
    assert forall j :: 0 <= j < |table| ==> table[j] == target[j];
  }

  /** The seeded state satisfies the database's constraints. */
  lemma SeedKeepsValid(floors: seq<Floor>, active: seq<Floor>, base: int, firstId: int)
    requires FloorModel.TableValid(floors)
    requires |active| > 0 && forall k :: 0 <= k < |active| ==> active[k] in floors
    ensures var sample := SampleEvents(active, base, firstId);
      DatabaseOps.DbValid(Rebuilt(floors, sample), sample, firstId + SampleEventCount)
  {
    var sample := SampleEvents(active, base, firstId);
    var target := Rebuilt(floors, sample);
    SampleEventsValid(floors, active, base, firstId);
    RebuiltValid(floors, sample);
    forall m | 0 <= m < |sample|
      ensures DatabaseOps.FindFloor(target, sample[m].floorId).Some?
    {
      DatabaseOps.FindFloorSameIds(floors, target, sample[m].floorId);
    }
  }
}
