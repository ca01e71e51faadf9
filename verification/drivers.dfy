/**
 The drivers task: every page of the drivers endpoint, then one row per
 driver with ids counted from 1 in fetch order; and the
 `driver_ref -> driver_id` map the qualifying task reads back.
 */
module Drivers {
  import opened Common
  import opened Records
  import opened Lookup
  import opened Pagination

  /** The CSV row written for the driver that received `id`. */
  function DriverRowOf(id: nat, d: DriverItem): DriverRow
  {
    DriverRow(id, d.driverRef, d.givenName, d.familyName, d.dateOfBirth, d.nationality)
  }

  /** `_drivers`: the paginated driver list, numbered from 1. */
  function DriverTable(api: Endpoint<DriverItem>): (rows: seq<DriverRow>)
    ensures |rows| == |Collect(api)|
    ensures forall i :: 0 <= i < |rows| ==> rows[i] == DriverRowOf(i + 1, Collect(api)[i])
  {
    Emit(Collect(api), 1, DriverRowOf)
  }

  /** The (driver_ref, driver_id) columns of a drivers table. */
  function DriverKeys(rows: seq<DriverRow>): seq<(string, nat)>
  {
    seq(|rows|, i requires 0 <= i < |rows| => (rows[i].ref, rows[i].id))
  }

  /** `drivers[row[1]] = int(row[0])` over the rows of the drivers CSV. */
  function DriverMap(rows: seq<DriverRow>): map<string, nat>
  {
    BuildMap(DriverKeys(rows))
  }

  /** No two fetched drivers share a ref. */
  predicate DistinctDriverRefs(drivers: seq<DriverItem>)
  {
    forall i, j :: 0 <= i < j < |drivers| ==> drivers[i].driverRef != drivers[j].driverRef
  }

  /**
   Against a server that serves its driver list in windows of 100, the
   driver at position p of that list (over all pages) gets id p + 1.
   */
  lemma DriverIdIsFetchPosition(all: seq<DriverItem>)
    ensures |DriverTable(Endpoint(Windowed(all)))| == |all|
    ensures forall p :: 0 <= p < |all| ==>
              DriverTable(Endpoint(Windowed(all)))[p] == DriverRowOf(p + 1, all[p])
  {
    CollectWindowed(all);
  }

  /**
   Write-then-read: with distinct refs, the map read back from the drivers
   table sends each fetched driver's ref to its 1-based fetch position and
   knows no other ref.
   */
  lemma DriverMapRoundTrip(api: Endpoint<DriverItem>)
    requires DistinctDriverRefs(Collect(api))
    ensures forall j :: 0 <= j < |Collect(api)| ==>
              Get(DriverMap(DriverTable(api)), Collect(api)[j].driverRef) == Some(j + 1)
    ensures forall d :: (forall j :: 0 <= j < |Collect(api)| ==> Collect(api)[j].driverRef != d) ==>
              Get(DriverMap(DriverTable(api)), d) == None
  {
    var drivers := Collect(api);
    DriverRowsKnownRefs(drivers);
    forall d | (forall j :: 0 <= j < |drivers| ==> drivers[j].driverRef != d)
      ensures Get(DriverMap(DriverTable(api)), d) == None
    {
      DriverRowsUnknownRefs(drivers, d);
    }
  }

  /** Rows numbered from 1 over a driver list with distinct refs read back to each ref's 1-based position. */
  lemma DriverRowsKnownRefs(drivers: seq<DriverItem>)
    requires DistinctDriverRefs(drivers)
    ensures forall j :: 0 <= j < |drivers| ==>
              Get(DriverMap(Emit(drivers, 1, DriverRowOf)), drivers[j].driverRef) == Some(j + 1)
  {
    var pairs := DriverKeys(Emit(drivers, 1, DriverRowOf));
    assert forall j :: 0 <= j < |drivers| ==> pairs[j] == (drivers[j].driverRef, j + 1);
    DenseTableRoundTrip(pairs);
  }

  /** A ref carried by no driver of the list is not a key of the map read back from its rows. */
  lemma DriverRowsUnknownRefs(drivers: seq<DriverItem>, d: string)
    requires forall j :: 0 <= j < |drivers| ==> drivers[j].driverRef != d
    ensures Get(DriverMap(Emit(drivers, 1, DriverRowOf)), d) == None
  {
    var pairs := DriverKeys(Emit(drivers, 1, DriverRowOf));
    assert forall j :: 0 <= j < |pairs| ==> pairs[j].0 != d;
    MissingKeyResolvesToNone(pairs, d);
  }
}
