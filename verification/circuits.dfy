/**
 The circuits task (one request, `limit=100`, no pagination) and the
 `circuit_ref -> circuit_id` map the races task reads back from its CSV.
 */
module Circuits {
  import opened Common
  import opened Records
  import opened Lookup

  /** The CSV row written for the circuit that received `id`. */
  function CircuitRowOf(id: nat, c: CircuitItem): CircuitRow
  {
    CircuitRow(id, c.circuitRef, c.name, c.country)
  }

  /** `_circuits`: one row per fetched circuit, ids counted from 1 in response order. */
  function CircuitTable(items: seq<CircuitItem>): (rows: seq<CircuitRow>)
    ensures |rows| == |items|
    ensures forall i :: 0 <= i < |items| ==> rows[i].id == i + 1 && rows[i].ref == items[i].circuitRef
    ensures forall i :: 0 <= i < |items| ==> rows[i].name == items[i].name && rows[i].country == items[i].country
  {
    Emit(items, 1, CircuitRowOf)
  }

  /** The (circuit_ref, circuit_id) columns of a circuits table. */
  function CircuitKeys(rows: seq<CircuitRow>): seq<(string, nat)>
  {
    seq(|rows|, i requires 0 <= i < |rows| => (rows[i].ref, rows[i].id))
  }

  /** `circuits[row[1]] = int(row[0])` over the rows of the circuits CSV. */
  function CircuitMap(rows: seq<CircuitRow>): map<string, nat>
  {
    BuildMap(CircuitKeys(rows))
  }

  /** No two fetched circuits share a ref (the API's circuit ids are its primary key). */
  predicate DistinctCircuitRefs(items: seq<CircuitItem>)
  {
    forall i, j :: 0 <= i < j < |items| ==> items[i].circuitRef != items[j].circuitRef
  }

  /** Circuit ids are distinct: two different rows never share an id. */
  lemma CircuitIdsDistinct(items: seq<CircuitItem>)
    ensures forall i, j :: 0 <= i < j < |CircuitTable(items)| ==> CircuitTable(items)[i].id != CircuitTable(items)[j].id
  {
  }

  /**
   Write-then-read: the map read back from the circuits table sends the ref
   of the j-th fetched circuit to j + 1, and knows no other ref.
   */
  lemma CircuitMapRoundTrip(items: seq<CircuitItem>)
    requires DistinctCircuitRefs(items)
    ensures forall j :: 0 <= j < |items| ==> Get(CircuitMap(CircuitTable(items)), items[j].circuitRef) == Some(j + 1)
    ensures forall c :: (forall j :: 0 <= j < |items| ==> items[j].circuitRef != c) ==>
              Get(CircuitMap(CircuitTable(items)), c) == None
  {
    var rows := CircuitTable(items);
    var pairs := CircuitKeys(rows);
    assert forall j :: 0 <= j < |items| ==> pairs[j].0 == items[j].circuitRef;
    DenseTableRoundTrip(pairs);
    forall c | (forall j :: 0 <= j < |items| ==> items[j].circuitRef != c)
      ensures Get(CircuitMap(rows), c) == None
    {
      MissingKeyResolvesToNone(pairs, c);
    }
  }
}
