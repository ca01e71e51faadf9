/**
 The races task: every season's race list, numbered from 1 across all
 seasons, with the circuit reference resolved through the map read back
 from the circuits table; and the `(season, round) -> race_id` map the
 qualifying task reads back.
 */
module Races {
  import opened Common
  import opened Records
  import opened Lookup
  import opened Circuits

  /** Every season's race response (one request per season), concatenated in season order. */
  function AllRaces(seasons: seq<string>, racesOf: string -> seq<RaceItem>): seq<RaceItem>
  {
    Flatten(seq(|seasons|, i requires 0 <= i < |seasons| => racesOf(seasons[i])))
  }

  /**
   `circuits.get(race.get("Circuit", {}).get("circuitId"))`: a race without a
   circuit reference, or with one the map does not know, gets None.
   */
  function ResolveCircuit(circuits: map<string, nat>, ref: Option<string>): (id: Option<nat>)
    ensures id == None <==> ref == None || ref.value !in circuits
    ensures id.Some? ==> id.value == circuits[ref.value]
  {
    match ref
    case None => None
    case Some(c) => Get(circuits, c)
  }

  /** The CSV row written for the race that received `id`. */
  function RaceRowOf(circuits: map<string, nat>, id: nat, r: RaceItem): (row: RaceRow)
    ensures row.id == id
    ensures row.season == r.season && row.round == r.round && row.name == r.name && row.date == r.date
    ensures row.circuitId == None <==> r.circuitRef == None || r.circuitRef.value !in circuits
    ensures row.circuitId.Some? ==> row.circuitId.value == circuits[r.circuitRef.value]
  {
    RaceRow(id, r.season, r.round, r.name, ResolveCircuit(circuits, r.circuitRef), r.date)
  }

  /**
   `_races`: one row per race of every season, ids counted from 1 across
   seasons, none dropped when its circuit does not resolve.
   */
  function RaceTable(seasons: seq<string>, racesOf: string -> seq<RaceItem>, circuits: seq<CircuitRow>): (rows: seq<RaceRow>)
    ensures |rows| == |AllRaces(seasons, racesOf)|
    ensures forall k :: 0 <= k < |rows| ==> rows[k].id == k + 1
  {
    var m := CircuitMap(circuits);
    Emit(AllRaces(seasons, racesOf), 1, (id: nat, r: RaceItem) => RaceRowOf(m, id, r))
  }

  /** Every fetched race of every season yields exactly one row: the row count is the sum of the per-season counts. */
  lemma RaceCount(seasons: seq<string>, racesOf: string -> seq<RaceItem>, circuits: seq<CircuitRow>)
    ensures |RaceTable(seasons, racesOf, circuits)| ==
            TotalLength(seq(|seasons|, i requires 0 <= i < |seasons| => racesOf(seasons[i])))
  {
    FlattenLength(seq(|seasons|, i requires 0 <= i < |seasons| => racesOf(seasons[i])));
  }

  /**
   The circuit join against the circuits table written earlier: with
   distinct circuit refs, a race at the j-th fetched circuit gets
   circuit_id j + 1; a race with no circuit reference, or one the table
   does not contain, still gets its row, with circuit_id None.
   */
  lemma {:induction false} RaceCircuitJoin(seasons: seq<string>, racesOf: string -> seq<RaceItem>, circuits: seq<CircuitItem>)
    requires DistinctCircuitRefs(circuits)
    ensures var races := AllRaces(seasons, racesOf);
            var rows := RaceTable(seasons, racesOf, CircuitTable(circuits));
            forall k, j :: 0 <= k < |races| && 0 <= j < |circuits| && races[k].circuitRef == Some(circuits[j].circuitRef) ==>
              rows[k].circuitId == Some(j + 1)
    ensures var races := AllRaces(seasons, racesOf);
            var rows := RaceTable(seasons, racesOf, CircuitTable(circuits));
            forall k :: 0 <= k < |races| &&
                        (races[k].circuitRef == None || forall j :: 0 <= j < |circuits| ==> Some(circuits[j].circuitRef) != races[k].circuitRef) ==>
              rows[k].circuitId == None
  {
    CircuitMapRoundTrip(circuits);
  }

  /** The race row carries the season, round, name and date of its race, whatever the circuit lookup gives. */
  lemma RaceRowFields(seasons: seq<string>, racesOf: string -> seq<RaceItem>, circuits: seq<CircuitRow>)
    ensures var races := AllRaces(seasons, racesOf);
            var rows := RaceTable(seasons, racesOf, circuits);
            forall k :: 0 <= k < |rows| ==>
              && rows[k].season == races[k].season && rows[k].round == races[k].round
              && rows[k].name == races[k].name && rows[k].date == races[k].date
  {
  }

  /** The ((season, round), race_id) columns of a races table. */
  function RaceKeys(rows: seq<RaceRow>): seq<(RaceKey, nat)>
  {
    seq(|rows|, i requires 0 <= i < |rows| => (RaceKey(rows[i].season, rows[i].round), rows[i].id))
  }

  /** `races[(row[1], row[2])] = int(row[0])` over the rows of the races CSV. */
  function RaceMap(rows: seq<RaceRow>): map<RaceKey, nat>
  {
    BuildMap(RaceKeys(rows))
  }

  /** No two fetched races share a (season, round) pair. */
  predicate DistinctRaceKeys(races: seq<RaceItem>)
  {
    forall i, j :: 0 <= i < j < |races| ==> RaceKey(races[i].season, races[i].round) != RaceKey(races[j].season, races[j].round)
  }

  /**
   Write-then-read: the map read back from the races table is keyed on the
   (season, round) pair and sends the k-th race's pair to k + 1; a pair no
   race carries resolves to None.
   */
  lemma RaceMapRoundTrip(seasons: seq<string>, racesOf: string -> seq<RaceItem>, circuits: seq<CircuitRow>)
    requires DistinctRaceKeys(AllRaces(seasons, racesOf))
    ensures var races := AllRaces(seasons, racesOf);
            var m := RaceMap(RaceTable(seasons, racesOf, circuits));
            forall k :: 0 <= k < |races| ==> Get(m, RaceKey(races[k].season, races[k].round)) == Some(k + 1)
    ensures var races := AllRaces(seasons, racesOf);
            var m := RaceMap(RaceTable(seasons, racesOf, circuits));
            forall key :: (forall k :: 0 <= k < |races| ==> RaceKey(races[k].season, races[k].round) != key) ==>
              Get(m, key) == None
  {
    var races := AllRaces(seasons, racesOf);
    var rows := RaceTable(seasons, racesOf, circuits);
    var pairs := RaceKeys(rows);
    assert forall k :: 0 <= k < |races| ==> pairs[k] == (RaceKey(races[k].season, races[k].round), k + 1);
    DenseTableRoundTrip(pairs);
    forall key | (forall k :: 0 <= k < |races| ==> RaceKey(races[k].season, races[k].round) != key)
      ensures Get(RaceMap(rows), key) == None
    {
      MissingKeyResolvesToNone(pairs, key);
    }
  }

  /** A circuits table holding Monza as circuit 1 resolves a Monza race (2024, round 5) to circuit_id 1. */
  lemma MonzaExample()
    ensures var circuits := [CircuitItem("monza", "Autodromo Nazionale di Monza", Some("Italy"))];
            var race := RaceItem("2024", "5", "Italian Grand Prix", Some("monza"), "2024-09-01");
            RaceTable(["2024"], s => if s == "2024" then [race] else [], CircuitTable(circuits))
              == [RaceRow(1, "2024", "5", "Italian Grand Prix", Some(1), "2024-09-01")]
  {
    var circuits := [CircuitItem("monza", "Autodromo Nazionale di Monza", Some("Italy"))];
    var race := RaceItem("2024", "5", "Italian Grand Prix", Some("monza"), "2024-09-01");
    var racesOf := s => if s == "2024" then [race] else [];
    assert AllRaces(["2024"], racesOf) == [race] by {
      assert seq(1, i requires 0 <= i < 1 => racesOf(["2024"][i])) == [[race]];
      FlattenSingleton([race]);
    }
    CircuitMapRoundTrip(circuits);
  }
}
