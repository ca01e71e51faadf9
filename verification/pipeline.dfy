/**
 The six tasks chained in their scheduled order (seasons, circuits,
 constructors, drivers, races, qualifying), each later task reading the
 earlier tables back; and the end-to-end join guarantees of the chain.
 */
module Pipeline {
  import opened Common
  import opened Records
  import opened Pagination
  import opened Seasons
  import opened Circuits
  import opened Constructors
  import opened Drivers
  import opened Races
  import opened Qualifying

  /** What the statistics API answers during one run. */
  datatype Source = Source(
    seasons: seq<string>,                         // the seasons endpoint
    circuits: seq<CircuitItem>,                   // the one page of the circuits endpoint
    constructorsOf: string -> seq<ConstructorItem>, // a season's constructors
    drivers: Endpoint<DriverItem>,                // the paginated drivers endpoint
    racesOf: string -> seq<RaceItem>,             // a season's races
    qualifyingOf: string -> Endpoint<QualiRound>) // a season's paginated qualifying results

  /** The tables of one run. */
  datatype Tables = Tables(
    seasons: seq<seq<string>>, circuits: seq<CircuitRow>, constructors: seq<ConstructorRow>,
    drivers: seq<DriverRow>, races: seq<RaceRow>, quali: seq<QualiRow>)

  /** The season list every later task iterates over: the seasons CSV read back. */
  function SeasonsReadBack(src: Source): seq<string>
  {
    SeasonColumn(SeasonsCsv(src.seasons))
  }

  /** The maps the qualifying task reads back from the races, drivers and constructors tables. */
  function QualiMaps(races: seq<RaceRow>, drivers: seq<DriverRow>, constructors: seq<ConstructorRow>): Maps
  {
    Maps(RaceMap(races), DriverMap(drivers), ConstructorMap(constructors))
  }

  /**
   One monthly run: each task in order, each later one reading the earlier
   tables back. Because the seasons file loses nothing, every later task
   works on the fetched season list itself, and the qualifying rows are
   resolved through the maps of this same run's tables.
   */
  function Run(src: Source): (t: Tables)
    ensures t.seasons == SeasonsCsv(src.seasons)
    ensures t.circuits == CircuitTable(src.circuits)
    ensures t.drivers == DriverTable(src.drivers)
    ensures t.constructors == ConstructorTable(src.seasons, src.constructorsOf)
    ensures t.races == RaceTable(src.seasons, src.racesOf, t.circuits)
    ensures t.quali == QualiTable(src.seasons, src.qualifyingOf, QualiMaps(t.races, t.drivers, t.constructors))
  {
    SeasonsHandOff(src);
    var seasons := SeasonsReadBack(src);
    var circuits := CircuitTable(src.circuits);
    var constructors := ConstructorTable(seasons, src.constructorsOf);
    var drivers := DriverTable(src.drivers);
    var races := RaceTable(seasons, src.racesOf, circuits);
    var quali := QualiTable(seasons, src.qualifyingOf, QualiMaps(races, drivers, constructors));
    Tables(SeasonsCsv(src.seasons), circuits, constructors, drivers, races, quali)
  }

  /** The file hand-off loses nothing: every later task iterates over exactly the fetched seasons. */
  lemma SeasonsHandOff(src: Source)
    ensures SeasonsReadBack(src) == src.seasons
  {
    SeasonsRoundTrip(src.seasons);
  }

  /**
   Race join across the run: a race at the j-th fetched circuit gets
   circuit_id j + 1, and a race whose circuit the circuits table lacks keeps
   its row with circuit_id None.
   */
  lemma {:induction false} RunRaceCircuitJoin(src: Source, k: nat)
    requires DistinctCircuitRefs(src.circuits)
    requires k < |AllRaces(src.seasons, src.racesOf)|
    ensures k < |Run(src).races|
    ensures forall j ::
              (0 <= j < |src.circuits| && AllRaces(src.seasons, src.racesOf)[k].circuitRef == Some(src.circuits[j].circuitRef)) ==>
              Run(src).races[k].circuitId == Some(j + 1)
    ensures (forall j :: 0 <= j < |src.circuits| ==>
              AllRaces(src.seasons, src.racesOf)[k].circuitRef != Some(src.circuits[j].circuitRef)) ==>
            Run(src).races[k].circuitId == None
  {
    SeasonsHandOff(src);
    RaceCircuitJoin(src.seasons, src.racesOf, src.circuits);
  }

  /**
   Any set of tables whose qualifying table was resolved through the maps
   read back from its own races, drivers and constructors tables: each
   qualifying row's foreign keys are `.get` lookups in exactly those maps.
   */
  lemma QualiRowThroughTables(src: Source, t: Tables, r: nat, d: nat)
    requires t.quali == QualiTable(src.seasons, src.qualifyingOf, QualiMaps(t.races, t.drivers, t.constructors))
    requires var rounds := ProcessedRounds(src.seasons, src.qualifyingOf); r < |rounds| && d < |rounds[r].results|
    ensures ResultIndex(ProcessedRounds(src.seasons, src.qualifyingOf), r, d) < |t.quali|
    ensures t.quali[ResultIndex(ProcessedRounds(src.seasons, src.qualifyingOf), r, d)] ==
            ExpectedRow(QualiMaps(t.races, t.drivers, t.constructors), ProcessedRounds(src.seasons, src.qualifyingOf), r, d)
  {
    QualiRowOfResult(src.seasons, src.qualifyingOf, QualiMaps(t.races, t.drivers, t.constructors), r, d);
  }

  /** The qualifying rows of the run and the rounds they come from, over the fetched seasons. */
  lemma {:induction false} RunQualiRow(src: Source, r: nat, d: nat)
    requires var rounds := ProcessedRounds(src.seasons, src.qualifyingOf); r < |rounds| && d < |rounds[r].results|
    ensures ResultIndex(ProcessedRounds(src.seasons, src.qualifyingOf), r, d) < |Run(src).quali|
    ensures Run(src).quali[ResultIndex(ProcessedRounds(src.seasons, src.qualifyingOf), r, d)] ==
            ExpectedRow(QualiMaps(Run(src).races, Run(src).drivers, Run(src).constructors),
                        ProcessedRounds(src.seasons, src.qualifyingOf), r, d)
  {
    QualiRowThroughTables(src, Run(src), r, d);
  }

  /**
   Driver join across the run: with distinct driver refs, the result of the
   j-th fetched driver gets driver_id j + 1; an unknown driver gets None.
   */
  lemma {:induction false} RunQualiDriverJoin(src: Source, r: nat, d: nat)
    requires DistinctDriverRefs(Collect(src.drivers))
    requires var rounds := ProcessedRounds(src.seasons, src.qualifyingOf); r < |rounds| && d < |rounds[r].results|
    ensures var rounds := ProcessedRounds(src.seasons, src.qualifyingOf);
            var k := ResultIndex(rounds, r, d);
            var ref := rounds[r].results[d].driverRef;
            var drivers := Collect(src.drivers);
            && k < |Run(src).quali|
            && (forall j :: 0 <= j < |drivers| && drivers[j].driverRef == ref ==> Run(src).quali[k].driverId == Some(j + 1))
            && ((forall j :: 0 <= j < |drivers| ==> drivers[j].driverRef != ref) ==> Run(src).quali[k].driverId == None)
  {
    RunQualiRow(src, r, d);
    DriverMapRoundTrip(src.drivers);
  }

  /**
   Constructor join across the run: a result whose constructor was seen in
   any season's constructor list gets the id of the one constructors row
   carrying that ref; an unknown constructor gets None.
   */
  lemma {:induction false} RunQualiConstructorJoin(src: Source, r: nat, d: nat)
    requires var rounds := ProcessedRounds(src.seasons, src.qualifyingOf); r < |rounds| && d < |rounds[r].results|
    ensures var rounds := ProcessedRounds(src.seasons, src.qualifyingOf);
            var k := ResultIndex(rounds, r, d);
            var ref := rounds[r].results[d].constructorRef;
            && k < |Run(src).quali|
            && (ref in Refs(AllItems(src.seasons, src.constructorsOf)) ==>
                  exists c :: 0 <= c < |Run(src).constructors| && Run(src).constructors[c].ref == ref &&
                              Run(src).quali[k].constructorId == Some(c + 1))
            && (ref !in Refs(AllItems(src.seasons, src.constructorsOf)) ==> Run(src).quali[k].constructorId == None)
  {
    RunQualiRow(src, r, d);
    SeasonsHandOff(src);
    DedupMapRoundTrip(AllItems(src.seasons, src.constructorsOf));
  }

  /**
   Race join across the run: with distinct (season, round) pairs, a result
   of the round of the k-th fetched race gets race_id k + 1; a round no race
   row carries gets None.
   */
  lemma {:induction false} RunQualiRaceJoin(src: Source, r: nat, d: nat)
    requires DistinctRaceKeys(AllRaces(src.seasons, src.racesOf))
    requires var rounds := ProcessedRounds(src.seasons, src.qualifyingOf); r < |rounds| && d < |rounds[r].results|
    ensures var rounds := ProcessedRounds(src.seasons, src.qualifyingOf);
            var k := ResultIndex(rounds, r, d);
            var key := RaceKey(rounds[r].season, rounds[r].round);
            var races := AllRaces(src.seasons, src.racesOf);
            && k < |Run(src).quali|
            && (forall i :: 0 <= i < |races| && RaceKey(races[i].season, races[i].round) == key ==> Run(src).quali[k].raceId == Some(i + 1))
            && ((forall i :: 0 <= i < |races| ==> RaceKey(races[i].season, races[i].round) != key) ==> Run(src).quali[k].raceId == None)
  {
    RunQualiRow(src, r, d);
    SeasonsHandOff(src);
    RaceMapRoundTrip(src.seasons, src.racesOf, CircuitTable(src.circuits));
  }
}
