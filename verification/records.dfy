/**
 The two vocabularies the tasks translate between: the items the statistics
 API returns (only the fields the tasks read) and the rows of the CSV tables
 the tasks write, each led by its surrogate id.

 A field whose absence the tasks pass on as `None` into a table is an
 `Option`: a circuit's country, a race's circuit reference and the Q1-Q3
 times. Every other field is taken to be present.
 */
module Records {
  import opened Common

  /** One entry of `CircuitTable.Circuits`; the country sits under an optional `Location`. */
  datatype CircuitItem = CircuitItem(circuitRef: string, name: string, country: Option<string>)

  /** One entry of a season's `ConstructorTable.Constructors`. */
  datatype ConstructorItem = ConstructorItem(constructorRef: string, name: string, nationality: string)

  /** One entry of `DriverTable.Drivers`. */
  datatype DriverItem = DriverItem(
    driverRef: string, givenName: string, familyName: string, dateOfBirth: string, nationality: string)

  /** One entry of a season's `RaceTable.Races`; the circuit reference sits under an optional `Circuit`. */
  datatype RaceItem = RaceItem(
    season: string, round: string, name: string, circuitRef: Option<string>, date: string)

  /** One entry of a qualifying round's `QualifyingResults`; Q2 and Q3 are absent for drivers knocked out earlier. */
  datatype QualiResult = QualiResult(
    driverRef: string, constructorRef: string, position: nat,
    q1: Option<string>, q2: Option<string>, q3: Option<string>)

  /** One round of a season's qualifying response. */
  datatype QualiRound = QualiRound(season: string, round: string, results: seq<QualiResult>)

  /** circuits CSV: circuit_id, circuit_ref, circuit_name, circuit_country. */
  datatype CircuitRow = CircuitRow(id: nat, ref: string, name: string, country: Option<string>)

  /** constructors CSV: constructor_id, constructor_ref, constructor_name, constructor_nationality. */
  datatype ConstructorRow = ConstructorRow(id: nat, ref: string, name: string, nationality: string)

  /** drivers CSV: driver_id, driver_ref, first_name, last_name, dob, nationality. */
  datatype DriverRow = DriverRow(
    id: nat, ref: string, firstName: string, lastName: string, dob: string, nationality: string)

  /** The natural key of a race: its season and round, as the strings the API and the CSV carry. */
  datatype RaceKey = RaceKey(season: string, round: string)

  /** races CSV: race_id, season, round, race_name, circuit_id, date. */
  datatype RaceRow = RaceRow(
    id: nat, season: string, round: string, name: string, circuitId: Option<nat>, date: string)

  /** quali CSV: quali_id, race_id, driver_id, constructor_id, grid_position, q1, q2, q3. */
  datatype QualiRow = QualiRow(
    id: nat, raceId: Option<nat>, driverId: Option<nat>, constructorId: Option<nat>,
    position: nat, q1: Option<string>, q2: Option<string>, q3: Option<string>)
}
