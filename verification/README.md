# F1 qualifying ETL: a Dafny model of the transformation logic

This project models the transformation core of a monthly batch job. The job pulls
Formula 1 reference and qualifying data from a public motorsport statistics API and
flattens it into relational tables keyed by surrogate integer ids. Six tasks of
`pipelines/api.py` run in a fixed order:

seasons → circuits → constructors → drivers → races → qualifying

Each task writes one CSV table. The later tasks read the earlier tables back to
resolve foreign keys.

The model keeps the bookkeeping and drops the plumbing:

- **API answers are parameters** (`Pipeline.Source`).
  - A plain endpoint is a list.
  - A per-season endpoint is a function from the season string to a list.
  - A paginated endpoint is an `Endpoint`: `pages[k]` is the answer to `offset = 100 * k`, and every later offset answers an empty page.
- **Tables are sequences of typed rows** (`Records`). Each row starts with its surrogate id.

Modules, following the tasks:

- `Common` holds `Option` (Python's `None`), `Get` (`dict.get`), `Flatten` (repeated `list.extend`) and `Emit`. `Emit` is the counting loop `id = 1; for item: append(row(id, item)); id += 1` of the circuits, drivers, races and qualifying tasks. The seasons task assigns no ids, and the constructors task advances its counter only for new refs (`Constructors.Dedup`).
- `Pagination` is the `while True` offset loop shared by the drivers and qualifying tasks. It has a method with loop invariants and the functional `Collect`.
- `Lookup` builds `natural key -> id` maps from a table (`m[row[1]] = int(row[0])`). It also holds the write-then-read round trip.
- `Seasons` writes the seasons CSV. It also reads the column back, skipping the header and filtering out empty rows.
- `Circuits`, `Drivers`, `Constructors`, `Races` and `Qualifying` model one task each, plus, for circuits, drivers, constructors and races, the map a later task reads back from that table.
- `Pipeline` chains the six tasks (`Run`) and proves the end-to-end joins.

What the code does and the model keeps:

- **Ids.** Ids are dense and 1-based, assigned in input order.
- **Constructors.** Constructors are deduplicated across seasons by `constructorId` using a seen-set. The first occurrence wins.
- **Lookup maps.** When a key repeats, the later row overwrites the earlier one.
- **Joins.** Every join is a `dict.get`. A missing key yields `None`, and the row is still written.
- **Qualifying seasons.** Qualifying drops the first 44 seasons. It also `break`s out of the whole season loop at the first season whose paginated data is empty.

Three behaviours of the code a reader may not expect:

- **Start of qualifying.** Qualifying starts at index 44 of the season list (`seasons[44:]`), not at a year. The code's comment "start from 1994" holds only when the list starts at 1950 with no gaps.
- **Driver ids.** Driver ids are positions in fetch order. Unlike constructors, drivers are not deduplicated. The driver round trip therefore assumes the API's driver refs are distinct, and does not promise an id per distinct ref.
- **The `break` on an empty season.** It is modelled as written. It stops all later seasons, not just the empty one (`Qualifying.GapStopsLaterSeasons`, `Qualifying.ProcessedRounds`). `Qualifying.NoGapProcessesAll` shows that it changes nothing when no season from index 44 on is empty.

## Model

| member | source | states |
|---|---|---|
| Common.Emit | pipelines/api.py:62-69 | The counting loop gives the k-th item (from 0) the id `first + k` and emits exactly one row per item, in input order |
| Circuits.CircuitTable | pipelines/api.py:61-69 | Circuit row i has id i + 1 and carries the ref, name and country of the i-th fetched circuit; one row per circuit |
| Circuits.CircuitIdsDistinct | pipelines/api.py:62-69 | No two circuit rows share an id |
| Circuits.CircuitMapRoundTrip | pipelines/api.py:212-216 | `CircuitMap` is the read-back loop `circuits[row[1]] = int(row[0])`. With distinct circuit refs, the map it reads from the circuits table sends the j-th circuit's ref to j + 1 and resolves any other ref to None |
| Drivers.DriverTable | pipelines/api.py:169-179 | Driver row i has id i + 1 and the fields of the i-th driver of the concatenated pages |
| Drivers.DriverIdIsFetchPosition | pipelines/api.py:150-179 | Against a server that serves a fixed driver list in windows of 100, the driver at position p of the whole list gets id p + 1 |
| Drivers.DriverRowsKnownRefs | pipelines/api.py:273-278 | Rows numbered from 1 over any driver list with distinct refs read back (`DriverMap`) into a map sending the j-th ref to j + 1 |
| Drivers.DriverRowsUnknownRefs | pipelines/api.py:273-278 | A ref no driver of the list carries is not a key of the map `DriverMap` reads back from its rows, so `.get` gives None |
| Drivers.DriverMapRoundTrip | pipelines/api.py:273-278 | `DriverMap` is the read-back loop `drivers[row[1]] = int(row[0])`. With distinct driver refs, the map it reads from the drivers table sends each fetched driver's ref to its 1-based fetch position; unknown refs give None |
| Pagination.Collect | pipelines/api.py:151-167 | An empty first page gives no data; when no page is empty every page is collected, in order; the data's length is the total size of the pages before the first empty one |
| Pagination.FirstEmpty | pipelines/api.py:160-161 | Returns the index of the first empty page, or the page count when no page is empty; every earlier page is non-empty |
| Pagination.Paginate | pipelines/api.py:151-167 | Offsets requested are 0, 100, 200, … with no repeats. Every page but the last requested is non-empty and the last is empty. The data is the in-order concatenation of the non-empty pages |
| Pagination.CollectWindowed | pipelines/api.py:151-167 | Paginating a server that serves a fixed list in windows of 100 returns exactly that list |
| Lookup.BuildMap | pipelines/api.py:211-216 | The map built from a table has exactly the table's keys |
| Lookup.LaterRowWins | pipelines/api.py:215-216 | When a key repeats, the map holds the id of the last row with that key |
| Lookup.MissingKeyResolvesToNone | pipelines/api.py:231 | A lookup gives None exactly when no row of the table carries the key |
| Lookup.DenseTableRoundTrip | pipelines/api.py:273-278 | Read back a table with ids 1..n and no repeated key: each key maps to exactly the id it was assigned |
| Seasons.SeasonsCsv | pipelines/api.py:28-38 | The file is the header followed by one non-empty row per season, and the first cells of its data rows are the season list, in order |
| Seasons.FirstCells | pipelines/api.py:99 | At most one value per row, strictly fewer values than rows as soon as one row is empty, and each row's first cell in order when none is |
| Seasons.FirstCellsOne | pipelines/api.py:99 | A single row gives its first cell, and an empty row gives nothing |
| Seasons.FirstCellsAppend | pipelines/api.py:99 | Reading a file in two parts gives the first part's values followed by the second's; with FirstCellsOne this fixes the result as the first cells of the non-empty rows, in file order |
| Seasons.SeasonColumn | pipelines/api.py:96-99 | An empty file gives no seasons; otherwise the column is `FirstCells` of the rows after the header (the header is never part of it, empty rows are skipped); when no data row is empty, data row i + 1 gives the i-th value |
| Seasons.SeasonsRoundTrip | pipelines/api.py:96-99 | Reading back the seasons CSV (header skipped, empty rows dropped) returns the season list as written, in order |
| Constructors.ConstructorTable | pipelines/api.py:101-119 | Over all seasons: at most one row per fetched item, ids 1..k, and the table's refs are exactly the refs fetched in any season |
| Constructors.Dedup | pipelines/api.py:101-119 | The deduplicating pass numbers its rows consecutively from the counter's start and writes at most one row per item |
| Constructors.DedupRefs | pipelines/api.py:111-119 | The refs in the table are exactly the fetched refs not already in the seen-set |
| Constructors.DedupFirstFields | pipelines/api.py:113-118 | Each row carries the name and nationality of the first item with its ref; a later duplicate changes nothing |
| Constructors.DedupOrder | pipelines/api.py:113-119 | Rows are ordered by the position of the first occurrence of their refs |
| Constructors.DedupTableSpec | pipelines/api.py:101-119 | From an empty seen-set: ids 1..k, one row per distinct ref, refs pairwise distinct, first-seen order, first-seen fields |
| Constructors.ConstructorTableSpec | pipelines/api.py:105-119 | The same guarantees hold across all seasons, over the season-ordered concatenation of each season's constructors |
| Constructors.ConstructorMapOfTable | pipelines/api.py:280-285 | `ConstructorMap` is the read-back loop `constructors[row[1]] = int(row[0])`. A constructors table with dense ids and distinct refs reads back into a map sending each ref to its row's id; other refs give None |
| Constructors.DedupMapRoundTrip | pipelines/api.py:280-285 | Every constructor ref seen in any season resolves to the id of the one row carrying it; never-seen refs give None |
| Races.ResolveCircuit | pipelines/api.py:231 | None exactly when the race has no circuit reference or the map lacks it; otherwise the map's id for that reference |
| Races.RaceRowOf | pipelines/api.py:227-232 | The row carries the given id and the race's season, round, name and date; its circuit_id is None exactly when the circuit reference is missing or unknown, and otherwise the map's id |
| Races.RaceTable | pipelines/api.py:218-233 | One race row per fetched race of every season, ids 1..n across seasons |
| Races.RaceCount | pipelines/api.py:221-233 | The number of race rows is the sum of the per-season race counts |
| Races.RaceRowFields | pipelines/api.py:227-232 | Each race row carries its race's season, round, name and date |
| Races.RaceCircuitJoin | pipelines/api.py:231 | With distinct circuit refs, a race at the j-th circuit gets circuit_id j + 1; a race with no or an unknown circuit ref keeps its row with circuit_id None |
| Races.RaceMapRoundTrip | pipelines/api.py:266-271 | `RaceMap` is the read-back loop `races[(row[1], row[2])] = int(row[0])`, keyed on (season, round). With distinct pairs it sends the k-th race's pair to k + 1 and unknown pairs to None |
| Races.MonzaExample | pipelines/api.py:226-231 | A circuits table holding Monza as circuit 1 resolves a 2024 round 5 race at Monza to circuit_id 1 |
| Qualifying.QualiSeasons | pipelines/api.py:287 | Python slice semantics: empty with 44 seasons or fewer, otherwise the seasons from index 44 on, in order |
| Qualifying.SeasonsWithData | pipelines/api.py:291-311 | Processed seasons are a prefix of the candidates, each with non-empty data; the first unprocessed candidate has empty data |
| Qualifying.ProcessedUpToGap | pipelines/api.py:291-311 | When the first n candidate seasons have data and the next one (if any) has none, exactly those n seasons are processed |
| Qualifying.ProcessedRounds | pipelines/api.py:291-311 | With 44 seasons or fewer there are no rounds. Otherwise the rounds are the paginated rounds of the candidate seasons before the first one whose pagination returns nothing (that index as `Pagination.FirstEmpty` characterises it over the per-season data), and nothing from that season on. When every candidate has data, the rounds are every candidate's, in season order |
| Qualifying.QualiRowOf | pipelines/api.py:319-328 | Each foreign key is None exactly when its map lacks the key, and otherwise the map's id; the id is the one given; position and Q1–Q3 are copied |
| Qualifying.QualiTable | pipelines/api.py:288-330 | One qualifying row per driver entry of the processed rounds, ids 1..m |
| Qualifying.EntriesCount | pipelines/api.py:313-318 | The rounds-then-drivers nesting yields exactly one entry per driver result |
| Qualifying.ResultCountIsTotalLength | pipelines/api.py:313-318 | The number of driver results over the rounds is the total length of their `QualifyingResults` lists |
| Qualifying.EntryPosition | pipelines/api.py:313-330 | The d-th result of round r comes right after all results of earlier rounds, at position ResultCount(rounds[..r]) + d |
| Qualifying.QualiCount | pipelines/api.py:288-330 | The number of qualifying rows equals the sum of the QualifyingResults lengths over the processed rounds |
| Qualifying.QualiRowOfResult | pipelines/api.py:319-329 | The row of the d-th driver of round r sits at index ResultCount(rounds[..r]) + d and is `ExpectedRow`: id one past that index, race, driver and constructor ids as `.get` lookups, and position and Q1–Q3 copied |
| Qualifying.QualiSeasonPolicy | pipelines/api.py:287-311 | With 44 seasons or fewer nothing is processed. Processed seasons are seasons[44], seasons[45], … in order, each with data. The next season, if any, has none |
| Qualifying.FewSeasonsNoRows | pipelines/api.py:287 | With 44 seasons or fewer the qualifying table is empty |
| Qualifying.NoGapProcessesAll | pipelines/api.py:309-311 | When every candidate season has data, all of them are processed |
| Qualifying.GapStopsLaterSeasons | pipelines/api.py:309-311 | No season at or after an empty season is processed, even one that has data |
| Pipeline.Run | dags/f1_quali.py:39 | The six tasks in order. The seasons CSV is written from the fetched list, and the circuits and drivers tables are those of the fetched circuits and driver pages. The constructors, races and qualifying tables are those computed over the fetched season list itself, because the seasons file loses nothing. Races resolve circuits through this run's circuits table, and qualifying rows through this run's races, drivers and constructors tables |
| Pipeline.SeasonsHandOff | pipelines/api.py:261-264 | Every later task iterates over exactly the season list the seasons task fetched |
| Pipeline.RunRaceCircuitJoin | pipelines/api.py:211-231 | In a run, a race at the j-th fetched circuit gets circuit_id j + 1; a race whose circuit is not in the table gets None |
| Pipeline.QualiRowThroughTables | pipelines/api.py:266-285 | For any tables whose qualifying table was resolved through the maps of its own races, drivers and constructors tables, each qualifying row's foreign keys are lookups in exactly those maps |
| Pipeline.RunQualiRow | pipelines/api.py:319-329 | In a run, each qualifying row's foreign keys are looked up in maps read back from the races, drivers and constructors tables of the same run |
| Pipeline.RunQualiDriverJoin | pipelines/api.py:322 | With distinct driver refs, a result of the j-th fetched driver gets driver_id j + 1; an unknown driver gets None |
| Pipeline.RunQualiConstructorJoin | pipelines/api.py:323 | A result whose constructor appeared in any season gets the id of the one constructors row with that ref; otherwise None |
| Pipeline.RunQualiRaceJoin | pipelines/api.py:321 | With distinct (season, round) pairs, a result of the k-th fetched race's round gets race_id k + 1; otherwise None |

## Left out

- HTTP requests, `raise_for_status` and navigation of the JSON envelope (`MRData.*`) are not modelled. The API's answers are parameters of the model.
- The catch-and-print exception handlers are not modelled. In the source, an HTTP error, a missing JSON key or a failed `int(...)` aborts a task with no output. The model has no failing inputs.
- `sleep` calls are left out. They are rate-limiting delays with no effect on the data.
- File-system work is left out: directories, CSV quoting and encoding. Writing a typed row and reading it back is taken to be the identity, with one exception. The seasons column read (`Seasons.SeasonColumn`) models the header skip and the empty-row filter.
- The S3 connection, bucket creation and upload are left out. They are external cloud I/O.
- The `datetime.now()` date stamp in file and bucket names is left out. It is environment input and does not affect table contents.
- `dags/f1_quali.py` is only modelled as the task order in `Pipeline.Run`. Its scheduling belongs to the external orchestrator.
- `utils/constants.py` (config-file parsing) is not part of this model.
- String-to-int conversions are not modelled: ids and grid positions are naturals. Season and round stay strings, because the race map is keyed on the CSV strings and the qualifying response is matched against them as strings.
- Most fields read with `.get` are assumed present. Three absences are modelled, because they show up in the output: a race's missing circuit reference, a circuit's missing country, and missing Q1–Q3 times.
- The seasons and circuits endpoints are each fetched by a single request with `limit=100`. The model takes that one response as given, so entries beyond the first 100 are not represented.
- The per-season constructors and races endpoints are each a single request. The model takes each season's response as given.
- Pagination.Paginate: only servers with finitely many non-empty pages are represented. The source's loop would never end against a server that never returns an empty page.

