/**
 The qualifying task: for the seasons from index 44 on (the code's comment:
 "start from 1994"), page
 through each season's qualifying results, stop at the first season with no
 data, and write one row per driver result with ids counted from 1 across
 all processed seasons and rounds, its foreign keys resolved through the
 maps read back from the races, drivers and constructors tables.
 */
module Qualifying {
  import opened Common
  import opened Records
  import opened Pagination

  /** `seasons[44:]`: the first 44 seasons of the list are skipped (the code's comment: "start from 1994"). */
  const SkippedSeasons: nat := 44

  /** Python's `seasons[44:]`: empty when there are 44 seasons or fewer. */
  function QualiSeasons(seasons: seq<string>): (qs: seq<string>)
    ensures |qs| == if |seasons| <= SkippedSeasons then 0 else |seasons| - SkippedSeasons
    ensures forall i :: 0 <= i < |qs| ==> qs[i] == seasons[SkippedSeasons + i]
  {
    if |seasons| <= SkippedSeasons then [] else seasons[SkippedSeasons..]
  }

  /**
   The outer loop's termination: seasons are processed in order up to, not
   including, the first one whose paginated data is empty, whose `break`
   abandons every later season.
   */
  function SeasonsWithData(qs: seq<string>, qualifyingOf: string -> Endpoint<QualiRound>): (done: seq<string>)
    ensures |done| <= |qs| && done == qs[..|done|]
    ensures forall i :: 0 <= i < |done| ==> Collect(qualifyingOf(done[i])) != []
    ensures |done| < |qs| ==> Collect(qualifyingOf(qs[|done|])) == []
  {
    if |qs| == 0 || Collect(qualifyingOf(qs[0])) == [] then []
    else [qs[0]] + SeasonsWithData(qs[1..], qualifyingOf)
  }

  /**
   The seasons processed are exactly those before the first gap: when the
   first n candidates have data and the next one (if any) has none, the
   outer loop processes precisely the first n.
   */
  lemma ProcessedUpToGap(qs: seq<string>, qualifyingOf: string -> Endpoint<QualiRound>, n: nat)
    requires n <= |qs|
    requires forall i :: 0 <= i < n ==> Collect(qualifyingOf(qs[i])) != []
    requires n < |qs| ==> Collect(qualifyingOf(qs[n])) == []
    ensures SeasonsWithData(qs, qualifyingOf) == qs[..n]
  {
  }

  /** Each of the given seasons' paginated qualifying data, one list per season. */
  function SeasonData(ss: seq<string>, qualifyingOf: string -> Endpoint<QualiRound>): seq<seq<QualiRound>>
  {
    seq(|ss|, i requires 0 <= i < |ss| => Collect(qualifyingOf(ss[i])))
  }

  /** The paginated rounds of each of the given seasons, in season order then page order. */
  function RoundsOf(ss: seq<string>, qualifyingOf: string -> Endpoint<QualiRound>): seq<QualiRound>
  {
    Flatten(SeasonData(ss, qualifyingOf))
  }

  /**
   Every round of every processed season: the rounds of the candidate
   seasons before the first one with no data, and nothing from that season
   on. With no empty candidate they are every candidate's rounds; with 44
   seasons or fewer there are none.
   */
  function ProcessedRounds(seasons: seq<string>, qualifyingOf: string -> Endpoint<QualiRound>): (rounds: seq<QualiRound>)
    ensures |seasons| <= SkippedSeasons ==> rounds == []
    ensures var qs := QualiSeasons(seasons);
            rounds == RoundsOf(qs[..FirstEmpty(SeasonData(qs, qualifyingOf))], qualifyingOf)
    ensures var qs := QualiSeasons(seasons);
            (forall i :: 0 <= i < |qs| ==> Collect(qualifyingOf(qs[i])) != []) ==> rounds == RoundsOf(qs, qualifyingOf)
  {
    var qs := QualiSeasons(seasons);
    var data := SeasonData(qs, qualifyingOf);
    var n := FirstEmpty(data);
    forall i | 0 <= i < n
      ensures Collect(qualifyingOf(qs[i])) != []
    {
      assert data[i] != [];
    }
    ProcessedUpToGap(qs, qualifyingOf, n);
    assert qs[..|qs|] == qs;
    RoundsOf(SeasonsWithData(qs, qualifyingOf), qualifyingOf)
  }

  /** One driver's result together with the (season, round) of the round it belongs to. */
  datatype QualiEntry = QualiEntry(key: RaceKey, result: QualiResult)

  /** The inner `for driver in range(len(round_results))` loop's items. */
  function RoundEntries(round: QualiRound): seq<QualiEntry>
  {
    seq(|round.results|, i requires 0 <= i < |round.results| => QualiEntry(RaceKey(round.season, round.round), round.results[i]))
  }

  /** The items of the two inner loops, in nesting order: rounds, then drivers within a round. */
  function Entries(rounds: seq<QualiRound>): seq<QualiEntry>
  {
    Flatten(seq(|rounds|, i requires 0 <= i < |rounds| => RoundEntries(rounds[i])))
  }

  /** The number of driver results over a list of rounds. */
  function ResultCount(rounds: seq<QualiRound>): nat
  {
    if |rounds| == 0 then 0 else ResultCount(rounds[..|rounds| - 1]) + |rounds[|rounds| - 1].results|
  }

  /** ResultCount is the total length of the rounds' result lists. */
  lemma {:induction false} ResultCountIsTotalLength(rounds: seq<QualiRound>)
    ensures ResultCount(rounds) == TotalLength(seq(|rounds|, i requires 0 <= i < |rounds| => rounds[i].results))
  {
    var lists := seq(|rounds|, i requires 0 <= i < |rounds| => rounds[i].results);
    if |rounds| > 0 {
      var init := rounds[..|rounds| - 1];
      ResultCountIsTotalLength(init);
      assert lists[..|lists| - 1] == seq(|init|, i requires 0 <= i < |init| => init[i].results);
    }
  }

  /** The lookup maps read back from the races, drivers and constructors tables. */
  datatype Maps = Maps(races: map<RaceKey, nat>, drivers: map<string, nat>, constructors: map<string, nat>)

  /** The CSV row written for the driver result that received `id`; every foreign key is a `.get`. */
  function QualiRowOf(maps: Maps, id: nat, e: QualiEntry): (row: QualiRow)
    ensures row.id == id
    ensures row.raceId == None <==> e.key !in maps.races
    ensures row.raceId.Some? ==> row.raceId.value == maps.races[e.key]
    ensures row.driverId == None <==> e.result.driverRef !in maps.drivers
    ensures row.driverId.Some? ==> row.driverId.value == maps.drivers[e.result.driverRef]
    ensures row.constructorId == None <==> e.result.constructorRef !in maps.constructors
    ensures row.constructorId.Some? ==> row.constructorId.value == maps.constructors[e.result.constructorRef]
    ensures row.position == e.result.position && row.q1 == e.result.q1 && row.q2 == e.result.q2 && row.q3 == e.result.q3
  {
    QualiRow(
      id, Get(maps.races, e.key), Get(maps.drivers, e.result.driverRef),
      Get(maps.constructors, e.result.constructorRef), e.result.position,
      e.result.q1, e.result.q2, e.result.q3)
  }

  /** `_quali`: one row per driver result of every processed round, ids counted from 1. */
  function QualiTable(seasons: seq<string>, qualifyingOf: string -> Endpoint<QualiRound>, maps: Maps): (rows: seq<QualiRow>)
    ensures |rows| == |Entries(ProcessedRounds(seasons, qualifyingOf))|
    ensures forall k :: 0 <= k < |rows| ==> rows[k].id == k + 1
  {
    Emit(Entries(ProcessedRounds(seasons, qualifyingOf)), 1, (id: nat, e: QualiEntry) => QualiRowOf(maps, id, e))
  }

  lemma EntriesSnoc(rounds: seq<QualiRound>)
    requires |rounds| > 0
    ensures Entries(rounds) == Entries(rounds[..|rounds| - 1]) + RoundEntries(rounds[|rounds| - 1])
  {
    var n := |rounds| - 1;
    var all := seq(|rounds|, i requires 0 <= i < |rounds| => RoundEntries(rounds[i]));
    var init := seq(n, i requires 0 <= i < n => RoundEntries(rounds[..n][i]));
    assert all == init + [RoundEntries(rounds[n])];
    FlattenSnoc(init, RoundEntries(rounds[n]));
  }

  /** Every driver result of every processed round yields one entry, and nothing else does. */
  lemma {:induction false} EntriesCount(rounds: seq<QualiRound>)
    ensures |Entries(rounds)| == ResultCount(rounds)
  {
    if |rounds| > 0 {
      EntriesSnoc(rounds);
      EntriesCount(rounds[..|rounds| - 1]);
    }
  }

  /**
   Nesting order: the d-th result of round r sits right after all the
   results of the rounds before it, so its row gets id
   ResultCount(rounds[..r]) + d + 1.
   */
  lemma {:induction false} EntryPosition(rounds: seq<QualiRound>, r: nat, d: nat)
    requires r < |rounds| && d < |rounds[r].results|
    ensures ResultCount(rounds[..r]) + d < |Entries(rounds)|
    ensures Entries(rounds)[ResultCount(rounds[..r]) + d] ==
            QualiEntry(RaceKey(rounds[r].season, rounds[r].round), rounds[r].results[d])
  {
    var n := |rounds| - 1;
    var init := rounds[..n];
    EntriesSnoc(rounds);
    EntriesCount(init);
    if r == n {
      assert rounds[..r] == init;
    } else {
      EntryPosition(init, r, d);
      assert init[..r] == rounds[..r];
    }
  }

  /**
   `m`, the number of qualifying rows, is the number of driver results over
   all processed rounds, and those rows carry ids 1..m.
   */
  lemma QualiCount(seasons: seq<string>, qualifyingOf: string -> Endpoint<QualiRound>, maps: Maps)
    ensures |QualiTable(seasons, qualifyingOf, maps)| == ResultCount(ProcessedRounds(seasons, qualifyingOf))
  {
    EntriesCount(ProcessedRounds(seasons, qualifyingOf));
  }

  /** Where the d-th result of round r lands in the nesting order: after every result of the earlier rounds. */
  function ResultIndex(rounds: seq<QualiRound>, r: nat, d: nat): nat
    requires r < |rounds|
  {
    ResultCount(rounds[..r]) + d
  }

  /**
   The row the d-th result of round r should get: id one past its index,
   the round's (season, round) and the result's driver and constructor
   refs looked up with `.get`, position and Q1-Q3 copied.
   */
  function ExpectedRow(maps: Maps, rounds: seq<QualiRound>, r: nat, d: nat): QualiRow
    requires r < |rounds| && d < |rounds[r].results|
  {
    QualiRow(ResultIndex(rounds, r, d) + 1, Get(maps.races, RaceKey(rounds[r].season, rounds[r].round)),
             Get(maps.drivers, rounds[r].results[d].driverRef), Get(maps.constructors, rounds[r].results[d].constructorRef),
             rounds[r].results[d].position, rounds[r].results[d].q1, rounds[r].results[d].q2, rounds[r].results[d].q3)
  }

  /**
   The row of the d-th driver of processed round r has id
   ResultCount(rounds[..r]) + d + 1 and resolves that round's (season,
   round), that driver's ref and that constructor's ref through the maps;
   a key the map lacks gives None and the row is still written.
   */
  lemma QualiRowOfResult(seasons: seq<string>, qualifyingOf: string -> Endpoint<QualiRound>, maps: Maps, r: nat, d: nat)
    requires var rounds := ProcessedRounds(seasons, qualifyingOf); r < |rounds| && d < |rounds[r].results|
    ensures ResultIndex(ProcessedRounds(seasons, qualifyingOf), r, d) < |QualiTable(seasons, qualifyingOf, maps)|
    ensures QualiTable(seasons, qualifyingOf, maps)[ResultIndex(ProcessedRounds(seasons, qualifyingOf), r, d)] ==
            ExpectedRow(maps, ProcessedRounds(seasons, qualifyingOf), r, d)
  {
    EntryPosition(ProcessedRounds(seasons, qualifyingOf), r, d);
  }

  /**
   The season policy: with 44 seasons or fewer nothing is processed; the
   processed seasons are a prefix of `seasons[44:]`, each with data, and
   the first season left out (if any) is one whose data is empty.
   */
  lemma QualiSeasonPolicy(seasons: seq<string>, qualifyingOf: string -> Endpoint<QualiRound>)
    ensures |seasons| <= SkippedSeasons ==> SeasonsWithData(QualiSeasons(seasons), qualifyingOf) == []
    ensures var done := SeasonsWithData(QualiSeasons(seasons), qualifyingOf);
            && (forall i :: 0 <= i < |done| ==> SkippedSeasons + i < |seasons| && done[i] == seasons[SkippedSeasons + i])
            && (forall i :: 0 <= i < |done| ==> Collect(qualifyingOf(done[i])) != [])
            && (SkippedSeasons + |done| < |seasons| ==> Collect(qualifyingOf(seasons[SkippedSeasons + |done|])) == [])
  {
  }

  /** With 44 seasons or fewer, the qualifying table is empty. */
  lemma FewSeasonsNoRows(seasons: seq<string>, qualifyingOf: string -> Endpoint<QualiRound>, maps: Maps)
    requires |seasons| <= SkippedSeasons
    ensures QualiTable(seasons, qualifyingOf, maps) == []
  {
    assert ProcessedRounds(seasons, qualifyingOf) == [];
  }

  /**
   The `break` only matters at a gap: when every season from index 44 on has
   qualifying data, all of them are processed.
   */
  lemma {:induction false} NoGapProcessesAll(qs: seq<string>, qualifyingOf: string -> Endpoint<QualiRound>)
    requires forall i :: 0 <= i < |qs| ==> Collect(qualifyingOf(qs[i])) != []
    ensures SeasonsWithData(qs, qualifyingOf) == qs
  {
    if |qs| > 0 {
      NoGapProcessesAll(qs[1..], qualifyingOf);
      assert qs == [qs[0]] + qs[1..];
    }
  }

  /**
   A gap season stops everything: a season with data that comes after an
   empty one is never processed.
   */
  lemma GapStopsLaterSeasons(qs: seq<string>, qualifyingOf: string -> Endpoint<QualiRound>, gap: nat)
    requires gap < |qs| && Collect(qualifyingOf(qs[gap])) == []
    ensures |SeasonsWithData(qs, qualifyingOf)| <= gap
  {
  }
}
