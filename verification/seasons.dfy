/**
 The seasons task and the way every later task reads its CSV back: the file
 is the hand-off between tasks, so the season list the later tasks iterate
 over is whatever survives the header skip and the empty-row filter.
 */
module Seasons {

  /** The header row of the seasons CSV. */
  const Header: seq<string> := ["season"]

  /**
   `_seasons`: the header, then one single-cell row per season, in API order.
   No row is empty, so the reader's filter keeps every season.
   */
  function SeasonsCsv(seasons: seq<string>): (rows: seq<seq<string>>)
    ensures |rows| == |seasons| + 1 && rows[0] == Header
    ensures forall i :: 1 <= i < |rows| ==> rows[i] != []
    ensures FirstCells(rows[1..]) == seasons
  {
    var body := seq(|seasons|, i requires 0 <= i < |seasons| => [seasons[i]]);
    assert ([Header] + body)[1..] == body;
    [Header] + body
  }

  /**
   `[row[0] for row in reader if row]`: the first cell of every non-empty
   row, in order. An empty row contributes nothing, so the result is strictly
   shorter than the input as soon as one row is empty; when none is, every
   row's first cell is kept.
   */
  function FirstCells(rows: seq<seq<string>>): (r: seq<string>)
    ensures |r| <= |rows|
    ensures (exists i :: 0 <= i < |rows| && rows[i] == []) ==> |r| < |rows|
    ensures (forall i :: 0 <= i < |rows| ==> rows[i] != []) ==>
              |r| == |rows| && forall i :: 0 <= i < |rows| ==> r[i] == rows[i][0]
  {
    if |rows| == 0 then []
    else
      assert (exists i :: 0 <= i < |rows| && rows[i] == []) && rows[0] != [] ==>
             exists i :: 0 <= i < |rows[1..]| && rows[1..][i] == [] by {
        if (exists i :: 0 <= i < |rows| && rows[i] == []) && rows[0] != [] {
          var i :| 0 <= i < |rows| && rows[i] == [];
          assert rows[1..][i - 1] == [];
        }
      }
      (if rows[0] == [] then [] else [rows[0][0]]) + FirstCells(rows[1..])
  }

  /** A single row gives its first cell, or nothing when it is empty. */
  lemma FirstCellsOne(row: seq<string>)
    ensures FirstCells([row]) == if row == [] then [] else [row[0]]
  {
    assert [row][1..] == [];
  }

  /**
   Reading a file in two parts gives the first part's cells followed by the
   second's. With FirstCellsOne this pins FirstCells down completely: the
   first cells of the non-empty rows, in file order.
   */
  lemma {:induction false} FirstCellsAppend(a: seq<seq<string>>, b: seq<seq<string>>)
    ensures FirstCells(a + b) == FirstCells(a) + FirstCells(b)
    decreases |a|
  {
    if |a| > 0 {
      assert (a + b)[1..] == a[1..] + b;
      FirstCellsAppend(a[1..], b);
    } else {
      assert a + b == b;
    }
  }

  /**
   `next(reader, None)` drops the header (a no-op on an empty file), then the
   first cells of the remaining rows are kept, empty rows skipped: the
   header is never part of the column, and when no data row is empty there
   is one value per data row, in order.
   */
  function SeasonColumn(rows: seq<seq<string>>): (column: seq<string>)
    ensures |rows| == 0 ==> column == []
    ensures |rows| > 0 ==> |column| <= |rows| - 1 && column == FirstCells(rows[1..])
    ensures (forall i :: 1 <= i < |rows| ==> rows[i] != []) ==>
              |column| == (if |rows| == 0 then 0 else |rows| - 1) &&
              forall i :: 1 <= i < |rows| ==> column[i - 1] == rows[i][0]
  {
    if |rows| == 0 then []
    else
      assert forall i :: 0 <= i < |rows| - 1 ==> rows[1..][i] == rows[i + 1];
      FirstCells(rows[1..])
  }

  /** Reading back what the seasons task wrote yields the season list, unchanged and in order. */
  lemma SeasonsRoundTrip(seasons: seq<string>)
    ensures SeasonColumn(SeasonsCsv(seasons)) == seasons
  {
  }
}
