/**
 * Cleaning the uploaded flu table once its columns are known: rename the two
 * detected columns to `Date` and `Cases`, parse `Date` with errors coerced to NaT,
 * drop the NaT rows, then coerce `Cases` to an integer with unparseable counts
 * filled with 0.
 */
module Cleaning {
  import opened Wrappers
  import opened Tables
  import opened Seqs

  /** `astype(int)` on a float: truncation toward zero. */
  function TruncTowardZero(x: real): (n: int)
    ensures 0.0 <= x ==> 0 <= n && n as real <= x < n as real + 1.0
    ensures x < 0.0 ==> n <= 0 && n as real - 1.0 < x <= n as real
  {
    if x >= 0.0 then x.Floor else -((-x).Floor)
  }

  /** Truncation leaves a whole number as it is. */
  lemma TruncOfWhole(n: int)
    ensures TruncTowardZero(n as real) == n
  {
  }

  /** Renaming one upload row and parsing its `Date` cell. */
  function RenameAndParseDate(row: RawRow, dateCol: string, caseCol: string,
                              parseDate: string -> Option<Date>): ParsedRow
  {
    FluRow(ParseCell(parseDate, Cell(row, dateCol)), Cell(row, caseCol), row - {dateCol, caseCol})
  }

  /** `rename(columns={date_col: 'Date', case_col: 'Cases'})` then `to_datetime(errors='coerce')`. */
  function RenameAndParseDates(rows: seq<RawRow>, dateCol: string, caseCol: string,
                               parseDate: string -> Option<Date>): (r: seq<ParsedRow>)
    ensures |r| == |rows|
    ensures forall i :: 0 <= i < |rows| ==>
      r[i].date == ParseCell(parseDate, Cell(rows[i], dateCol)) &&
      r[i].cases == Cell(rows[i], caseCol) &&
      r[i].rest == rows[i] - {dateCol, caseCol}
  {
    seq(|rows|, i requires 0 <= i < |rows| => RenameAndParseDate(rows[i], dateCol, caseCol, parseDate))
  }

  predicate HasDate(row: ParsedRow) { row.date.Some? }

  predicate LacksDate(row: ParsedRow) { row.date.None? }

  /** `dropna(subset=['Date']).reset_index(drop=True)`. */
  function DropUnparsedDates(rows: seq<ParsedRow>): (r: seq<DatedRow>)
    ensures |r| == |rows| - Count(rows, LacksDate) == |KeptIndices(rows, HasDate)|
    ensures forall k :: 0 <= k < |r| ==>
      var i := KeptIndices(rows, HasDate)[k];
      rows[i].date == Some(r[k].date) && r[k].cases == rows[i].cases && r[k].rest == rows[i].rest
  {
    var kept := Filter(rows, HasDate);
    FilterLength(rows, HasDate, LacksDate);
    seq(|kept|, k requires 0 <= k < |kept| => FluRow(kept[k].date.value, kept[k].cases, kept[k].rest))
  }

  /** `to_numeric(errors='coerce').fillna(0).astype(int)` on one cell. */
  function CoerceCount(parseNumber: string -> Option<real>, cell: Option<string>): (n: int)
    ensures ParseCell(parseNumber, cell).None? ==> n == 0
    ensures ParseCell(parseNumber, cell).Some? ==> n == TruncTowardZero(ParseCell(parseNumber, cell).value)
  {
    match ParseCell(parseNumber, cell)
    case None => 0
    case Some(v) => TruncTowardZero(v)
  }

  /** Coercing the `Cases` column: no row is removed and only `Cases` changes. */
  function CoerceCounts(rows: seq<DatedRow>, parseNumber: string -> Option<real>): (r: seq<CleanRow>)
    ensures |r| == |rows|
    ensures forall i :: 0 <= i < |rows| ==>
      r[i].date == rows[i].date && r[i].rest == rows[i].rest &&
      r[i].cases == CoerceCount(parseNumber, rows[i].cases)
  {
    seq(|rows|, i requires 0 <= i < |rows| =>
      FluRow(rows[i].date, CoerceCount(parseNumber, rows[i].cases), rows[i].rest))
  }

  /** Lines 43 to 49 as one function of the upload rows and the detected columns. */
  function Clean(rows: seq<RawRow>, dateCol: string, caseCol: string,
                 parseDate: string -> Option<Date>, parseNumber: string -> Option<real>): (r: seq<CleanRow>)
    ensures |r| <= |rows|
    ensures forall k :: 0 <= k < |r| ==> dateCol !in r[k].rest && caseCol !in r[k].rest
  {
    CoerceCounts(DropUnparsedDates(RenameAndParseDates(rows, dateCol, caseCol, parseDate)), parseNumber)
  }

  /** The rows of the upload whose date cell does not parse. */
  function UnparseableDates(dateCol: string, parseDate: string -> Option<Date>): RawRow -> bool
  {
    row => ParseCell(parseDate, Cell(row, dateCol)).None?
  }

  /** The upload rows that survive cleaning, by position. */
  ghost function CleanOrigins(rows: seq<RawRow>, dateCol: string, caseCol: string,
                              parseDate: string -> Option<Date>): seq<nat>
  {
    KeptIndices(RenameAndParseDates(rows, dateCol, caseCol, parseDate), HasDate)
  }

  lemma {:induction false} UnparsedCountAgrees(rows: seq<RawRow>, dateCol: string, caseCol: string,
                                               parseDate: string -> Option<Date>)
    ensures Count(RenameAndParseDates(rows, dateCol, caseCol, parseDate), LacksDate)
         == Count(rows, UnparseableDates(dateCol, parseDate))
  {
    if |rows| > 0 {
      var parsed := RenameAndParseDates(rows, dateCol, caseCol, parseDate);
      var init := rows[..|rows| - 1];
      assert parsed[..|parsed| - 1] == RenameAndParseDates(init, dateCol, caseCol, parseDate);
      UnparsedCountAgrees(init, dateCol, caseCol, parseDate);
    }
  }

  /** Cleaning removes exactly the rows whose date does not parse. */
  lemma CleanLength(rows: seq<RawRow>, dateCol: string, caseCol: string,
                    parseDate: string -> Option<Date>, parseNumber: string -> Option<real>)
    ensures |Clean(rows, dateCol, caseCol, parseDate, parseNumber)|
         == |rows| - Count(rows, UnparseableDates(dateCol, parseDate))
  {
    UnparsedCountAgrees(rows, dateCol, caseCol, parseDate);
  }

  /**
   * Row k of the cleaned table comes from upload row `CleanOrigins(...)[k]`: its date is
   * that row's parsed date, its count that row's coerced count, its other columns that
   * row's other columns. The origins increase (order is kept) and include every row
   * whose date parses, whatever its count cell holds.
   */
  lemma CleanOrigin(rows: seq<RawRow>, dateCol: string, caseCol: string,
                    parseDate: string -> Option<Date>, parseNumber: string -> Option<real>)
    ensures |CleanOrigins(rows, dateCol, caseCol, parseDate)| == |Clean(rows, dateCol, caseCol, parseDate, parseNumber)|
    ensures forall k :: 0 <= k < |CleanOrigins(rows, dateCol, caseCol, parseDate)| ==>
      var i := CleanOrigins(rows, dateCol, caseCol, parseDate)[k];
      var out := Clean(rows, dateCol, caseCol, parseDate, parseNumber)[k];
      i < |rows| &&
      ParseCell(parseDate, Cell(rows[i], dateCol)) == Some(out.date) &&
      out.cases == CoerceCount(parseNumber, Cell(rows[i], caseCol)) &&
      out.rest == rows[i] - {dateCol, caseCol}
    ensures forall k, l :: 0 <= k < l < |CleanOrigins(rows, dateCol, caseCol, parseDate)| ==>
      CleanOrigins(rows, dateCol, caseCol, parseDate)[k] < CleanOrigins(rows, dateCol, caseCol, parseDate)[l]
    ensures forall i :: 0 <= i < |rows| && ParseCell(parseDate, Cell(rows[i], dateCol)).Some? ==>
      i in CleanOrigins(rows, dateCol, caseCol, parseDate)
  {
    var parsed := RenameAndParseDates(rows, dateCol, caseCol, parseDate);
    forall i | 0 <= i < |rows| && ParseCell(parseDate, Cell(rows[i], dateCol)).Some?
      ensures i in CleanOrigins(rows, dateCol, caseCol, parseDate)
    {
      assert HasDate(parsed[i]);
      KeptIndicesCover(parsed, HasDate, i);
    }
  }

  /** A row with a valid date and an unparseable count is kept, with `Cases` 0. */
  lemma BadCountBecomesZero(rows: seq<RawRow>, dateCol: string, caseCol: string,
                            parseDate: string -> Option<Date>, parseNumber: string -> Option<real>, i: nat)
    requires i < |rows|
    requires ParseCell(parseDate, Cell(rows[i], dateCol)).Some?
    requires ParseCell(parseNumber, Cell(rows[i], caseCol)).None?
    ensures FluRow(ParseCell(parseDate, Cell(rows[i], dateCol)).value, 0, rows[i] - {dateCol, caseCol})
         in Clean(rows, dateCol, caseCol, parseDate, parseNumber)
  {
    CleanOrigin(rows, dateCol, caseCol, parseDate, parseNumber);
    var idx := CleanOrigins(rows, dateCol, caseCol, parseDate);
    var k :| 0 <= k < |idx| && idx[k] == i;
    assert Clean(rows, dateCol, caseCol, parseDate, parseNumber)[k]
        == FluRow(ParseCell(parseDate, Cell(rows[i], dateCol)).value, 0, rows[i] - {dateCol, caseCol});
  }
}
