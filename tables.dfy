/**
 * The tables the dashboard passes between its stages, as values.
 *
 * A pandas frame is modelled as a column list plus a sequence of rows. An uploaded
 * row maps a column name to the text of its cell; a column name that the row does
 * not map stands for an empty (NaN) cell. After the flu columns have been mapped,
 * a row is a record with a `Date`, a `Cases` and the remaining columns.
 */
module Tables {
  import opened Wrappers

  /** A parsed timestamp. Only its order matters to the pipeline. */
  type Date = int

  type RawRow = map<string, string>

  datatype RawTable = RawTable(columns: seq<string>, rows: seq<RawRow>)

  /** The cell of `row` under `column`; `None` is a missing (NaN) cell. */
  function Cell(row: RawRow, column: string): Option<string>
  {
    if column in row then Some(row[column]) else None
  }

  /** A parser applied to a cell; a missing cell never parses. */
  function ParseCell<T>(parse: string -> Option<T>, cell: Option<string>): Option<T>
  {
    match cell
    case None => None
    case Some(text) => parse(text)
  }

  /**
   * A flu row after the date and case columns have been renamed to `Date` and
   * `Cases`; `rest` holds every other column of the upload. The types of the two
   * renamed columns change from stage to stage of the cleaning.
   */
  datatype FluRow<D, C> = FluRow(date: D, cases: C, rest: map<string, string>)

  /** After `Date` has been parsed with errors coerced to NaT. */
  type ParsedRow = FluRow<Option<Date>, Option<string>>
  /** After the NaT rows have been dropped. */
  type DatedRow = FluRow<Date, Option<string>>
  /** After `Cases` has been coerced to an integer. */
  type CleanRow = FluRow<Date, int>

  /** One day of the weather frame built from the archive response. */
  datatype WeatherRow = WeatherRow(date: Date, tempMax: real, tempMin: real, rainfall: real)

  /** One row of the inner merge of the flu frame and the weather frame on `Date`. */
  datatype CombinedRow = CombinedRow(
    date: Date, cases: int, rest: map<string, string>,
    tempMax: real, tempMin: real, rainfall: real)

  /** A combined row with its `Predicted_Cases` column. */
  datatype ProjectedRow = ProjectedRow(row: CombinedRow, predictedCases: int)
}
