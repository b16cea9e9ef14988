/**
 * The dashboard script from upload to plot rows. Every `st.stop()` (and the one
 * uncaught exception, formatting the minimum date of an empty table) becomes a
 * `Stop`; the two `st.warning` conditions become flags of the report. The CSV
 * parser, the date and number parsers and the HTTP call are parameters.
 */
module Dashboard {
  import opened Wrappers
  import opened Tables
  import opened ColumnAliases
  import opened Cleaning
  import opened DateRange
  import opened Weather
  import opened Merging
  import opened Projection
  import opened Barangay

  datatype Stop =
    | DateColumnMissing
    | CaseColumnMissing
    | NoDatedRows
    | WeatherUnavailable(cause: WeatherFailure)

  datatype Report = Report(
    flu: seq<CleanRow>,
    range: Range,
    weather: seq<WeatherRow>,
    combined: seq<ProjectedRow>,
    mergeEmpty: bool,
    barangayOptions: Option<seq<string>>,
    plotRows: seq<ProjectedRow>,
    plotEmpty: bool)

  /** Both a date alias and a case alias are among the columns. */
  predicate ColumnsFound(columns: seq<string>)
  {
    FirstPresent(DateAliases, columns).Some? && FirstPresent(CaseAliases, columns).Some?
  }

  /** The cleaned rows of an upload whose columns were found. */
  function CleanedUpload(upload: RawTable, parseDate: string -> Option<Date>, parseNumber: string -> Option<real>): seq<CleanRow>
    requires ColumnsFound(upload.columns)
  {
    Clean(upload.rows, FirstPresent(DateAliases, upload.columns).value,
          FirstPresent(CaseAliases, upload.columns).value, parseDate, parseNumber)
  }

  /**
   * Column detection and cleaning of the upload. Fails when no date alias is among
   * the columns, else when no case alias is; otherwise the cleaned rows for the two
   * first-matching aliases.
   */
  method LoadFlu(upload: RawTable, parseDate: string -> Option<Date>, parseNumber: string -> Option<real>)
    returns (r: Result<seq<CleanRow>, Stop>)
    ensures r == Failure(DateColumnMissing) <==> FirstPresent(DateAliases, upload.columns).None?
    ensures r == Failure(CaseColumnMissing) <==>
      FirstPresent(DateAliases, upload.columns).Some? && FirstPresent(CaseAliases, upload.columns).None?
    ensures r.Success? <==> ColumnsFound(upload.columns)
    ensures r.Success? ==> r.value == CleanedUpload(upload, parseDate, parseNumber)
  {
    var dateCol := DetectColumn(DateAliases, upload.columns);
    if dateCol.None? {
      return Failure(DateColumnMissing);
    }
    var caseCol := DetectColumn(CaseAliases, upload.columns);
    if caseCol.None? {
      return Failure(CaseColumnMissing);
    }
    var parsed := RenameAndParseDates(upload.rows, dateCol.value, caseCol.value, parseDate);
    var dated := DropUnparsedDates(parsed);
    var flu := CoerceCounts(dated, parseNumber);
    r := Success(flu);
  }

  /** Whatever the Barangay selection, every plotted prediction is at least 0. */
  lemma PlottedPredictionsNonNegative(merged: seq<CombinedRow>, hasBarangayColumn: bool, selected: string)
    ensures forall k :: 0 <= k < |PlotRows(AddPredicted(merged), hasBarangayColumn, selected)| ==>
      PlotRows(AddPredicted(merged), hasBarangayColumn, selected)[k].predictedCases >= 0
  {
    var combined := AddPredicted(merged);
    PlotRowsAreMerged(combined, hasBarangayColumn, selected);
    assert forall x :: x in combined ==> x.predictedCases >= 0;
  }

  /**
   * Everything after the weather frame exists: the merge and its empty warning, the
   * prediction column, the Barangay choices and the rows to plot.
   */
  method Assemble(flu: seq<CleanRow>, range: Range, weather: seq<WeatherRow>, hasBarangayColumn: bool, selected: string)
    returns (report: Report)
    ensures report.flu == flu && report.range == range && report.weather == weather
    ensures report.combined == AddPredicted(Merge(flu, weather))
    ensures report.mergeEmpty <==>
      forall i, j :: 0 <= i < |flu| && 0 <= j < |weather| ==> flu[i].date != weather[j].date
    ensures report.barangayOptions == if hasBarangayColumn then Some(BarangayOptions(flu)) else None
    ensures report.plotRows == PlotRows(report.combined, hasBarangayColumn, selected)
    ensures report.plotEmpty <==> report.plotRows == []
    ensures forall k :: 0 <= k < |report.plotRows| ==> report.plotRows[k].predictedCases >= 0
  {
    var merged := Merge(flu, weather);
    MergeEmptyIff(flu, weather);
    var combined := AddPredicted(merged);
    var options := if hasBarangayColumn then Some(BarangayOptions(flu)) else None;
    var plotRows := PlotRows(combined, hasBarangayColumn, selected);
    PlottedPredictionsNonNegative(merged, hasBarangayColumn, selected);
    report := Report(flu, range, weather, combined, merged == [], options, plotRows, plotRows == []);
  }

  /**
   * One run of the script. It stops for a missing column, for a table left empty by
   * cleaning, or for a failed weather fetch; otherwise the report holds the cleaned
   * flu rows, the request range they span, the weather frame fetched for it, the
   * merged rows with their prediction, the Barangay choices and the rows to plot.
   */
  method Run(upload: RawTable, parseDate: string -> Option<Date>, parseNumber: string -> Option<real>,
             fetch: Range -> FetchOutcome, selected: string)
    returns (r: Result<Report, Stop>)
    ensures r == Failure(DateColumnMissing) <==> FirstPresent(DateAliases, upload.columns).None?
    ensures r == Failure(CaseColumnMissing) <==>
      FirstPresent(DateAliases, upload.columns).Some? && FirstPresent(CaseAliases, upload.columns).None?
    ensures r == Failure(NoDatedRows) <==>
      ColumnsFound(upload.columns) && CleanedUpload(upload, parseDate, parseNumber) == []
    ensures r.Failure? && r.error.WeatherUnavailable? ==>
      && ColumnsFound(upload.columns)
      && CleanedUpload(upload, parseDate, parseNumber) != []
      && WeatherFrom(fetch(RequestRange(CleanedUpload(upload, parseDate, parseNumber)).value), parseDate)
         == Failure(r.error.cause)
    ensures r.Success? ==>
      && ColumnsFound(upload.columns)
      && r.value.flu == CleanedUpload(upload, parseDate, parseNumber)
      && RequestRange(r.value.flu) == Some(r.value.range)
      && WeatherFrom(fetch(r.value.range), parseDate) == Success(r.value.weather)
      && r.value.combined == AddPredicted(Merge(r.value.flu, r.value.weather))
      && r.value.barangayOptions == (if BarangayColumn in upload.columns then Some(BarangayOptions(r.value.flu)) else None)
      && r.value.plotRows == PlotRows(r.value.combined, BarangayColumn in upload.columns, selected)
      && (r.value.plotEmpty <==> r.value.plotRows == [])
    ensures r.Success? ==>
      (r.value.mergeEmpty <==>
        forall i, j :: 0 <= i < |r.value.flu| && 0 <= j < |r.value.weather| ==>
          r.value.flu[i].date != r.value.weather[j].date)
    ensures r.Success? ==> forall k :: 0 <= k < |r.value.plotRows| ==> r.value.plotRows[k].predictedCases >= 0
  {
    var loaded := LoadFlu(upload, parseDate, parseNumber);
    if loaded.Failure? {
      return Failure(loaded.error);
    }
    var flu := loaded.value;
    var range := RequestRange(flu);
    if range.None? {
      return Failure(NoDatedRows);
    }
    var weather := WeatherFrom(fetch(range.value), parseDate);
    if weather.Failure? {
      return Failure(WeatherUnavailable(weather.error));
    }
    var hasBarangay := BarangayColumn in upload.columns;  // neither alias list contains it, so renaming keeps it
    var report := Assemble(flu, range.value, weather.value, hasBarangay, selected);
    r := Success(report);
  }
}
