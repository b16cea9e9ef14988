/**
 * The date range of the weather request: from the earliest to the latest date of the
 * cleaned flu table. On an empty table `min()` is NaT and formatting it fails, so
 * there is no range.
 */
module DateRange {
  import opened Wrappers
  import opened Tables

  datatype Range = Range(start: Date, end: Date)

  /** `flu_df['Date'].min()` on a non-empty table. */
  function Earliest(rows: seq<CleanRow>): (d: Date)
    requires |rows| > 0
    ensures exists i :: 0 <= i < |rows| && rows[i].date == d
    ensures forall i :: 0 <= i < |rows| ==> d <= rows[i].date
  {
    if |rows| == 1 then rows[0].date
    else
      var init := rows[..|rows| - 1];
      var m := Earliest(init);
      assert forall i :: 0 <= i < |init| ==> init[i] == rows[i];
      if rows[|rows| - 1].date < m then rows[|rows| - 1].date else m
  }

  /** `flu_df['Date'].max()` on a non-empty table. */
  function Latest(rows: seq<CleanRow>): (d: Date)
    requires |rows| > 0
    ensures exists i :: 0 <= i < |rows| && rows[i].date == d
    ensures forall i :: 0 <= i < |rows| ==> rows[i].date <= d
  {
    if |rows| == 1 then rows[0].date
    else
      var init := rows[..|rows| - 1];
      var m := Latest(init);
      assert forall i :: 0 <= i < |init| ==> init[i] == rows[i];
      if m < rows[|rows| - 1].date then rows[|rows| - 1].date else m
  }

  /**
   * The `start_date`/`end_date` pair: absent exactly when no row survived cleaning;
   * otherwise both ends are dates of the table and every date of the table lies
   * between them.
   */
  function RequestRange(rows: seq<CleanRow>): (r: Option<Range>)
    ensures r.None? <==> |rows| == 0
    ensures r.Some? ==> r.value.start <= r.value.end
    ensures r.Some? ==> forall i :: 0 <= i < |rows| ==> r.value.start <= rows[i].date <= r.value.end
    ensures r.Some? ==> exists i :: 0 <= i < |rows| && rows[i].date == r.value.start
    ensures r.Some? ==> exists i :: 0 <= i < |rows| && rows[i].date == r.value.end
  {
    if |rows| == 0 then None
    else
      assert Earliest(rows) <= rows[0].date <= Latest(rows);
      Some(Range(Earliest(rows), Latest(rows)))
  }
}
