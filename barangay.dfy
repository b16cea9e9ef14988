/**
 * The optional Barangay selection: when the flu upload has a `Barangay` column the
 * user picks `'All'` or one of its values, and the plot shows the merged rows of
 * that Barangay only.
 */
module Barangay {
  import opened Wrappers
  import opened Tables
  import opened Seqs
  import opened StringOrder

  const BarangayColumn: string := "Barangay"
  const AllBarangays: string := "All"

  function BarangayOf(rest: map<string, string>): Option<string>
  {
    if BarangayColumn in rest then Some(rest[BarangayColumn]) else None
  }

  /** The `Barangay` values of the cleaned flu rows, in row order. */
  function FluBarangays(flu: seq<CleanRow>): (r: seq<string>)
    ensures forall b :: b in r <==> exists i :: 0 <= i < |flu| && BarangayOf(flu[i].rest) == Some(b)
  {
    if |flu| == 0 then []
    else
      var init := flu[..|flu| - 1];
      var last := flu[|flu| - 1];
      var pre := FluBarangays(init);
      assert forall i :: 0 <= i < |init| ==> init[i] == flu[i];
      pre + (match BarangayOf(last.rest) case Some(b) => [b] case None => [])
  }

  /**
   * `['All'] + sorted(flu_df['Barangay'].unique())`: `'All'` first, then each value
   * of the column once, in increasing order.
   */
  function BarangayOptions(flu: seq<CleanRow>): (r: seq<string>)
    ensures |r| >= 1 && r[0] == AllBarangays
    ensures StrictlySorted(r[1..])
    ensures forall b :: b in r[1..] <==> exists i :: 0 <= i < |flu| && BarangayOf(flu[i].rest) == Some(b)
  {
    var values := SortedDistinct(FluBarangays(flu));
    assert ([AllBarangays] + values)[1..] == values;
    [AllBarangays] + values
  }

  function InBarangay(selected: string): ProjectedRow -> bool
  {
    (p: ProjectedRow) => BarangayOf(p.row.rest) == Some(selected)
  }

  /**
   * `plot_df`: a copy of the merged rows, unless the upload has a Barangay column and
   * the selection is not `'All'`, in which case the rows of the selected Barangay.
   */
  function PlotRows(combined: seq<ProjectedRow>, hasBarangayColumn: bool, selected: string): (r: seq<ProjectedRow>)
    ensures !hasBarangayColumn || selected == AllBarangays ==> r == combined
    ensures hasBarangayColumn && selected != AllBarangays ==>
      forall k :: 0 <= k < |r| ==> BarangayOf(r[k].row.rest) == Some(selected)
  {
    if hasBarangayColumn && selected != AllBarangays then Filter(combined, InBarangay(selected))
    else combined
  }

  /**
   * With a Barangay selected, the plot keeps exactly the merged rows of that Barangay:
   * none is lost, none is added, and they stay in merged order.
   */
  lemma PlotRowsOfSelected(combined: seq<ProjectedRow>, selected: string)
    requires selected != AllBarangays
    ensures forall x :: x in PlotRows(combined, true, selected) <==> x in combined && BarangayOf(x.row.rest) == Some(selected)
    ensures |PlotRows(combined, true, selected)| == Count(combined, InBarangay(selected))
    ensures |KeptIndices(combined, InBarangay(selected))| == |PlotRows(combined, true, selected)|
    ensures forall k :: 0 <= k < |PlotRows(combined, true, selected)| ==>
      PlotRows(combined, true, selected)[k] == combined[KeptIndices(combined, InBarangay(selected))[k]]
  {
    forall x ensures x in PlotRows(combined, true, selected) <==> x in combined && BarangayOf(x.row.rest) == Some(selected) {
      FilterMembership(combined, InBarangay(selected), x);
    }
    FilterLength(combined, InBarangay(selected), (p: ProjectedRow) => !InBarangay(selected)(p));
  }

  /** The plot shows merged rows only. */
  lemma PlotRowsAreMerged(combined: seq<ProjectedRow>, hasBarangayColumn: bool, selected: string)
    ensures forall k :: 0 <= k < |PlotRows(combined, hasBarangayColumn, selected)| ==>
      PlotRows(combined, hasBarangayColumn, selected)[k] in combined
  {
    if hasBarangayColumn && selected != AllBarangays {
      PlotRowsOfSelected(combined, selected);
    }
  }

  /** When every merged row is in the selected Barangay, selecting it loses nothing. */
  lemma PlotRowsOfOnlyBarangay(combined: seq<ProjectedRow>, selected: string)
    requires forall k :: 0 <= k < |combined| ==> BarangayOf(combined[k].row.rest) == Some(selected)
    ensures PlotRows(combined, true, selected) == combined
  {
    if selected != AllBarangays {
      FilterKeepsAll(combined, InBarangay(selected));
    }
  }
}
