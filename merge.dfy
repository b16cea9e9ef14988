/**
 * `pd.merge(flu_df, weather_df, on='Date', how='inner')`: the left (flu) rows in
 * order, and for each of them every weather row with an equal date, in weather order.
 */
module Merging {
  import opened Tables
  import opened Seqs

  /** The merged row of a flu row and a weather row: the flu columns, then the weather ones. */
  function Combine(f: CleanRow, w: WeatherRow): CombinedRow
  {
    CombinedRow(f.date, f.cases, f.rest, w.tempMax, w.tempMin, w.rainfall)
  }

  function OnDate(d: Date): WeatherRow -> bool
  {
    (w: WeatherRow) => w.date == d
  }

  /** The merged rows one flu row contributes: one per weather row of that date, in order. */
  function MatchesOf(f: CleanRow, weather: seq<WeatherRow>): (r: seq<CombinedRow>)
    ensures |r| == Count(weather, OnDate(f.date)) == |KeptIndices(weather, OnDate(f.date))|
    ensures forall k :: 0 <= k < |r| ==> r[k] == Combine(f, weather[KeptIndices(weather, OnDate(f.date))[k]])
  {
    var kept := Filter(weather, OnDate(f.date));
    FilterLength(weather, OnDate(f.date), (w: WeatherRow) => !OnDate(f.date)(w));
    seq(|kept|, k requires 0 <= k < |kept| => Combine(f, kept[k]))
  }

  /** The inner merge itself: every merged date is a date of both tables. */
  function Merge(flu: seq<CleanRow>, weather: seq<WeatherRow>): (r: seq<CombinedRow>)
    ensures forall k :: 0 <= k < |r| ==>
      (exists i :: 0 <= i < |flu| && flu[i].date == r[k].date) &&
      (exists j :: 0 <= j < |weather| && weather[j].date == r[k].date)
  {
    if |flu| == 0 then [] else MatchesOf(flu[0], weather) + Merge(flu[1..], weather)
  }

  /** Every merged row comes from a flu row and a weather row that share its date. */
  lemma {:induction false} MergeSound(flu: seq<CleanRow>, weather: seq<WeatherRow>, x: CombinedRow)
    requires x in Merge(flu, weather)
    ensures exists i, j :: 0 <= i < |flu| && 0 <= j < |weather| &&
                           flu[i].date == weather[j].date && x == Combine(flu[i], weather[j])
  {
    var m := MatchesOf(flu[0], weather);
    if x in m {
      var k :| 0 <= k < |m| && m[k] == x;
      var j := KeptIndices(weather, OnDate(flu[0].date))[k];
      assert flu[0].date == weather[j].date && x == Combine(flu[0], weather[j]);
    } else {
      MergeSound(flu[1..], weather, x);
      var i, j :| 0 <= i < |flu[1..]| && 0 <= j < |weather| &&
        flu[1..][i].date == weather[j].date && x == Combine(flu[1..][i], weather[j]);
      assert flu[i + 1] == flu[1..][i];
    }
  }

  /** So every merged row's date occurs in both the flu table and the weather table. */
  lemma MergedDateInBoth(flu: seq<CleanRow>, weather: seq<WeatherRow>, x: CombinedRow)
    requires x in Merge(flu, weather)
    ensures exists i :: 0 <= i < |flu| && flu[i].date == x.date
    ensures exists j :: 0 <= j < |weather| && weather[j].date == x.date
  {
  }

  /** Every pair of a flu row and a weather row with equal dates is merged. */
  lemma {:induction false} MergeComplete(flu: seq<CleanRow>, weather: seq<WeatherRow>, i: nat, j: nat)
    requires i < |flu| && j < |weather| && flu[i].date == weather[j].date
    ensures Combine(flu[i], weather[j]) in Merge(flu, weather)
  {
    if i == 0 {
      var idx := KeptIndices(weather, OnDate(flu[0].date));
      assert OnDate(flu[0].date)(weather[j]);
      KeptIndicesCover(weather, OnDate(flu[0].date), j);
      var k :| 0 <= k < |idx| && idx[k] == j;
      assert MatchesOf(flu[0], weather)[k] == Combine(flu[0], weather[j]);
    } else {
      MergeComplete(flu[1..], weather, i - 1, j);
      assert flu[1..][i - 1] == flu[i];
    }
  }

  /** The merge follows the flu table: merging a concatenation concatenates the merges. */
  lemma {:induction false} MergeAppend(a: seq<CleanRow>, b: seq<CleanRow>, weather: seq<WeatherRow>)
    ensures Merge(a + b, weather) == Merge(a, weather) + Merge(b, weather)
  {
    if |a| == 0 {
      assert a + b == b;
    } else {
      assert (a + b)[1..] == a[1..] + b;
      MergeAppend(a[1..], b, weather);
    }
  }

  /** One flu row merges into its weather matches alone. */
  lemma MergeOne(f: CleanRow, weather: seq<WeatherRow>)
    ensures Merge([f], weather) == MatchesOf(f, weather)
  {
  }

  /** The merge is empty exactly when no flu date equals a weather date. */
  lemma MergeEmptyIff(flu: seq<CleanRow>, weather: seq<WeatherRow>)
    ensures Merge(flu, weather) == [] <==>
      forall i, j :: 0 <= i < |flu| && 0 <= j < |weather| ==> flu[i].date != weather[j].date
  {
    if Merge(flu, weather) != [] {
      MergeSound(flu, weather, Merge(flu, weather)[0]);
    }
    forall i, j | 0 <= i < |flu| && 0 <= j < |weather| && flu[i].date == weather[j].date
      ensures Merge(flu, weather) != []
    {
      MergeComplete(flu, weather, i, j);
    }
  }

  /** The number of weather rows each flu row matches, summed over the flu table. */
  function PairCount(flu: seq<CleanRow>, weather: seq<WeatherRow>): nat
  {
    if |flu| == 0 then 0 else Count(weather, OnDate(flu[0].date)) + PairCount(flu[1..], weather)
  }

  /** Each matching pair yields exactly one merged row. */
  lemma {:induction false} MergeSize(flu: seq<CleanRow>, weather: seq<WeatherRow>)
    ensures |Merge(flu, weather)| == PairCount(flu, weather)
  {
    if |flu| > 0 {
      MergeSize(flu[1..], weather);
    }
  }
}
