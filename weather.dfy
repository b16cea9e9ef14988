/**
 * Building the weather frame from the archive response: the `daily` object's
 * parallel arrays are zipped index by index into rows. Every failure here happens
 * inside the fetch's `try` block and stops the dashboard with "Failed to fetch
 * weather data".
 */
module Weather {
  import opened Wrappers
  import opened Tables

  /** The `daily` object of the response; an absent key is `None`. */
  datatype Daily = Daily(
    time: Option<seq<string>>,
    temperatureMax: Option<seq<real>>,
    temperatureMin: Option<seq<real>>,
    precipitationSum: Option<seq<real>>)

  /**
   * What the HTTP call hands back: a failure (connection error, timeout, non-2xx
   * status, undecodable JSON) or a decoded body with or without a `daily` key.
   */
  datatype FetchOutcome = RequestFailed | Body(daily: Option<Daily>)

  datatype WeatherFailure =
    | HttpFailed          // requests.get, raise_for_status or json() raised
    | DailyMissing        // j['daily'] raised KeyError
    | TimeMissing         // j['daily']['time'] raised KeyError
    | TimeUnparseable     // pd.to_datetime raised on some entry
    | LengthMismatch      // pd.DataFrame refused arrays of different lengths

  /** `pd.to_datetime(list)` without `errors='coerce'`: one bad entry fails the whole list. */
  function ParseAll(times: seq<string>, parseDate: string -> Option<Date>): (r: Option<seq<Date>>)
    ensures r.Some? ==> |r.value| == |times| && forall i :: 0 <= i < |times| ==> parseDate(times[i]) == Some(r.value[i])
    ensures r.None? <==> exists i :: 0 <= i < |times| && parseDate(times[i]).None?
  {
    if |times| == 0 then Some([])
    else
      var init := times[..|times| - 1];
      match (ParseAll(init, parseDate), parseDate(times[|times| - 1]))
      case (Some(ds), Some(d)) =>
        assert forall i :: 0 <= i < |init| ==> init[i] == times[i];
        Some(ds + [d])
      case (None, _) =>
        var i :| 0 <= i < |init| && parseDate(init[i]).None?;
        assert times[i] == init[i];
        None
      case (_, None) => None
  }

  /** The four columns zipped index by index; they have the same length. */
  function Zip(dates: seq<Date>, tempMax: seq<real>, tempMin: seq<real>, rainfall: seq<real>): (r: seq<WeatherRow>)
    requires |tempMax| == |dates| && |tempMin| == |dates| && |rainfall| == |dates|
    ensures |r| == |dates|
    ensures forall i :: 0 <= i < |r| ==> r[i] == WeatherRow(dates[i], tempMax[i], tempMin[i], rainfall[i])
  {
    seq(|dates|, i requires 0 <= i < |dates| => WeatherRow(dates[i], tempMax[i], tempMin[i], rainfall[i]))
  }

  function OrEmpty(column: Option<seq<real>>): seq<real>
  {
    match column
    case None => []
    case Some(values) => values
  }

  /**
   * `pd.DataFrame({'Date': ..., 'Temp_Max': ..., 'Temp_Min': ..., 'Rainfall': ...})`.
   * `time` is required; the other three arrays default to empty. The frame exists
   * exactly when every time parses and all four arrays have the same length, and then
   * row i carries entry i of each array.
   */
  function BuildWeather(daily: Daily, parseDate: string -> Option<Date>): (r: Result<seq<WeatherRow>, WeatherFailure>)
    ensures daily.time.None? <==> r == Failure(TimeMissing)
    ensures r == Failure(TimeUnparseable) <==>
      daily.time.Some? && exists i :: 0 <= i < |daily.time.value| && parseDate(daily.time.value[i]).None?
    ensures r == Failure(LengthMismatch) <==>
      daily.time.Some? && (forall i :: 0 <= i < |daily.time.value| ==> parseDate(daily.time.value[i]).Some?) &&
      !(|OrEmpty(daily.temperatureMax)| == |OrEmpty(daily.temperatureMin)| == |OrEmpty(daily.precipitationSum)| == |daily.time.value|)
    ensures r.Failure? ==> r.error != HttpFailed && r.error != DailyMissing
    ensures r.Success? <==>
      daily.time.Some? && (forall i :: 0 <= i < |daily.time.value| ==> parseDate(daily.time.value[i]).Some?) &&
      |OrEmpty(daily.temperatureMax)| == |OrEmpty(daily.temperatureMin)| == |OrEmpty(daily.precipitationSum)| == |daily.time.value|
    ensures r.Success? ==>
      |r.value| == |daily.time.value| &&
      forall i :: 0 <= i < |r.value| ==>
        parseDate(daily.time.value[i]) == Some(r.value[i].date) &&
        r.value[i].tempMax == OrEmpty(daily.temperatureMax)[i] &&
        r.value[i].tempMin == OrEmpty(daily.temperatureMin)[i] &&
        r.value[i].rainfall == OrEmpty(daily.precipitationSum)[i]
  {
    match daily.time
    case None => Failure(TimeMissing)
    case Some(times) =>
      match ParseAll(times, parseDate)
      case None => Failure(TimeUnparseable)
      case Some(dates) =>
        var tempMax, tempMin, rainfall := OrEmpty(daily.temperatureMax), OrEmpty(daily.temperatureMin), OrEmpty(daily.precipitationSum);
        if |tempMax| == |dates| && |tempMin| == |dates| && |rainfall| == |dates|
        then Success(Zip(dates, tempMax, tempMin, rainfall))
        else Failure(LengthMismatch)
  }

  /** The whole `try` block of the fetch, from the HTTP outcome to the frame. */
  function WeatherFrom(outcome: FetchOutcome, parseDate: string -> Option<Date>): (r: Result<seq<WeatherRow>, WeatherFailure>)
    ensures outcome.RequestFailed? <==> r == Failure(HttpFailed)
    ensures (outcome.Body? && outcome.daily.None?) <==> r == Failure(DailyMissing)
    ensures outcome.Body? && outcome.daily.Some? ==> r == BuildWeather(outcome.daily.value, parseDate)
  {
    match outcome
    case RequestFailed => Failure(HttpFailed)
    case Body(None) => Failure(DailyMissing)
    case Body(Some(daily)) => BuildWeather(daily, parseDate)
  }

  /** An absent temperature or rainfall array only works when `time` is empty too. */
  lemma AbsentArrayNeedsEmptyTime(daily: Daily, parseDate: string -> Option<Date>)
    requires daily.time.Some? && |daily.time.value| > 0
    requires daily.temperatureMax.None? || daily.temperatureMin.None? || daily.precipitationSum.None?
    ensures BuildWeather(daily, parseDate).Failure?
  {
  }
}
