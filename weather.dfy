/** The two weather tools of `ToolsSetup.build_tools`. The weather service
    is foreign: the JSON it decodes (or its failure) is an input. A Python
    dictionary that is None or empty is falsy and is modelled as `None`;
    a `Some` reply stands for a non-empty dictionary. Temperatures are
    carried as the text Python's formatting gives them. */
module Weather {
  import opened Common
  import opened Text

  const NotAvailable := "N/A"
  const Celsius := "\U{00B0}C, "

  /** One entry of the reply's `weather` list. */
  datatype Condition = Condition(description: Option<string>)

  /** The current-weather reply: `temp` is None when `main` or `main.temp`
      is absent; `weather` is None when the key is absent. */
  datatype CurrentReply = CurrentReply(temp: Option<string>, weather: Option<seq<Condition>>)

  function OrNotAvailable(s: Option<string>): string
  {
    if s.Some? then s.value else NotAvailable
  }

  function CurrentWeatherText(city: string, temp: string, description: string): string
  {
    "Current weather in " + city + ": " + temp + Celsius + description
  }

  function CurrentWeatherFailure(city: string): string
  {
    "Could not fetch weather for " + city
  }

  /** `get_current_weather`: a missing temperature or description reads
      "N/A" (an absent `weather` key defaults to `[{}]`); a present but
      empty `weather` list raises IndexError; a falsy reply gives the
      failure text. */
  function GetCurrentWeather(city: string, data: Option<CurrentReply>): (r: Outcome<string>)
    ensures data.None? ==> r == Ok(CurrentWeatherFailure(city))
    ensures data.Some? ==> (r.Raised? <==> data.value.weather == Some([]))
    ensures r.Raised? ==> r.error == EmptyWeatherList
    ensures data.Some? && data.value.weather != Some([]) ==>
      r == Ok(CurrentWeatherText(city,
                                 if data.value.temp.Some? then data.value.temp.value else NotAvailable,
                                 if data.value.weather.Some? && data.value.weather.value[0].description.Some?
                                 then data.value.weather.value[0].description.value else NotAvailable))
  {
    match data
    case None => Ok(CurrentWeatherFailure(city))
    case Some(reply) =>
      var temp := OrNotAvailable(reply.temp);
      var conditions := if reply.weather.Some? then reply.weather.value else [Condition(None)];
      if |conditions| == 0 then Raised(EmptyWeatherList)
      else Ok(CurrentWeatherText(city, temp, OrNotAvailable(conditions[0].description)))
  }

  /** The failure text can never be mistaken for a report, whatever the cities. */
  lemma CurrentWeatherFailureDistinct(city: string, other: string, temp: string, description: string)
    ensures CurrentWeatherText(other, temp, description) != CurrentWeatherFailure(city)
  {
    assert CurrentWeatherText(other, temp, description)[1] == 'u';
    assert CurrentWeatherFailure(city)[1] == 'o';
  }

  // ---------------------------------------------------------------------------
  // Forecast

  /** One entry of the forecast reply's `list`; a field is None when the
      key path `dt_txt`, `main.temp` or `weather[0].description` is missing. */
  datatype ForecastEntry = ForecastEntry(dtTxt: Option<string>, temp: Option<string>, description: Option<string>)

  /** The forecast reply; `list` is None when the key is absent. */
  datatype ForecastReply = ForecastReply(list: Option<seq<ForecastEntry>>)

  /** The default of `get_weather_forecast`'s `days` parameter. */
  const DefaultForecastDays := 5

  /** The forecast has one entry per three hours: eight per day. */
  const EntriesPerDay := 8

  predicate WellFormed(e: ForecastEntry)
  {
    e.dtTxt.Some? && e.temp.Some? && e.description.Some?
  }

  /** `"{date}: {temp}°C, {desc}"` with the date cut at the first space. */
  function ForecastLine(e: ForecastEntry): string
    requires WellFormed(e)
  {
    BeforeFirstSpace(e.dtTxt.value) + ": " + e.temp.value + Celsius + e.description.value
  }

  /** `min(len(list), days * 8)`. */
  function SampleStop(length: nat, days: int): int
  {
    if length < days * EntriesPerDay then length else days * EntriesPerDay
  }

  /** The number of indices in `range(0, stop, 8)`. */
  function SampleCount(stop: int): nat
  {
    if stop <= 0 then 0 else (stop + EntriesPerDay - 1) / EntriesPerDay
  }

  lemma SampleIndexBelowStop(stop: int, k: nat)
    requires k < SampleCount(stop)
    ensures EntriesPerDay * k < stop
  {
  }

  /** The entries the loop visits: indices 0, 8, 16, ... below the stop, in order. */
  function Sampled(list: seq<ForecastEntry>, days: int): (s: seq<ForecastEntry>)
    ensures |s| == SampleCount(SampleStop(|list|, days))
    ensures forall k :: 0 <= k < |s| ==> EntriesPerDay * k < |list| && s[k] == list[EntriesPerDay * k]
  {
    var stop := SampleStop(|list|, days);
    seq(SampleCount(stop), k requires 0 <= k < SampleCount(stop) =>
      SampleIndexBelowStop(stop, k); list[EntriesPerDay * k])
  }

  function ForecastHeader(city: string): string
  {
    "Weather forecast for " + city + ":\n"
  }

  function ForecastFailure(city: string): string
  {
    "Could not fetch forecast for " + city
  }

  function ForecastLines(entries: seq<ForecastEntry>): (lines: seq<string>)
    requires forall k :: 0 <= k < |entries| ==> WellFormed(entries[k])
  {
    seq(|entries|, k requires 0 <= k < |entries| => ForecastLine(entries[k]))
  }

  /** What `get_weather_forecast` returns or raises. */
  function ForecastReport(city: string, days: int, data: Option<ForecastReply>): (r: Outcome<string>)
    ensures r == Ok(ForecastFailure(city)) <==> data.None? || data.value.list.None?
    ensures r.Raised? <==>
      && data.Some? && data.value.list.Some?
      && exists k :: 0 <= k < |Sampled(data.value.list.value, days)| && !WellFormed(Sampled(data.value.list.value, days)[k])
    ensures r.Raised? ==> r.error == MissingField
    ensures r.Ok? && data.Some? && data.value.list.Some? ==>
      && ForecastHeader(city) <= r.value
      && r.value[|ForecastHeader(city)|..] == Join(ForecastLines(Sampled(data.value.list.value, days)), "\n")
  {
    if data.None? || data.value.list.None? then Ok(ForecastFailure(city))
    else
      var s := Sampled(data.value.list.value, days);
      if forall k :: 0 <= k < |s| ==> WellFormed(s[k]) then
        var report := ForecastHeader(city) + Join(ForecastLines(s), "\n");
        assert report[0] == 'W' != ForecastFailure(city)[0];
        Ok(report)
      else
        Raised(MissingField)
  }

  /** `get_weather_forecast`: walks the list with stride 8, appending one line per visited entry. */
  method GetWeatherForecast(city: string, days: int, data: Option<ForecastReply>) returns (r: Outcome<string>)
    ensures r == ForecastReport(city, days, data)
  {
    if data.None? || data.value.list.None? {
      return Ok(ForecastFailure(city));
    }
    var list := data.value.list.value;
    var stop := SampleStop(|list|, days);
    ghost var sampled := Sampled(list, days);
    var summary: seq<string> := [];
    var i := 0;
    while i < stop
      invariant i == EntriesPerDay * |summary|
      invariant |summary| <= |sampled|
      invariant forall k :: 0 <= k < |summary| ==> WellFormed(sampled[k])
      invariant summary == ForecastLines(sampled[..|summary|])
    {
      assert |summary| < |sampled|;
      var item := list[i];
      assert item == sampled[|summary|];
      if !WellFormed(item) {
        return Raised(MissingField);
      }
      summary := summary + [ForecastLine(item)];
      i := i + EntriesPerDay;
    }
    assert |summary| == |sampled|;
    assert sampled[..|summary|] == sampled;
    r := Ok(ForecastHeader(city) + Join(summary, "\n"));
  }

  /** At most `days` lines, none when `days <= 0`, and exactly `days` when
      the reply holds at least `days * 8` entries. */
  lemma ForecastLineCount(list: seq<ForecastEntry>, days: int)
    ensures days <= 0 ==> |Sampled(list, days)| == 0
    ensures days > 0 ==> |Sampled(list, days)| <= days
    ensures days > 0 && |list| >= days * EntriesPerDay ==> |Sampled(list, days)| == days
  {
  }

  /** With the default of five days and a full reply of 40 entries, the
      forecast has exactly five lines. */
  lemma DefaultForecastLineCount(list: seq<ForecastEntry>)
    requires |list| >= DefaultForecastDays * EntriesPerDay
    ensures |Sampled(list, DefaultForecastDays)| == DefaultForecastDays
  {
    ForecastLineCount(list, DefaultForecastDays);
  }

  /** Every index 0, 8, 16, ... below `min(len(list), days * 8)` is visited. */
  lemma SampledCoversStride(list: seq<ForecastEntry>, days: int, i: nat)
    requires i < SampleStop(|list|, days) && i % EntriesPerDay == 0
    ensures i / EntriesPerDay < |Sampled(list, days)|
    ensures Sampled(list, days)[i / EntriesPerDay] == list[i]
  {
  }

  /** Each line starts with a date free of spaces that is a prefix of `dt_txt`
      ending where `dt_txt` has its first space. */
  lemma ForecastLineDate(e: ForecastEntry)
    requires WellFormed(e)
    ensures var date := BeforeFirstSpace(e.dtTxt.value);
      && date <= e.dtTxt.value
      && ' ' !in date
      && (|date| < |e.dtTxt.value| ==> e.dtTxt.value[|date|] == ' ')
      && ForecastLine(e)[..|date|] == date
  {
    BeforeFirstSpaceIsPrefix(e.dtTxt.value);
  }

  /** The report can be read back line by line: after the header, splitting
      on newlines gives exactly the lines of the visited entries, in list
      order, provided no visited field contains a newline. */
  lemma ForecastLinesRecoverable(city: string, days: int, list: seq<ForecastEntry>)
    requires forall k :: 0 <= k < |Sampled(list, days)| ==> WellFormed(Sampled(list, days)[k])
    requires forall k :: 0 <= k < |Sampled(list, days)| ==> '\n' !in ForecastLine(Sampled(list, days)[k])
    requires |Sampled(list, days)| >= 1
    ensures var r := ForecastReport(city, days, Some(ForecastReply(Some(list))));
      && r.Ok?
      && r.value[..|ForecastHeader(city)|] == ForecastHeader(city)
      && Split(r.value[|ForecastHeader(city)|..], '\n') == ForecastLines(Sampled(list, days))
  {
    var lines := ForecastLines(Sampled(list, days));
    SplitJoinRoundTrip(lines, '\n');
    var r := ForecastReport(city, days, Some(ForecastReply(Some(list))));
    assert r.value == ForecastHeader(city) + Join(lines, "\n");
    assert r.value[|ForecastHeader(city)|..] == Join(lines, "\n");
  }
}
