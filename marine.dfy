/** Tides and swell of the surf site's marine module: turning the provider's
    answer into tide predictions and one hour of swell data, the generator of
    placeholder tides used when the provider gives none, the fixed fallback
    record, and the "Rising"/"Falling" status shown for the next tide.
    Times are instants in epoch milliseconds; how they are written as text is
    outside the model. */
module Marine {
  import opened Wrappers
  import opened Text

  type Hour = h: int | 0 <= h < 24

  const HourMs := 3600000

  const High := "H"
  const Low := "L"

  /** One tide event: its type ("H" or "L"), instant and height text. */
  datatype TidePrediction = TidePrediction(kind: string, t: int, v: string)

  /** The `tide` record; its `predictions` may be missing. */
  datatype TideData = TideData(predictions: Option<seq<TidePrediction>>)

  /** One hour of swell and wind data as the rest of the site reads it. */
  datatype MarineHour = MarineHour(
    windSpeed: real, windDirection: int, swellHeight: real, swellDirection: string, swellPeriod: real)

  datatype MarineData = MarineData(tide: TideData, hours: seq<MarineHour>)

  // ------------------------------------------------------------------------
  // Tide status

  datatype TideStatus = TideStatus(status: string, nextTime: string)

  const UnknownStatus := TideStatus("Unknown", "Unknown")

  /** Prediction `i` is the first one in list order that lies after `now`. */
  predicate IsFirstAfter(p: seq<TidePrediction>, now: int, i: int) {
    0 <= i < |p| && p[i].t > now && forall j :: 0 <= j < i ==> p[j].t <= now
  }

  /** `predictions.find(tide => new Date(tide.t) > now)`, as an index. */
  function FindNext(p: seq<TidePrediction>, now: int): (r: Option<nat>)
    ensures r.Some? ==> IsFirstAfter(p, now, r.value)
    ensures r.None? ==> forall j :: 0 <= j < |p| ==> p[j].t <= now
  {
    if p == [] then None
    else if p[0].t > now then Some(0)
    else
      match FindNext(p[1..], now)
      case None => None
      case Some(i) => Some(i + 1)
  }

  /** `getTideStatus`: Unknown without predictions or without a future one;
      otherwise Rising towards a high tide and Falling towards a low one.
      `formatTime` stands for the locale time formatting. */
  function GetTideStatus(tideData: Option<TideData>, now: int, formatTime: int -> string): (r: TideStatus)
    ensures tideData.None? || tideData.value.predictions.None? ==> r == UnknownStatus
    ensures tideData.Some? && tideData.value.predictions.Some? ==>
      var p := tideData.value.predictions.value;
      && ((forall j :: 0 <= j < |p| ==> p[j].t <= now) ==> r == UnknownStatus)
      && forall i :: IsFirstAfter(p, now, i) ==>
           && (r.status == "Rising" <==> p[i].kind == High)
           && (r.status == "Falling" <==> p[i].kind != High)
           && r.nextTime == "Next " + (if p[i].kind == High then "High" else "Low") + ": " + formatTime(p[i].t)
  {
    if tideData.None? || tideData.value.predictions.None? || |tideData.value.predictions.value| == 0 then
      UnknownStatus
    else
      var p := tideData.value.predictions.value;
      match FindNext(p, now)
      case None => UnknownStatus
      case Some(i) =>
        var isRising := p[i].kind == High;
        TideStatus(
          if isRising then "Rising" else "Falling",
          "Next " + (if p[i].kind == High then "High" else "Low") + ": " + formatTime(p[i].t))
  }

  /** Time-sorted predictions: the first one after `now` is also the earliest
      one after `now`. In an unsorted list the status follows list order. */
  lemma SortedFindsEarliest(p: seq<TidePrediction>, now: int, i: int)
    requires forall a, b :: 0 <= a < b < |p| ==> p[a].t <= p[b].t
    requires IsFirstAfter(p, now, i)
    ensures forall j :: 0 <= j < |p| && p[j].t > now ==> p[i].t <= p[j].t
  {
  }

  // ------------------------------------------------------------------------
  // Placeholder tides

  /** `(|lat*100| + |lng*100|) % 12`, with both coordinates given in hundredths of a degree. */
  function LocationSeed(lat100: int, lng100: int): (seed: nat)
    ensures seed < 12
  {
    (Abs(lat100) + Abs(lng100)) % 12
  }

  function Abs(x: int): nat {
    if x < 0 then -x else x
  }

  function HourInCycle(lat100: int, lng100: int, currentHour: Hour): (c: nat)
    ensures c < 12
  {
    (currentHour + LocationSeed(lat100, lng100)) % 12
  }

  /** The two tides `generateTidePredictions` invents. */
  function GeneratedTides(lat100: int, lng100: int, currentHour: Hour, now: int): (r: seq<TidePrediction>)
    ensures |r| == 2
    ensures {r[0].kind, r[1].kind} == {High, Low}
    ensures r[0].kind == High <==> HourInCycle(lat100, lng100, currentHour) < 6
    ensures now < r[0].t <= now + 6 * HourMs
    ensures r[1].t == r[0].t + 6 * HourMs
    ensures r[0].kind == High ==> r[0].v == "3.2" && r[1].v == "0.7"
    ensures r[0].kind == Low ==> r[0].v == "0.8" && r[1].v == "3.4"
  {
    var c := HourInCycle(lat100, lng100, currentHour);
    var nextIsHigh := c < 6;
    var hoursToNext := if nextIsHigh then 6 - c else 12 - c;
    var first := now + hoursToNext * HourMs;
    [ TidePrediction(if nextIsHigh then High else Low, first, if nextIsHigh then "3.2" else "0.8"),
      TidePrediction(if nextIsHigh then Low else High, first + 6 * HourMs, if nextIsHigh then "0.7" else "3.4") ]
  }

  /** `generateTidePredictions`: pushes the next tide and the one six hours later. */
  method GenerateTidePredictions(lat100: int, lng100: int, currentHour: Hour, now: int)
    returns (tidePredictions: seq<TidePrediction>)
    ensures tidePredictions == GeneratedTides(lat100, lng100, currentHour, now)
  {
    tidePredictions := [];
    var locationSeed := (Abs(lat100) + Abs(lng100)) % 12;
    var hourInCycle := (currentHour + locationSeed) % 12;
    var nextTideIsHigh := hourInCycle < 6;
    var hoursToNextTide := if nextTideIsHigh then 6 - hourInCycle else 12 - hourInCycle;
    var nextTideTime := now + hoursToNextTide * HourMs;
    tidePredictions := tidePredictions + [TidePrediction(
      if nextTideIsHigh then High else Low, nextTideTime, if nextTideIsHigh then "3.2" else "0.8")];
    var secondTideTime := nextTideTime + 6 * HourMs;
    tidePredictions := tidePredictions + [TidePrediction(
      if nextTideIsHigh then Low else High, secondTideTime, if nextTideIsHigh then "0.7" else "3.4")];
  }

  /** The status of freshly generated tides is never Unknown: it announces the
      first generated tide. */
  lemma GeneratedStatus(lat100: int, lng100: int, currentHour: Hour, now: int, formatTime: int -> string)
    ensures var r := GeneratedTides(lat100, lng100, currentHour, now);
      var s := GetTideStatus(Some(TideData(Some(r))), now, formatTime);
      && (s.status == "Rising" <==> HourInCycle(lat100, lng100, currentHour) < 6)
      && (s.status == "Falling" <==> HourInCycle(lat100, lng100, currentHour) >= 6)
  {
    var r := GeneratedTides(lat100, lng100, currentHour, now);
    assert IsFirstAfter(r, now, 0);
  }

  // ------------------------------------------------------------------------
  // The provider's answer

  /** One entry of `tides[0].tide`: the provider's type, its instant and its height text. */
  datatype ProviderTide = ProviderTide(kind: string, time: int, height: string)

  /** One entry of `forecastday[0].hour`; fields the provider may leave out are optional. */
  datatype HourData = HourData(
    windKph: real, windDegree: Option<int>, swellHtFt: Option<real>,
    swellDir16Point: Option<string>, swellDir: Option<string>, swellPeriodSecs: Option<real>)

  datatype TideDay = TideDay(tide: Option<seq<ProviderTide>>)

  datatype ForecastDay = ForecastDay(hour: seq<HourData>, tides: Option<seq<TideDay>>)

  datatype Forecast = Forecast(forecastday: Option<seq<ForecastDay>>)

  /** The provider's coordinates, in hundredths of a degree. */
  datatype Location = Location(lat100: int, lon100: int)

  datatype ApiData = ApiData(forecast: Option<Forecast>, location: Option<Location>)

  /** Why `processWeatherAPIData` throws: the format check, or reading a field of
      a missing location or a missing hour record. */
  datatype MarineError = InvalidFormat | MissingLocation | MissingHourData

  /** A provider tide becomes "H" when its type is "high" and "L" otherwise. */
  function ConvertTide(x: ProviderTide): (p: TidePrediction)
    ensures p.kind == High <==> x.kind == "high"
    ensures p.kind == High || p.kind == Low
    ensures p.t == x.time && p.v == x.height
  {
    TidePrediction(if x.kind == "high" then High else Low, x.time, x.height)
  }

  /** The forecast days, or None when the format check of the source rejects the data. */
  function Days(data: Option<ApiData>): (d: Option<seq<ForecastDay>>)
    ensures d.Some? ==> |d.value| > 0
  {
    if data.None? || data.value.forecast.None? || data.value.forecast.value.forecastday.None?
       || |data.value.forecast.value.forecastday.value| == 0
    then None
    else data.value.forecast.value.forecastday
  }

  /** The provider's tide list for the day, when `tides[0].tide` is there. An
      empty list is still the provider's answer. */
  function ProviderTides(day: ForecastDay): (r: Option<seq<ProviderTide>>)
    ensures r.Some? <==> day.tides.Some? && |day.tides.value| > 0 && day.tides.value[0].tide.Some?
    ensures r.Some? ==> r == day.tides.value[0].tide
  {
    if day.tides.Some? && |day.tides.value| > 0 && day.tides.value[0].tide.Some? then day.tides.value[0].tide
    else None
  }

  /** `currentDay.hour[currentHour] || currentDay.hour[0]`. */
  function HourRecord(day: ForecastDay, currentHour: Hour): (h: Option<HourData>)
    ensures h.None? <==> day.hour == []
    ensures currentHour < |day.hour| ==> h == Some(day.hour[currentHour])
    ensures 0 < |day.hour| <= currentHour ==> h == Some(day.hour[0])
  {
    if currentHour < |day.hour| then Some(day.hour[currentHour])
    else if |day.hour| > 0 then Some(day.hour[0])
    else None
  }

  /** The swell and wind fields with the source's `||` defaults. */
  function ReadHour(h: HourData): (m: MarineHour)
    ensures m.windSpeed == h.windKph / 3.6
    ensures m.windDirection == (if h.windDegree.Some? then h.windDegree.value else 0)
    ensures m.swellHeight == (if h.swellHtFt.Some? then h.swellHtFt.value else 0.0)
    ensures m.swellPeriod == (if h.swellPeriodSecs.Some? then h.swellPeriodSecs.value else 0.0)
    ensures m.swellDirection ==
      (if Truthy(h.swellDir16Point) then h.swellDir16Point.value
       else if Truthy(h.swellDir) then h.swellDir.value else "Unknown")
  {
    MarineHour(
      h.windKph / 3.6,
      h.windDegree.GetOr(0),
      h.swellHtFt.GetOr(0.0),
      if Truthy(h.swellDir16Point) then h.swellDir16Point.value
      else if Truthy(h.swellDir) then h.swellDir.value
      else "Unknown",
      h.swellPeriodSecs.GetOr(0.0))
  }

  /** What `processWeatherAPIData` returns or throws. */
  function ProcessSpec(data: Option<ApiData>, currentHour: Hour, now: int): (r: Result<MarineData, MarineError>)
    ensures Days(data).None? ==> r == Err(InvalidFormat)
    ensures Days(data).Some? ==>
      var day := Days(data).value[0];
      && (ProviderTides(day).None? && data.value.location.None? ==> r == Err(MissingLocation))
      && ((ProviderTides(day).Some? || data.value.location.Some?) && day.hour == [] ==> r == Err(MissingHourData))
      && (r.Ok? ==> |r.value.hours| == 1 && r.value.tide.predictions.Some?)
      && (r.Ok? && ProviderTides(day).Some? ==>
            var ts := ProviderTides(day).value;
            var p := r.value.tide.predictions.value;
            |p| == |ts| && forall i :: 0 <= i < |ts| ==> p[i] == ConvertTide(ts[i]))
      && (r.Ok? && ProviderTides(day).None? ==>
            var loc := data.value.location.value;
            r.value.tide.predictions.value == GeneratedTides(loc.lat100, loc.lon100, currentHour, now))
    ensures r.Err? <==>
      || Days(data).None?
      || (ProviderTides(Days(data).value[0]).None? && data.value.location.None?)
      || Days(data).value[0].hour == []
  {
    match Days(data)
    case None => Err(InvalidFormat)
    case Some(days) =>
      var day := days[0];
      var tides :=
        match ProviderTides(day)
        case Some(ts) => Some(seq(|ts|, i requires 0 <= i < |ts| => ConvertTide(ts[i])))
        case None =>
          if data.value.location.None? then None
          else Some(GeneratedTides(data.value.location.value.lat100, data.value.location.value.lon100, currentHour, now));
      if tides.None? then Err(MissingLocation)
      else
        match HourRecord(day, currentHour)
        case None => Err(MissingHourData)
        case Some(h) => Ok(MarineData(TideData(tides), [ReadHour(h)]))
  }

  /** `processWeatherAPIData`: the format check, the hour record, the tide
      predictions copied one by one from the provider or generated, then the
      hour's swell and wind fields. */
  method ProcessWeatherApiData(data: Option<ApiData>, currentHour: Hour, now: int)
    returns (r: Result<MarineData, MarineError>)
    ensures r == ProcessSpec(data, currentHour, now)
  {
    if data.None? || data.value.forecast.None? || data.value.forecast.value.forecastday.None?
       || |data.value.forecast.value.forecastday.value| == 0 {
      return Err(InvalidFormat);
    }
    var currentDay := data.value.forecast.value.forecastday.value[0];
    var hourData: Option<HourData> :=
      if currentHour < |currentDay.hour| then Some(currentDay.hour[currentHour])
      else if |currentDay.hour| > 0 then Some(currentDay.hour[0])
      else None;
    assert hourData == HourRecord(currentDay, currentHour);
    var tidePredictions: seq<TidePrediction> := [];
    if currentDay.tides.Some? && |currentDay.tides.value| > 0 && currentDay.tides.value[0].tide.Some? {
      var provided := currentDay.tides.value[0].tide.value;
      for i := 0 to |provided|
        invariant |tidePredictions| == i
        invariant forall j :: 0 <= j < i ==> tidePredictions[j] == ConvertTide(provided[j])
      {
        var tide := provided[i];
        tidePredictions := tidePredictions + [TidePrediction(if tide.kind == "high" then High else Low, tide.time, tide.height)];
      }
      assert tidePredictions == seq(|provided|, i requires 0 <= i < |provided| => ConvertTide(provided[i]));
    } else {
      if data.value.location.None? {
        return Err(MissingLocation);
      }
      var generated := GenerateTidePredictions(data.value.location.value.lat100, data.value.location.value.lon100, currentHour, now);
      tidePredictions := tidePredictions + generated;
      assert tidePredictions == generated;
    }
    if hourData.None? {
      return Err(MissingHourData);
    }
    var h := hourData.value;
    var windSpeed := h.windKph / 3.6;
    var windDirection := if h.windDegree.Some? then h.windDegree.value else 0;
    var swellHeight := if h.swellHtFt.Some? then h.swellHtFt.value else 0.0;
    var swellDirection := if Truthy(h.swellDir16Point) then h.swellDir16Point.value
                          else if Truthy(h.swellDir) then h.swellDir.value
                          else "Unknown";
    var swellPeriod := if h.swellPeriodSecs.Some? then h.swellPeriodSecs.value else 0.0;
    r := Ok(MarineData(TideData(Some(tidePredictions)),
                       [MarineHour(windSpeed, windDirection, swellHeight, swellDirection, swellPeriod)]));
    assert r.value.hours[0] == ReadHour(h);
  }

  // ------------------------------------------------------------------------
  // The fallback record

  /** `createMockMarineData`: a high tide in three hours, a low tide in nine,
      and fixed swell and wind values. */
  function MockMarineData(now: int): (m: MarineData)
    ensures m.tide.predictions.Some? && |m.tide.predictions.value| == 2
    ensures var p := m.tide.predictions.value;
      && p[0].kind == High && p[0].t == now + 3 * HourMs
      && p[1].kind == Low && p[1].t == now + 9 * HourMs
    ensures |m.hours| == 1 && m.hours[0].windDirection == 280 && m.hours[0].swellDirection == "SE"
  {
    MarineData(
      TideData(Some([TidePrediction(High, now + 3 * HourMs, "3.2"), TidePrediction(Low, now + 9 * HourMs, "0.7")])),
      [MarineHour(4.5, 280, 5.4, "SE", 9.9)])
  }

  /** Right after the fallback is made, the tide is rising towards the high
      tide three hours ahead. */
  lemma MockStatus(now: int, formatTime: int -> string)
    ensures GetTideStatus(Some(MockMarineData(now).tide), now, formatTime)
         == TideStatus("Rising", "Next High: " + formatTime(now + 3 * HourMs))
  {
    assert IsFirstAfter(MockMarineData(now).tide.predictions.value, now, 0);
  }

  /** `fetchMarineData` once the request has settled: None stands for a failed
      request or a non-OK status; any of these, or a thrown processing error,
      gives the fallback record. */
  function FetchMarineData(response: Option<ApiData>, currentHour: Hour, now: int): (m: MarineData)
    ensures response.None? ==> m == MockMarineData(now)
    ensures response.Some? ==>
      match ProcessSpec(response, currentHour, now)
      case Ok(d) => m == d
      case Err(_) => m == MockMarineData(now)
  {
    if response.None? then MockMarineData(now)
    else
      match ProcessSpec(response, currentHour, now)
      case Ok(d) => d
      case Err(_) => MockMarineData(now)
  }

  /** Whatever the provider answers, the fetched record always carries tide
      predictions and exactly one hour of swell data. */
  lemma FetchAlwaysUsable(response: Option<ApiData>, currentHour: Hour, now: int)
    ensures var m := FetchMarineData(response, currentHour, now);
      m.tide.predictions.Some? && |m.hours| == 1
  {
  }
}
