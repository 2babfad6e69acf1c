/** Historical data: resolving a city to coordinates, the fixed 24-hour and
    7-day windows, and the reshaping of the weather and air-quality
    providers' hourly arrays into chart series (a trailing 24-point window
    and a per-calendar-day mean). The HTTP requests themselves are
    parameters: a provider is a function from the query to its answer. */
module HistoryUtils {
  import opened Wrappers
  import opened JsStrings

  // ---------------------------------------------------------------------
  // getCoordinates

  datatype Coordinates = Coordinates(lat: real, lon: real)

  /** One entry of the geocoding service's `results` list. */
  datatype GeoHit = GeoHit(latitude: real, longitude: real)

  /** Why the lookup threw: no result, or the request's own error. */
  datatype GeoError = CityNotFound | RequestFailed(message: string)

  /** The geocoding service's answer: `response.data.results` (None when the
      field is absent), or the failure of the request. */
  type GeoResponse = Result<Option<seq<GeoHit>>, string>

  /** The place actually queried: the text before the first comma, trimmed. */
  function SimpleCityName(cityName: string): (q: string)
    ensures ',' !in q
    ensures q != [] ==> !IsWhitespace(q[0]) && !IsWhitespace(q[|q| - 1])
    ensures ',' !in cityName ==> q == Trim(cityName)
  {
    Trim(Split(cityName, ',')[0])
  }

  /** Only the first comma-separated segment of a compound place string is
      looked up; everything after the first comma is ignored. */
  lemma {:induction false} QueryIsFirstSegment(head: string, tail: string)
    requires ',' !in head
    ensures SimpleCityName(head + [','] + tail) == Trim(head)
  {
    var s := head + [','] + tail;
    assert forall j :: 0 <= j < |head| ==> s[j] == head[j];
    assert s[|head|] == ',';
    var i := IndexOf(s, ',');
    assert i == |head|;
    assert s[..i] == head;
  }

  /** `getCoordinates`: query the provider with the simplified name and take
      the first result; an absent or empty list is "City not found", and a
      failed request is rethrown. There is no fallback coordinate. */
  function GetCoordinates(cityName: string, provider: string -> GeoResponse): (r: Result<Coordinates, GeoError>)
    ensures r.Ok? <==> (provider(SimpleCityName(cityName)).Ok?
                        && provider(SimpleCityName(cityName)).value.Some?
                        && |provider(SimpleCityName(cityName)).value.value| > 0)
    ensures r.Ok? ==> var hit := provider(SimpleCityName(cityName)).value.value[0];
                      r.value == Coordinates(hit.latitude, hit.longitude)
    ensures provider(SimpleCityName(cityName)).Err? ==>
              r == Err(RequestFailed(provider(SimpleCityName(cityName)).error))
    ensures provider(SimpleCityName(cityName)).Ok? &&
            (provider(SimpleCityName(cityName)).value.None? || provider(SimpleCityName(cityName)).value.value == []) ==>
              r == Err(CityNotFound)
  {
    match provider(SimpleCityName(cityName))
    case Err(message) => Err(RequestFailed(message))
    case Ok(results) =>
      if results.Some? && |results.value| > 0 then
        Ok(Coordinates(results.value[0].latitude, results.value[0].longitude))
      else
        Err(CityNotFound)
  }

  /** Two place strings that agree on their first segment resolve alike. */
  lemma SameFirstSegmentSameCoordinates(a: string, b: string, provider: string -> GeoResponse)
    requires SimpleCityName(a) == SimpleCityName(b)
    ensures GetCoordinates(a, provider) == GetCoordinates(b, provider)
  {
  }

  // ---------------------------------------------------------------------
  // getLast24HoursTimestamps, getLast7DaysTimestamps

  const HourMs: int := 60 * 60 * 1000
  const DayMs: int := 24 * 60 * 60 * 1000

  /** Twenty-four instants (milliseconds since the epoch), oldest first,
      one hour apart, the last being `nowMs`. */
  method Last24HoursTimestamps(nowMs: int) returns (timestamps: seq<int>)
    ensures |timestamps| == 24
    ensures timestamps[23] == nowMs
    ensures forall k :: 0 <= k < 23 ==> timestamps[k + 1] == timestamps[k] + HourMs
  {
    timestamps := [];
    var i := 23;
    while i >= 0
      invariant -1 <= i <= 23
      invariant |timestamps| == 23 - i
      invariant forall k :: 0 <= k < |timestamps| ==> timestamps[k] == nowMs - (23 - k) * HourMs
    {
      timestamps := timestamps + [nowMs - i * HourMs];
      i := i - 1;
    }
  }

  /** The UTC calendar day (days since 1970-01-01) an instant falls on: the
      date part of `toISOString()`. */
  function UtcDay(ms: int): int
  {
    ms / DayMs
  }

  /** Seven UTC days, oldest first, consecutive, the last being today. */
  method Last7DaysTimestamps(nowMs: int) returns (days: seq<int>)
    ensures |days| == 7
    ensures days[6] == UtcDay(nowMs)
    ensures forall k :: 0 <= k < 6 ==> days[k + 1] == days[k] + 1
  {
    days := [];
    var i := 6;
    while i >= 0
      invariant -1 <= i <= 6
      invariant |days| == 6 - i
      invariant forall k :: 0 <= k < |days| ==> days[k] == UtcDay(nowMs) - (6 - k)
    {
      DayShift(nowMs, i);
      days := days + [UtcDay(nowMs - i * DayMs)];
      i := i - 1;
    }
  }

  lemma DayShift(ms: int, i: int)
    ensures UtcDay(ms - i * DayMs) == UtcDay(ms) - i
  {
    var q, r := ms / DayMs, ms % DayMs;
    assert ms - i * DayMs == (q - i) * DayMs + r;
  }

  // ---------------------------------------------------------------------
  // shared shapes of both formatters

  /** A chart series; `None` stands for a JavaScript `null` value. */
  datatype Series = Series(labels: seq<string>, data: seq<Option<real>>)

  const EmptySeries := Series([], [])

  /** `s.slice(-24)`: the trailing 24 entries, or all of a shorter `s`. */
  function Last24<T>(s: seq<T>): (r: seq<T>)
    ensures |r| == if |s| < 24 then |s| else 24
    ensures forall k :: 0 <= k < |r| ==> r[k] == s[|s| - |r| + k]
  {
    if |s| <= 24 then s else s[|s| - 24..]
  }

  /** `timestamp.split('T')[0]`. */
  function DatePart(t: string): string
  {
    Split(t, 'T')[0]
  }

  /** The hour of a local date-time `YYYY-MM-DDTHH:MM` as `new Date(t)`
      reads it, or None when the text does not have that form. */
  function HourOf(t: string): Option<nat>
  {
    if |t| >= 13 && t[10] == 'T' && IsDigit(t[11]) && IsDigit(t[12])
       && ParseDecimal(t[11..13]) <= 23
    then Some(ParseDecimal(t[11..13]))
    else None
  }

  /** `date.getHours() + ':00'`. */
  function HourLabel(t: string): string
  {
    (match HourOf(t) case Some(h) => Decimal(h) case None => "NaN") + ":00"
  }

  function HourLabels(times: seq<string>): (labels: seq<string>)
    ensures |labels| == |times|
    ensures forall k :: 0 <= k < |times| ==> labels[k] == HourLabel(times[k])
  {
    seq(|times|, k requires 0 <= k < |times| => HourLabel(times[k]))
  }

  /** `${d.getMonth() + 1}/${d.getDate()}` for a `YYYY-MM-DD` date, read
      from the date's own digits. */
  function DayLabel(date: string): string
  {
    if |date| >= 10 && date[4] == '-' && date[7] == '-' &&
       IsDigit(date[5]) && IsDigit(date[6]) && IsDigit(date[8]) && IsDigit(date[9])
    then Decimal(ParseDecimal(date[5..7])) + "/" + Decimal(ParseDecimal(date[8..10]))
    else "NaN/NaN"
  }

  function DayLabels(dates: seq<string>): (labels: seq<string>)
    ensures |labels| == |dates|
    ensures forall k :: 0 <= k < |dates| ==> labels[k] == DayLabel(dates[k])
  {
    seq(|dates|, k requires 0 <= k < |dates| => DayLabel(dates[k]))
  }

  /** `values[i]`, which is `undefined` past the end of the array. */
  function ValueAt(values: seq<Option<real>>, i: nat): Option<real>
  {
    if i < |values| then values[i] else None
  }

  // ---------------------------------------------------------------------
  // the per-day buckets, as specification

  /** The distinct dates of `time`, in order of first appearance: the keys
      of `dailyData` in insertion order. */
  function DateKeys(time: seq<string>): seq<string>
  {
    if time == [] then []
    else
      var keys := DateKeys(time[..|time| - 1]);
      var d := DatePart(time[|time| - 1]);
      if d in keys then keys else keys + [d]
  }

  /** The readings of the hours whose date is `d`, in order. */
  function ReadingsOn(time: seq<string>, values: seq<Option<real>>, d: string): seq<Option<real>>
  {
    if time == [] then []
    else
      var n := |time| - 1;
      ReadingsOn(time[..n], values, d) + (if DatePart(time[n]) == d then [ValueAt(values, n)] else [])
  }

  /** The non-null readings, as numbers. */
  function Present(s: seq<Option<real>>): (r: seq<real>)
    ensures |r| <= |s|
  {
    if s == [] then []
    else Present(s[..|s| - 1]) + (if s[|s| - 1].Some? then [s[|s| - 1].value] else [])
  }

  /** The entries that are not null, still as readings. */
  function KeepPresent(s: seq<Option<real>>): seq<Option<real>>
  {
    if s == [] then []
    else KeepPresent(s[..|s| - 1]) + (if s[|s| - 1].Some? then [s[|s| - 1]] else [])
  }

  /** `xs.reduce((a, b) => a + b, 0)`. */
  function Sum(xs: seq<real>): real
  {
    if xs == [] then 0.0 else Sum(xs[..|xs| - 1]) + xs[|xs| - 1]
  }

  /** The arithmetic mean, or `null` for no readings. */
  function Mean(xs: seq<real>): Option<real>
  {
    if |xs| > 0 then Some(Sum(xs) / |xs| as real) else None
  }

  /** A day's value: the mean of its non-null readings, `null` if none. */
  function DayMean(time: seq<string>, values: seq<Option<real>>, d: string): Option<real>
  {
    Mean(Present(ReadingsOn(time, values, d)))
  }

  /** The dates of the daily view: `Object.keys(dailyData).sort()`. */
  function DailyDates(time: seq<string>): seq<string>
  {
    Sort(DateKeys(time))
  }

  function DailyMeans(time: seq<string>, values: seq<Option<real>>): (r: seq<Option<real>>)
    ensures |r| == |DailyDates(time)|
    ensures forall k :: 0 <= k < |r| ==> r[k] == DayMean(time, values, DailyDates(time)[k])
  {
    var dates := DailyDates(time);
    seq(|dates|, k requires 0 <= k < |dates| => DayMean(time, values, dates[k]))
  }

  // ---------------------------------------------------------------------
  // the per-day buckets, as the loop fills them

  /** What the bucket of a date holds once the loop is done: every reading,
      or (`dropMissing`) only the non-null ones. */
  function Pushed(readings: seq<Option<real>>, dropMissing: bool): seq<Option<real>>
  {
    if dropMissing then KeepPresent(readings) else readings
  }

  /** The `time.forEach` loop that fills `dailyData`: one bucket per date,
      created on first sight, with each hour's reading pushed onto its
      date's bucket (`dropMissing`: only readings that are not null or
      undefined). `keys` is the insertion order of the buckets. */
  method GroupByDate(time: seq<string>, values: seq<Option<real>>, dropMissing: bool)
    returns (keys: seq<string>, buckets: map<string, seq<Option<real>>>)
    ensures keys == DateKeys(time)
    ensures forall d :: d in buckets <==> d in keys
    ensures forall d :: d in buckets ==> buckets[d] == Pushed(ReadingsOn(time, values, d), dropMissing)
  {
    keys, buckets := [], map[];
    var i := 0;
    while i < |time|
      invariant 0 <= i <= |time|
      invariant Grouped(time[..i], values, dropMissing, keys, buckets)
    {
      var date := DatePart(time[i]);
      var v := ValueAt(values, i);
      ghost var keys0, buckets0 := keys, buckets;
      var bucket: seq<Option<real>> := [];
      if date in buckets {
        bucket := buckets[date];
      } else {
        keys := keys + [date];
      }
      ghost var prior := bucket;
      if !dropMissing || v.Some? {
        bucket := bucket + [v];
      } else {
        assert bucket == prior + [];
      }
      buckets := buckets[date := bucket];
      GroupStep(time, values, dropMissing, i, keys0, buckets0, bucket, keys, buckets);
      i := i + 1;
    }
    assert time[..i] == time;
  }

  /** The state of the loop after the hours of `time`: the buckets are keyed
      by the distinct dates in first-appearance order, and each holds what
      those hours pushed onto it. */
  ghost predicate Grouped(time: seq<string>, values: seq<Option<real>>, dropMissing: bool,
                    keys: seq<string>, buckets: map<string, seq<Option<real>>>)
  {
    && keys == DateKeys(time)
    && (forall d :: d in buckets <==> d in keys)
    && (forall d :: d in buckets ==> buckets[d] == Pushed(ReadingsOn(time, values, d), dropMissing))
  }

  /** One turn of the loop: hour `i`'s date gets a bucket if it has none,
      and its reading is pushed onto that bucket unless it is dropped. */
  lemma {:induction false} GroupStep(time: seq<string>, values: seq<Option<real>>, dropMissing: bool, i: nat,
                  keys: seq<string>, buckets: map<string, seq<Option<real>>>,
                  bucket: seq<Option<real>>, keys': seq<string>, buckets': map<string, seq<Option<real>>>)
    requires i < |time|
    requires Grouped(time[..i], values, dropMissing, keys, buckets)
    requires var date, v := DatePart(time[i]), ValueAt(values, i);
             && keys' == (if date in buckets then keys else keys + [date])
             && bucket == (if date in buckets then buckets[date] else []) + (if !dropMissing || v.Some? then [v] else [])
             && buckets' == buckets[date := bucket]
    ensures Grouped(time[..i + 1], values, dropMissing, keys', buckets')
  {
    StepKeys(time, i, keys, buckets, keys', buckets');
    StepBuckets(time, values, dropMissing, i, buckets, bucket, buckets');
  }

  /** The keys after hour `i`: its date is appended on first sight. */
  lemma {:induction false} StepKeys(time: seq<string>, i: nat,
                  keys: seq<string>, buckets: map<string, seq<Option<real>>>,
                  keys': seq<string>, buckets': map<string, seq<Option<real>>>)
    requires i < |time|
    requires keys == DateKeys(time[..i])
    requires forall d :: d in buckets <==> d in keys
    requires var date := DatePart(time[i]);
             && keys' == (if date in buckets then keys else keys + [date])
             && buckets'.Keys == buckets.Keys + {date}
    ensures keys' == DateKeys(time[..i + 1])
    ensures forall d :: d in buckets' <==> d in keys'
  {
    assert time[..i + 1][..i] == time[..i];
  }

  /** The buckets after hour `i`: only its date's bucket grows. */
  lemma {:induction false} StepBuckets(time: seq<string>, values: seq<Option<real>>, dropMissing: bool, i: nat,
                  buckets: map<string, seq<Option<real>>>, bucket: seq<Option<real>>,
                  buckets': map<string, seq<Option<real>>>)
    requires i < |time|
    requires forall d :: d in buckets ==> buckets[d] == Pushed(ReadingsOn(time[..i], values, d), dropMissing)
    requires var date, v := DatePart(time[i]), ValueAt(values, i);
             && (date !in buckets ==> date !in DateKeys(time[..i]))
             && bucket == (if date in buckets then buckets[date] else []) + (if !dropMissing || v.Some? then [v] else [])
             && buckets' == buckets[date := bucket]
    ensures forall d :: d in buckets' ==> buckets'[d] == Pushed(ReadingsOn(time[..i + 1], values, d), dropMissing)
  {
    if DatePart(time[i]) !in buckets {
      NoKeyNoReadings(time[..i], values, DatePart(time[i]));
    }
    forall d | d in buckets'
      ensures buckets'[d] == Pushed(ReadingsOn(time[..i + 1], values, d), dropMissing)
    {
      PushedStep(time, values, dropMissing, i, d);
    }
  }

  /** What hour `i` adds to the bucket of date `d`. */
  lemma {:induction false} PushedStep(time: seq<string>, values: seq<Option<real>>, dropMissing: bool, i: nat, d: string)
    requires i < |time|
    ensures var v := ValueAt(values, i);
            Pushed(ReadingsOn(time[..i + 1], values, d), dropMissing) ==
              Pushed(ReadingsOn(time[..i], values, d), dropMissing) +
              (if DatePart(time[i]) == d && (!dropMissing || v.Some?) then [v] else [])
  {
    var r := ReadingsOn(time[..i], values, d);
    var v := ValueAt(values, i);
    ReadingsOnStep(time, values, d, i);
    if DatePart(time[i]) == d {
      KeepPresentSnoc(r, v);
    } else {
      assert r + [] == r;
      assert KeepPresent(r) + [] == KeepPresent(r);
    }
  }

  lemma {:induction false} NoKeyNoReadings(time: seq<string>, values: seq<Option<real>>, d: string)
    requires d !in DateKeys(time)
    ensures ReadingsOn(time, values, d) == []
  {
    if time != [] {
      NoKeyNoReadings(time[..|time| - 1], values, d);
    }
  }

  lemma ReadingsOnStep(time: seq<string>, values: seq<Option<real>>, d: string, i: nat)
    requires i < |time|
    ensures ReadingsOn(time[..i + 1], values, d) ==
              ReadingsOn(time[..i], values, d) + (if DatePart(time[i]) == d then [ValueAt(values, i)] else [])
  {
    assert time[..i + 1][..i] == time[..i];
  }

  lemma KeepPresentSnoc(s: seq<Option<real>>, v: Option<real>)
    ensures KeepPresent(s + [v]) == KeepPresent(s) + (if v.Some? then [v] else [])
  {
    assert (s + [v])[..|s|] == s;
  }

  /** `dates.map(date => mean of dailyData[date] without nulls)`. */
  method DailyAverages(time: seq<string>, values: seq<Option<real>>, dropMissing: bool)
    returns (series: Series)
    ensures series == Series(DayLabels(DailyDates(time)), DailyMeans(time, values))
  {
    var keys, buckets := GroupByDate(time, values, dropMissing);
    var dates := Sort(keys);
    assert dates == DailyDates(time);
    BucketsCoverDates(time, keys, buckets);
    BucketMeans(time, values, dropMissing, buckets);
    var data := seq(|dates|, k requires 0 <= k < |dates| => Mean(Present(buckets[dates[k]])));
    assert data == DailyMeans(time, values);
    series := Series(DayLabels(dates), data);
  }

  /** Every daily date has a bucket. */
  lemma BucketsCoverDates(time: seq<string>, keys: seq<string>, buckets: map<string, seq<Option<real>>>)
    requires keys == DateKeys(time)
    requires forall d :: d in buckets <==> d in keys
    ensures forall k :: 0 <= k < |DailyDates(time)| ==> DailyDates(time)[k] in buckets
  {
    var dates := DailyDates(time);
    forall k | 0 <= k < |dates| ensures dates[k] in buckets {
      assert dates[k] in multiset(dates);
    }
  }

  /** Averaging a bucket's non-null entries gives the day's mean, whether
      or not the nulls were dropped on the way in. */
  lemma BucketMeans(time: seq<string>, values: seq<Option<real>>, dropMissing: bool,
                    buckets: map<string, seq<Option<real>>>)
    requires forall d :: d in buckets ==> buckets[d] == Pushed(ReadingsOn(time, values, d), dropMissing)
    ensures forall d :: d in buckets ==> Mean(Present(buckets[d])) == DayMean(time, values, d)
  {
    forall d | d in buckets ensures Mean(Present(buckets[d])) == DayMean(time, values, d) {
      PresentKeepPresent(ReadingsOn(time, values, d));
    }
  }

  lemma {:induction false} PresentKeepPresent(s: seq<Option<real>>)
    ensures Present(KeepPresent(s)) == Present(s)
  {
    if s != [] {
      var n := |s| - 1;
      PresentKeepPresent(s[..n]);
      PresentAppend(KeepPresent(s[..n]), if s[n].Some? then [s[n]] else []);
    }
  }

  lemma {:induction false} PresentAppend(a: seq<Option<real>>, b: seq<Option<real>>)
    ensures Present(a + b) == Present(a) + Present(b)
    decreases |b|
  {
    if b == [] {
      assert a + b == a;
    } else {
      var n := |b| - 1;
      assert (a + b)[..|a + b| - 1] == a + b[..n];
      PresentAppend(a, b[..n]);
    }
  }

  // ---------------------------------------------------------------------
  // formatWeatherResponse

  datatype WeatherHourly = WeatherHourly(
    time: seq<string>,
    temperature: seq<Option<real>>,
    windspeed: seq<Option<real>>)

  /** The provider's payload; `hourly` may be absent. */
  datatype WeatherData = WeatherData(hourly: Option<WeatherHourly>)

  datatype WeatherView = WeatherView(temp24h: Series, temp7d: Series, wind24h: Series, wind7d: Series)

  const EmptyWeatherView := WeatherView(EmptySeries, EmptySeries, EmptySeries, EmptySeries)

  /** The provider's hourly arrays run in step with its time axis. */
  predicate Aligned(h: WeatherHourly)
  {
    |h.temperature| == |h.time| && |h.windspeed| == |h.time|
  }

  /** `formatWeatherResponse`: four empty series for a missing payload or a
      missing `hourly`; otherwise the trailing 24 hours (one shared label
      list for both metrics) and the per-day means of the whole range. */
  method FormatWeatherResponse(weatherData: Option<WeatherData>) returns (view: WeatherView)
    requires weatherData.Some? && weatherData.value.hourly.Some? ==> Aligned(weatherData.value.hourly.value)
    ensures weatherData.None? || weatherData.value.hourly.None? ==> view == EmptyWeatherView
    ensures weatherData.Some? && weatherData.value.hourly.Some? ==>
              var h := weatherData.value.hourly.value;
              && view.temp24h == Series(HourLabels(Last24(h.time)), Last24(h.temperature))
              && view.wind24h == Series(HourLabels(Last24(h.time)), Last24(h.windspeed))
              && view.temp7d == Series(DayLabels(DailyDates(h.time)), DailyMeans(h.time, h.temperature))
              && view.wind7d == Series(DayLabels(DailyDates(h.time)), DailyMeans(h.time, h.windspeed))
  {
    if weatherData.None? || weatherData.value.hourly.None? {
      return EmptyWeatherView;
    }
    var h := weatherData.value.hourly.value;
    var labels24h := HourLabels(Last24(h.time));
    var temp7d := DailyAverages(h.time, h.temperature, false);
    var wind7d := DailyAverages(h.time, h.windspeed, false);
    view := WeatherView(
      Series(labels24h, Last24(h.temperature)), temp7d,
      Series(labels24h, Last24(h.windspeed)), wind7d);
  }

  // ---------------------------------------------------------------------
  // formatAqiResponse and the fetchAQIHistory fallback

  /** The air-quality payload; each array may be absent. */
  datatype AqiHourly = AqiHourly(
    time: Option<seq<string>>,
    pm2_5: Option<seq<Option<real>>>,
    europeanAqi: Option<seq<Option<real>>>)

  datatype AqiData = AqiData(hourly: Option<AqiHourly>)

  datatype AqiView = AqiView(aqi24h: Series, aqi7d: Series)

  const EmptyAqiView := AqiView(EmptySeries, EmptySeries)

  /** `pm2_5 || european_aqi`: an array, even an empty one, is truthy, so the
      European index is used only when `pm2_5` is absent. */
  function ChosenValues(h: AqiHourly): (v: Option<seq<Option<real>>>)
    ensures h.pm2_5.Some? ==> v == h.pm2_5
    ensures h.pm2_5.None? ==> v == h.europeanAqi
  {
    if h.pm2_5.Some? then h.pm2_5 else h.europeanAqi
  }

  /** `formatAqiResponse`: empty series without a time axis or without
      values; otherwise the trailing 24 readings and the per-day means,
      null and undefined readings being left out of the buckets. */
  method FormatAqiResponse(aqiData: Option<AqiData>) returns (view: AqiView)
    ensures aqiData.None? || aqiData.value.hourly.None? || aqiData.value.hourly.value.time.None? ==>
              view == EmptyAqiView
    ensures aqiData.Some? && aqiData.value.hourly.Some? && aqiData.value.hourly.value.time.Some? &&
            (ChosenValues(aqiData.value.hourly.value).None? || ChosenValues(aqiData.value.hourly.value).value == []) ==>
              view == EmptyAqiView
    ensures aqiData.Some? && aqiData.value.hourly.Some? && aqiData.value.hourly.value.time.Some? &&
            ChosenValues(aqiData.value.hourly.value).Some? && ChosenValues(aqiData.value.hourly.value).value != [] ==>
              var time := aqiData.value.hourly.value.time.value;
              var values := ChosenValues(aqiData.value.hourly.value).value;
              && view.aqi24h == Series(HourLabels(Last24(time)), Last24(values))
              && view.aqi7d == Series(DayLabels(DailyDates(time)), DailyMeans(time, values))
  {
    if aqiData.None? || aqiData.value.hourly.None? || aqiData.value.hourly.value.time.None? {
      return EmptyAqiView;
    }
    var h := aqiData.value.hourly.value;
    var time := h.time.value;
    var aqiValues := ChosenValues(h);
    if aqiValues.None? || |aqiValues.value| == 0 {
      return EmptyAqiView;
    }
    var aqi7d := DailyAverages(time, aqiValues.value, true);
    view := AqiView(Series(HourLabels(Last24(time)), Last24(aqiValues.value)), aqi7d);
  }

  /** What `fetchAQIHistory` hands on: the payload, or, when the request
      fails, a payload with empty `time`, `pm2_5` and `european_aqi`. */
  function AqiHistoryOrEmpty(response: Result<AqiData, string>): (data: AqiData)
    ensures response.Ok? ==> data == response.value
    ensures response.Err? ==> data.hourly == Some(AqiHourly(Some([]), Some([]), Some([])))
  {
    match response
    case Ok(data) => data
    case Err(_) => AqiData(Some(AqiHourly(Some([]), Some([]), Some([]))))
  }

  /** A failed air-quality request never aborts the history: it yields the
      two empty series. */
  method LoadAqiHistory(response: Result<AqiData, string>) returns (view: AqiView)
    ensures response.Err? ==> view == EmptyAqiView
  {
    view := FormatAqiResponse(Some(AqiHistoryOrEmpty(response)));
  }

  // ---------------------------------------------------------------------
  // properties of the views

  /** The 24-hour window is the trailing min(24, n) entries, never padded. */
  lemma Last24IsSuffix<T>(s: seq<T>)
    ensures Last24(s) == s[|s| - |Last24(s)|..]
    ensures |s| <= 24 ==> Last24(s) == s
  {
  }

  /** The bucket keys are distinct and are exactly the dates of `time`. */
  lemma {:induction false} DateKeysAreTheDates(time: seq<string>)
    ensures Distinct(DateKeys(time))
    ensures forall d :: d in DateKeys(time) <==> exists i :: 0 <= i < |time| && DatePart(time[i]) == d
  {
    if time != [] {
      var n := |time| - 1;
      DateKeysAreTheDates(time[..n]);
      forall d ensures d in DateKeys(time) <==> exists i :: 0 <= i < |time| && DatePart(time[i]) == d {
        if d in DateKeys(time) && d != DatePart(time[n]) {
          var i :| 0 <= i < n && DatePart(time[..n][i]) == d;
          assert DatePart(time[i]) == d;
        }
        if exists i :: 0 <= i < |time| && DatePart(time[i]) == d {
          var i :| 0 <= i < |time| && DatePart(time[i]) == d;
          if i < n { assert DatePart(time[..n][i]) == d; }
        }
      }
    }
  }

  /** The daily view has one entry per distinct date, strictly ascending. */
  lemma DailyDatesAscending(time: seq<string>)
    ensures Distinct(DailyDates(time))
    ensures forall i, j :: 0 <= i < j < |DailyDates(time)| ==>
              LexLessEq(DailyDates(time)[i], DailyDates(time)[j]) && DailyDates(time)[i] != DailyDates(time)[j]
    ensures forall d :: d in DailyDates(time) <==> exists i :: 0 <= i < |time| && DatePart(time[i]) == d
  {
    DateKeysAreTheDates(time);
    SortDistinct(DateKeys(time));
  }

  /** Every date of the range has at least one reading (possibly null), so a
      day whose readings are all null is kept, with the value null. */
  lemma {:induction false} EveryDateHasReadings(time: seq<string>, values: seq<Option<real>>, d: string)
    requires d in DateKeys(time)
    ensures |ReadingsOn(time, values, d)| >= 1
  {
    var n := |time| - 1;
    if d != DatePart(time[n]) {
      EveryDateHasReadings(time[..n], values, d);
    }
  }

  /** A day's value is null exactly when none of its readings is a number. */
  lemma {:induction false} DayMeanNullIffNoReading(time: seq<string>, values: seq<Option<real>>, d: string)
    ensures DayMean(time, values, d).None? <==> AllNull(ReadingsOn(time, values, d))
  {
    var s := ReadingsOn(time, values, d);
    PresentEmptyIffAllNull(s);
    assert DayMean(time, values, d) == Mean(Present(s));
    assert Mean(Present(s)).None? <==> Present(s) == [];
  }

  predicate AllNull(s: seq<Option<real>>)
  {
    forall k :: 0 <= k < |s| ==> s[k].None?
  }

  lemma {:induction false} PresentEmptyIffAllNull(s: seq<Option<real>>)
    ensures Present(s) == [] <==> AllNull(s)
  {
    if s != [] {
      var n := |s| - 1;
      var p := s[..n];
      PresentEmptyIffAllNull(p);
      assert Present(s) == Present(p) + (if s[n].Some? then [s[n].value] else []);
      if AllNull(s) {
        forall k | 0 <= k < n
          ensures p[k].None?
        {
          assert p[k] == s[k];
        }
      } else {
        var j :| 0 <= j < |s| && s[j].Some?;
        assert j < n ==> p[j] == s[j];
      }
    }
  }

  /** The mean of the non-null readings ignores the nulls entirely:
      `[10, null, null]` averages to 10. */
  lemma NullsDoNotDilute()
    ensures Mean(Present([Some(10.0), None, None])) == Some(10.0)
  {
    var s := [Some(10.0), None, None];
    assert s[..2][..1] == [Some(10.0)];
    assert s[..2] == [Some(10.0), None];
    assert Present(s) == [10.0];
  }

  /** A day whose readings all equal `c` has mean `c`. */
  lemma {:induction false} MeanOfConstant(xs: seq<real>, c: real)
    requires |xs| > 0
    requires forall k :: 0 <= k < |xs| ==> xs[k] == c
    ensures Mean(xs) == Some(c)
  {
    SumOfConstant(xs, c);
    var n := |xs| as real;
    assert Sum(xs) / n == (n * c) / n == c;
  }

  lemma {:induction false} SumOfConstant(xs: seq<real>, c: real)
    requires forall k :: 0 <= k < |xs| ==> xs[k] == c
    ensures Sum(xs) == |xs| as real * c
  {
    if xs != [] {
      SumOfConstant(xs[..|xs| - 1], c);
    }
  }

  /** The mean lies between the smallest and the largest reading. */
  lemma {:induction false} MeanBounds(xs: seq<real>, lo: real, hi: real)
    requires |xs| > 0
    requires forall k :: 0 <= k < |xs| ==> lo <= xs[k] <= hi
    ensures lo <= Mean(xs).value <= hi
  {
    SumBounds(xs, lo, hi);
    var n := |xs| as real;
    assert lo * n <= Sum(xs) <= hi * n;
    assert lo == (lo * n) / n && hi == (hi * n) / n;
  }

  lemma {:induction false} SumBounds(xs: seq<real>, lo: real, hi: real)
    requires forall k :: 0 <= k < |xs| ==> lo <= xs[k] <= hi
    ensures lo * |xs| as real <= Sum(xs) <= hi * |xs| as real
  {
    if xs != [] {
      SumBounds(xs[..|xs| - 1], lo, hi);
    }
  }
}
